/**
 * `SubmittableExtrinsic` (subxt/src/client.rs, lines 181-325): `create_signed`, which signs a
 * call against a client's connection facts, and the four submission entry points (plain or
 * watched, each with the default or with explicit additional parameters).
 */
module Submit {
  import opened Wrappers
  import opened Types
  import opened Environment
  import opened Builder

  /** A call paired with the client it will be signed and submitted through (`SubmittableExtrinsic::new`). */
  datatype SubmittableExtrinsic = SubmittableExtrinsic(client: Client, call: Call)

  /** What `TransactionProgress::new` is given: the status subscription, the client and the extrinsic's hash. */
  datatype TransactionProgress = TransactionProgress(sub: Subscription, client: Client, extHash: Hash)

  /** The nonce `create_signed` signs with: the signer's own, or the node's next index for the signer's account. */
  function ResolveNonce(x: SubmittableExtrinsic, node: Node, signer: Signer): (r: Traced<Index>)
    ensures Count(r.trace, IsNextIndex) == |r.trace| == if signer.nonce.Some? then 0 else 1
    ensures signer.nonce.Some? ==> r.result == Ok(signer.nonce.value)
    ensures signer.nonce.None? ==>
      && r.trace == [NextIndex(x.client.rpc, signer.accountId)]
      && r.result == node.nextIndex(x.client.rpc, signer.accountId)
  {
    if signer.nonce.Some? then Traced(Ok(signer.nonce.value), [])
    else
      var i := NextIndex(x.client.rpc, signer.accountId);
      CountOne(i, IsNextIndex);
      Traced(node.nextIndex(x.client.rpc, signer.accountId), [i])
  }

  /** The encoded call: the call's pallet looked up in the client's metadata, then the call encoded by it. */
  function ResolveCall(x: SubmittableExtrinsic, prims: Primitives): (r: Traced<Bytes>)
    ensures Count(r.trace, IsEncoding) == |r.trace| >= 1
    ensures |r.trace| >= 1 && r.trace[0] == LookupPallet(x.call.pallet)
    ensures
      var pallet := prims.pallet(x.client.metadata, x.call.pallet);
      && (pallet.Err? ==> r.result == Err(pallet.error) && |r.trace| == 1)
      && (pallet.Ok? ==> r.result == prims.encodeCall(pallet.value, x.call)
                         && r.trace == [LookupPallet(x.call.pallet), EncodeCall(pallet.value, x.call)])
  {
    var lookup := LookupPallet(x.call.pallet);
    CountOne(lookup, IsEncoding);
    match prims.pallet(x.client.metadata, x.call.pallet)
    case Err(e) => Traced(Err(e), [lookup])
    case Ok(pallet) =>
      var encode := EncodeCall(pallet, x.call);
      CountOne(encode, IsEncoding);
      CountAppend([lookup], [encode], IsEncoding);
      assert [lookup] + [encode] == [lookup, encode];
      Traced(prims.encodeCall(pallet, x.call), [lookup, encode])
  }

  /** The complete set of counts of a nonce-resolution trace followed by an encoding trace. */
  lemma PrefixCounts(x: SubmittableExtrinsic, node: Node, prims: Primitives, signer: Signer)
    ensures
      var n, c := ResolveNonce(x, node, signer).trace, ResolveCall(x, prims).trace;
      && Count(n, IsEncoding) == Count(n, IsSign) == Count(n, IsSubmission) == 0
      && Count(c, IsNextIndex) == Count(c, IsSign) == Count(c, IsSubmission) == 0
  {
  }

  /** The counts of a nonce-resolution trace followed by an encoding trace. */
  lemma EncodedCounts(n: seq<Interaction>, c: seq<Interaction>)
    requires Count(n, IsEncoding) == Count(n, IsSign) == Count(n, IsSubmission) == 0
    requires Count(c, IsNextIndex) == Count(c, IsSign) == Count(c, IsSubmission) == 0
    ensures Count(n + c, IsNextIndex) == Count(n, IsNextIndex)
    ensures Count(n + c, IsEncoding) == Count(c, IsEncoding)
    ensures Count(n + c, IsSign) == Count(n + c, IsSubmission) == 0
  {
    CountAppend(n, c, IsNextIndex);
    CountAppend(n, c, IsEncoding);
    CountAppend(n, c, IsSign);
    CountAppend(n, c, IsSubmission);
  }

  /** The counts of those two traces followed by one signing step. */
  lemma SignedCounts(n: seq<Interaction>, c: seq<Interaction>, p: SigningPayload)
    requires Count(n, IsEncoding) == Count(n, IsSign) == Count(n, IsSubmission) == 0
    requires Count(c, IsNextIndex) == Count(c, IsSign) == Count(c, IsSubmission) == 0
    ensures Count(n + c + [Sign(p)], IsNextIndex) == Count(n, IsNextIndex)
    ensures Count(n + c + [Sign(p)], IsEncoding) == Count(c, IsEncoding)
    ensures Count(n + c + [Sign(p)], IsSign) == 1
    ensures Count(n + c + [Sign(p)], IsSubmission) == 0
  {
    EncodedCounts(n, c);
    CountAppend(n + c, [Sign(p)], IsNextIndex);
    CountAppend(n + c, [Sign(p)], IsEncoding);
    CountAppend(n + c, [Sign(p)], IsSign);
    CountAppend(n + c, [Sign(p)], IsSubmission);
    CountOne(Sign(p), IsNextIndex);
    CountOne(Sign(p), IsEncoding);
    CountOne(Sign(p), IsSign);
    CountOne(Sign(p), IsSubmission);
  }

  /** `SubmittableExtrinsic::create_signed`. */
  function CreateSigned(x: SubmittableExtrinsic, node: Node, prims: Primitives, signer: Signer, params: AdditionalParams)
    : (r: Traced<Extrinsic>)
    // Nonce policy: no next-index request when the signer has a nonce, exactly one otherwise,
    // issued first and for the signer's account.
    ensures Count(r.trace, IsNextIndex) == if signer.nonce.Some? then 0 else 1
    ensures signer.nonce.None? ==> |r.trace| >= 1 && r.trace[0] == NextIndex(x.client.rpc, signer.accountId)
    // A failed next-index request ends the operation before the call is encoded.
    ensures signer.nonce.None? && node.nextIndex(x.client.rpc, signer.accountId).Err? ==>
      && r.result == Err(node.nextIndex(x.client.rpc, signer.accountId).error)
      && Count(r.trace, IsEncoding) == 0
      && Count(r.trace, IsSign) == 0
    // A failed pallet lookup or call encoding is returned without signing.
    ensures ResolveNonce(x, node, signer).result.Ok? && ResolveCall(x, prims).result.Err? ==>
      r.result == Err(ResolveCall(x, prims).result.error) && Count(r.trace, IsSign) == 0
    // Signing happens at most once, exactly when nonce and call were both obtained, as the last step,
    // over the client's runtime version and genesis hash, the resolved nonce, the encoded call, the
    // signer and the given parameters; its answer is the result.
    ensures Count(r.trace, IsSign) <= 1
    ensures Count(r.trace, IsSign) == 1 <==>
      ResolveNonce(x, node, signer).result.Ok? && ResolveCall(x, prims).result.Ok?
    ensures Count(r.trace, IsSign) == 1 ==>
      var nonce := if signer.nonce.Some? then signer.nonce.value
                   else node.nextIndex(x.client.rpc, signer.accountId).value;
      var p := SigningPayload(x.client.runtimeVersion, x.client.genesisHash, nonce,
                              ResolveCall(x, prims).result.value, signer, params);
      && r.trace[|r.trace| - 1] == Sign(p)
      && r.result == prims.sign(p)
    // Nothing is submitted.
    ensures Count(r.trace, IsSubmission) == 0
    // The whole trace: the nonce request (if any), then the pallet lookup and the encoding (if
    // the nonce was obtained), then the signing (if the call was encoded too), and nothing else.
    ensures
      var n, c := ResolveNonce(x, node, signer), ResolveCall(x, prims);
      r.trace == if n.result.Err? then n.trace
                 else if c.result.Err? then n.trace + c.trace
                 else n.trace + c.trace + [Sign(SigningPayload(x.client.runtimeVersion, x.client.genesisHash,
                                                               n.result.value, c.result.value, signer, params))]
  {
    var n := ResolveNonce(x, node, signer);
    var c := ResolveCall(x, prims);
    PrefixCounts(x, node, prims, signer);
    match n.result
    case Err(e) => Traced(Err(e), n.trace)
    case Ok(nonce) =>
      match c.result
      case Err(e) =>
        EncodedCounts(n.trace, c.trace);
        Traced(Err(e), n.trace + c.trace)
      case Ok(call) =>
        var p := SigningPayload(x.client.runtimeVersion, x.client.genesisHash, nonce, call, signer, params);
        SignedCounts(n.trace, c.trace, p);
        var t := n.trace + c.trace + [Sign(p)];
        assert t[|t| - 1] == Sign(p);
        Traced(prims.sign(p), t)
  }

  /** `SubmittableExtrinsic::sign_and_submit_with_additional`. */
  function SignAndSubmitWithAdditional(x: SubmittableExtrinsic, node: Node, prims: Primitives, signer: Signer,
                                       params: AdditionalParams): (r: Traced<Hash>)
    // A signing failure is returned and nothing is submitted.
    ensures CreateSigned(x, node, prims, signer, params).result.Err? ==>
      && r.result == Err(CreateSigned(x, node, prims, signer, params).result.error)
      && r.trace == CreateSigned(x, node, prims, signer, params).trace
      && Count(r.trace, IsSubmission) == 0
    // Otherwise exactly the signed extrinsic is submitted, last, and the node's answer is the result.
    ensures CreateSigned(x, node, prims, signer, params).result.Ok? ==>
      var xt := CreateSigned(x, node, prims, signer, params).result.value;
      && Count(r.trace, IsSubmission) == 1
      && r.trace == CreateSigned(x, node, prims, signer, params).trace + [SubmitExtrinsic(x.client.rpc, xt)]
      && r.result == node.submit(x.client.rpc, xt)
  {
    var s := CreateSigned(x, node, prims, signer, params);
    match s.result
    case Err(e) => Traced(Err(e), s.trace)
    case Ok(xt) =>
      var submit := SubmitExtrinsic(x.client.rpc, xt);
      CountAppend(s.trace, [submit], IsSubmission);
      CountOne(submit, IsSubmission);
      Traced(node.submit(x.client.rpc, xt), s.trace + [submit])
  }

  /** `SubmittableExtrinsic::sign_and_submit`: the same with the default additional parameters. */
  function SignAndSubmit(x: SubmittableExtrinsic, node: Node, prims: Primitives, signer: Signer): (r: Traced<Hash>)
    ensures r == SignAndSubmitWithAdditional(x, node, prims, signer, DefaultParams)
  {
    SignAndSubmitWithAdditional(x, node, prims, signer, DefaultParams)
  }

  /** `SubmittableExtrinsic::sign_and_submit_with_aditional_then_watch`. */
  function SignAndSubmitWithAdditionalThenWatch(x: SubmittableExtrinsic, node: Node, prims: Primitives,
                                                signer: Signer, params: AdditionalParams)
    : (r: Traced<TransactionProgress>)
    // A signing failure is returned and nothing is submitted.
    ensures CreateSigned(x, node, prims, signer, params).result.Err? ==>
      && r.result == Err(CreateSigned(x, node, prims, signer, params).result.error)
      && r.trace == CreateSigned(x, node, prims, signer, params).trace
      && Count(r.trace, IsSubmission) == 0
    // Otherwise exactly the signed extrinsic is submitted for watching, last.
    ensures CreateSigned(x, node, prims, signer, params).result.Ok? ==>
      var xt := CreateSigned(x, node, prims, signer, params).result.value;
      && Count(r.trace, IsSubmission) == 1
      && r.trace == CreateSigned(x, node, prims, signer, params).trace + [WatchExtrinsic(x.client.rpc, xt)]
      && (node.watch(x.client.rpc, xt).Err? ==> r.result == Err(node.watch(x.client.rpc, xt).error))
      && (node.watch(x.client.rpc, xt).Ok? ==>
            r.result == Ok(TransactionProgress(node.watch(x.client.rpc, xt).value, x.client, prims.hashOf(xt))))
    // The progress tracker follows the node's subscription for the hash of the very extrinsic submitted.
    ensures r.result.Ok? ==>
      && |r.trace| >= 1 && r.trace[|r.trace| - 1].WatchExtrinsic?
      && var xt := r.trace[|r.trace| - 1].extrinsic;
      && r.result.value.extHash == prims.hashOf(xt)
      && node.watch(x.client.rpc, xt) == Ok(r.result.value.sub)
      && r.result.value.client == x.client
  {
    var s := CreateSigned(x, node, prims, signer, params);
    match s.result
    case Err(e) => Traced(Err(e), s.trace)
    case Ok(xt) =>
      var extHash := prims.hashOf(xt);
      var watch := WatchExtrinsic(x.client.rpc, xt);
      CountAppend(s.trace, [watch], IsSubmission);
      CountOne(watch, IsSubmission);
      match node.watch(x.client.rpc, xt)
      case Err(e) => Traced(Err(e), s.trace + [watch])
      case Ok(sub) => Traced(Ok(TransactionProgress(sub, x.client, extHash)), s.trace + [watch])
  }

  /** `SubmittableExtrinsic::sign_and_submit_then_watch`, written out on its own as in the source. */
  function SignAndSubmitThenWatch(x: SubmittableExtrinsic, node: Node, prims: Primitives, signer: Signer)
    : (r: Traced<TransactionProgress>)
    ensures r == SignAndSubmitWithAdditionalThenWatch(x, node, prims, signer, DefaultParams)
    ensures r.result.Ok? ==>
      && |r.trace| >= 1 && r.trace[|r.trace| - 1].WatchExtrinsic?
      && r.result.value.extHash == prims.hashOf(r.trace[|r.trace| - 1].extrinsic)
  {
    var s := CreateSigned(x, node, prims, signer, DefaultParams);
    match s.result
    case Err(e) => Traced(Err(e), s.trace)
    case Ok(xt) =>
      var extHash := prims.hashOf(xt);
      match node.watch(x.client.rpc, xt)
      case Err(e) => Traced(Err(e), s.trace + [WatchExtrinsic(x.client.rpc, xt)])
      case Ok(sub) => Traced(Ok(TransactionProgress(sub, x.client, extHash)), s.trace + [WatchExtrinsic(x.client.rpc, xt)])
  }

  /**
   * Submitting and submitting for watching issue the same requests and the same signing payload,
   * then send what the signer returned.
   */
  lemma SubmitAndWatchSendSameExtrinsic(x: SubmittableExtrinsic, node: Node, prims: Primitives, signer: Signer,
                                        params: AdditionalParams)
    requires CreateSigned(x, node, prims, signer, params).result.Ok?
    ensures
      var a := SignAndSubmitWithAdditional(x, node, prims, signer, params).trace;
      var w := SignAndSubmitWithAdditionalThenWatch(x, node, prims, signer, params).trace;
      && |a| == |w| >= 1
      && a[..|a| - 1] == w[..|w| - 1]
      && a[|a| - 1].extrinsic == w[|w| - 1].extrinsic
  {
  }
}
