/**
 * The collaborators the client calls but whose code is not part of this model, given as
 * records of functions, and the trace of interactions with them that every operation that
 * calls a collaborator returns beside its result.
 */
module Environment {
  import opened Wrappers
  import opened Types

  /** The material `extrinsic::create_signed` signs. */
  datatype SigningPayload = SigningPayload(
    runtimeVersion: RuntimeVersion,
    genesisHash: Hash,
    nonce: Index,
    call: Bytes,
    signer: Signer,
    params: AdditionalParams)

  /** The node as seen through its RPC interface: what each request answers. */
  datatype Node = Node(
    connect: string -> Result<RpcClient, Error>,                            // crate::rpc::ws_client
    metadata: RpcClient -> Result<Metadata, Error>,                         // Rpc::metadata
    genesisHash: RpcClient -> Result<Hash, Error>,                          // Rpc::genesis_hash
    runtimeVersion: (RpcClient, Option<Hash>) -> Result<RuntimeVersion, Error>, // Rpc::runtime_version
    systemProperties: RpcClient -> Result<SystemProperties, Error>,         // Rpc::system_properties
    nextIndex: (RpcClient, AccountId) -> Result<Index, Error>,              // Rpc::system_account_next_index
    submit: (RpcClient, Extrinsic) -> Result<Hash, Error>,                  // Rpc::submit_extrinsic
    watch: (RpcClient, Extrinsic) -> Result<Subscription, Error>)           // Rpc::watch_extrinsic

  /** The local computations the client delegates to: metadata lookup, call encoding, signing, hashing. */
  datatype Primitives = Primitives(
    pallet: (Metadata, string) -> Result<PalletMetadata, Error>,   // Metadata::pallet
    encodeCall: (PalletMetadata, Call) -> Result<Bytes, Error>,    // PalletMetadata::encode_call
    sign: SigningPayload -> Result<Extrinsic, Error>,              // extrinsic::create_signed
    hashOf: Extrinsic -> Hash)                                     // T::Hashing::hash_of

  /** One call into a collaborator, in the order the client issues them. */
  datatype Interaction =
    | Connect(url: string)
    | FetchMetadata(client: RpcClient)
    | FetchGenesisHash(client: RpcClient)
    | FetchRuntimeVersion(client: RpcClient, at: Option<Hash>)
    | FetchProperties(client: RpcClient)
    | NextIndex(client: RpcClient, account: AccountId)
    | LookupPallet(name: string)
    | EncodeCall(pallet: PalletMetadata, call: Call)
    | Sign(payload: SigningPayload)
    | SubmitExtrinsic(client: RpcClient, extrinsic: Extrinsic)
    | WatchExtrinsic(client: RpcClient, extrinsic: Extrinsic)

  /** The result of a client operation together with the interactions it performed. */
  datatype Traced<+T> = Traced(result: Result<T, Error>, trace: seq<Interaction>)

  predicate IsConnect(i: Interaction) { i.Connect? }

  predicate IsFetch(i: Interaction) {
    i.FetchMetadata? || i.FetchGenesisHash? || i.FetchRuntimeVersion? || i.FetchProperties?
  }

  predicate IsNextIndex(i: Interaction) { i.NextIndex? }

  predicate IsEncoding(i: Interaction) { i.LookupPallet? || i.EncodeCall? }

  predicate IsSign(i: Interaction) { i.Sign? }

  predicate IsSubmission(i: Interaction) { i.SubmitExtrinsic? || i.WatchExtrinsic? }

  /** How many interactions of the trace satisfy `p`. */
  function Count(t: seq<Interaction>, p: Interaction -> bool): (n: nat)
    ensures n <= |t|
  {
    if t == [] then 0
    else (if p(t[0]) then 1 else 0) + Count(t[1..], p)
  }

  /** Counting distributes over concatenation of traces. */
  lemma {:induction false} CountAppend(a: seq<Interaction>, b: seq<Interaction>, p: Interaction -> bool)
    ensures Count(a + b, p) == Count(a, p) + Count(b, p)
  {
    if a == [] {
      assert a + b == b;
    } else {
      assert (a + b)[0] == a[0];
      assert (a + b)[1..] == a[1..] + b;
      CountAppend(a[1..], b, p);
    }
  }

  /** A trace none of whose interactions satisfies `p` counts zero. */
  lemma {:induction false} CountNone(t: seq<Interaction>, p: Interaction -> bool)
    requires forall i :: 0 <= i < |t| ==> !p(t[i])
    ensures Count(t, p) == 0
  {
    if t != [] {
      CountNone(t[1..], p);
    }
  }

  /** A single interaction counts once exactly when it satisfies `p`. */
  lemma CountOne(x: Interaction, p: Interaction -> bool)
    ensures Count([x], p) == if p(x) then 1 else 0
  {
  }
}
