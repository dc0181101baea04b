/**
 * `ClientBuilder` and `Client` (subxt/src/client.rs, lines 48-179): the connection
 * configuration, the resolution of that configuration into a connected client, and the
 * client's read-only accessors.
 */
module Builder {
  import opened Wrappers
  import opened Types
  import opened Environment

  /** The endpoint used when neither a client nor a URL was configured. */
  const DefaultUrl: string := "ws://127.0.0.1:9944"

  /** The storage page size used when none was configured. */
  const DefaultPageSize: u32 := 10

  /**
   * The builder's configuration. Rust's setters take the builder by value and return it,
   * so each one is a datatype update here.
   */
  datatype ClientBuilder = ClientBuilder(url: Option<string>, client: Option<RpcClient>, pageSize: Option<u32>)
  {
    /** `ClientBuilder::new` (and the derived `Default`): nothing configured. */
    static function New(): (b: ClientBuilder)
      ensures b.url == None && b.client == None && b.pageSize == None
    {
      ClientBuilder(None, None, None)
    }

    /** Supply an already connected client. */
    function SetClient(c: RpcClient): (b: ClientBuilder)
      ensures b.client == Some(c)
      ensures b.url == url && b.pageSize == pageSize
    {
      this.(client := Some(c))
    }

    /** Set the node address. */
    function SetUrl(u: string): (b: ClientBuilder)
      ensures b.url == Some(u)
      ensures b.client == client && b.pageSize == pageSize
    {
      this.(url := Some(u))
    }

    /** Set the page size for storage iteration. */
    function SetPageSize(size: u32): (b: ClientBuilder)
      ensures b.pageSize == Some(size)
      ensures b.url == url && b.client == client
    {
      this.(pageSize := Some(size))
    }
  }

  /** A connected client and the connection-level facts fetched when it was built. */
  datatype Client = Client(
    rpc: RpcClient,
    genesisHash: Hash,
    metadata: Metadata,
    properties: SystemProperties,
    runtimeVersion: RuntimeVersion,
    iterPageSize: u32)
  {
    function Genesis(): Hash { genesisHash }

    function RuntimeMetadata(): Metadata { metadata }

    function Properties(): SystemProperties { properties }

    function Rpc(): RpcClient { rpc }

    /** `Client::storage`: a storage client over the same connection, metadata and page size. */
    function Storage(): (s: StorageClient)
      ensures s.rpc == rpc && s.metadata == metadata && s.pageSize == iterPageSize
    {
      StorageClient(rpc, metadata, iterPageSize)
    }
  }

  /** What `StorageClient::new` is given. */
  datatype StorageClient = StorageClient(rpc: RpcClient, metadata: Metadata, pageSize: u32)

  /** The four fetches `build` joins, in the order of `join4`'s arguments. */
  function Fetches(c: RpcClient): seq<Interaction> {
    [FetchMetadata(c), FetchGenesisHash(c), FetchRuntimeVersion(c, None), FetchProperties(c)]
  }

  /**
   * The transport `build` uses: the supplied client if there is one, otherwise a fresh
   * connection to the configured URL or to the default endpoint.
   */
  function Transport(b: ClientBuilder, node: Node): (r: Traced<RpcClient>)
    ensures b.client.Some? ==> r.result == Ok(b.client.value) && r.trace == []
    ensures b.client.None? ==>
      var u := if b.url.Some? then b.url.value else DefaultUrl;
      r.result == node.connect(u) && r.trace == [Connect(u)]
  {
    if b.client.Some? then Traced(Ok(b.client.value), [])
    else
      var u := b.url.GetOr(DefaultUrl);
      Traced(node.connect(u), [Connect(u)])
  }

  /** `ClientBuilder::build`. */
  function Build(b: ClientBuilder, node: Node): (r: Traced<Client>)
    // A connection is opened only when no client was supplied; a failed one ends the build
    // before anything is fetched.
    ensures Count(r.trace, IsConnect) == if b.client.Some? then 0 else 1
    ensures Transport(b, node).result.Err? ==>
      && r.result == Err(Transport(b, node).result.error)
      && r.trace == Transport(b, node).trace
      && Count(r.trace, IsFetch) == 0
    // Once connected, all four fetches are issued, to the selected transport.
    ensures Transport(b, node).result.Ok? ==>
      r.trace == Transport(b, node).trace + Fetches(Transport(b, node).result.value)
    // Metadata, genesis hash and runtime version are mandatory; the properties are not.
    ensures r.result.Ok? <==>
      var t := Transport(b, node).result;
      && t.Ok?
      && node.metadata(t.value).Ok?
      && node.genesisHash(t.value).Ok?
      && node.runtimeVersion(t.value, None).Ok?
    // When several mandatory fetches fail, the metadata error wins, then the genesis hash's.
    ensures
      var t := Transport(b, node).result;
      t.Ok? ==>
        var md, gh, rv := node.metadata(t.value), node.genesisHash(t.value), node.runtimeVersion(t.value, None);
        && (md.Err? ==> r.result == Err(md.error))
        && (md.Ok? && gh.Err? ==> r.result == Err(gh.error))
        && (md.Ok? && gh.Ok? && rv.Err? ==> r.result == Err(rv.error))
    // A built client holds exactly what was fetched, on the transport that was selected.
    ensures r.result.Ok? ==>
      var c, t := r.result.value, Transport(b, node).result.value;
      && c.rpc == t
      && c.metadata == node.metadata(t).value
      && c.genesisHash == node.genesisHash(t).value
      && c.runtimeVersion == node.runtimeVersion(t, None).value
      && c.properties == (if node.systemProperties(t).Ok? then node.systemProperties(t).value else DefaultProperties)
      && c.iterPageSize == (if b.pageSize.Some? then b.pageSize.value else DefaultPageSize)
  {
    var t := Transport(b, node);
    CountOne(Connect(b.url.GetOr(DefaultUrl)), IsConnect);
    CountNone(t.trace, IsFetch);
    match t.result
    case Err(e) => Traced(Err(e), t.trace)
    case Ok(c) =>
      var metadata := node.metadata(c);
      var genesisHash := node.genesisHash(c);
      var runtimeVersion := node.runtimeVersion(c, None);
      var properties := node.systemProperties(c);
      var trace := t.trace + Fetches(c);
      CountAppend(t.trace, Fetches(c), IsConnect);
      CountNone(Fetches(c), IsConnect);
      if metadata.Err? then Traced(Err(metadata.error), trace)
      else if genesisHash.Err? then Traced(Err(genesisHash.error), trace)
      else if runtimeVersion.Err? then Traced(Err(runtimeVersion.error), trace)
      else
        Traced(Ok(Client(
          c,
          genesisHash.value,
          metadata.value,
          properties.GetOr(DefaultProperties),
          runtimeVersion.value,
          b.pageSize.GetOr(DefaultPageSize))), trace)
  }

  /** A supplied client makes the configured URL irrelevant. */
  lemma SuppliedClientIgnoresUrl(b: ClientBuilder, u: string, node: Node)
    requires b.client.Some?
    ensures Build(b.SetUrl(u), node) == Build(b, node)
    ensures Transport(b, node).trace == []
  {
  }

  /** The properties fetch is advisory: whatever it answers, the build succeeds or fails alike. */
  lemma PropertiesAreAdvisory(b: ClientBuilder, node: Node, props: RpcClient -> Result<SystemProperties, Error>)
    ensures Build(b, node.(systemProperties := props)).result.Ok? == Build(b, node).result.Ok?
    ensures Build(b, node).result.Err? ==>
      Build(b, node.(systemProperties := props)).result == Build(b, node).result
  {
  }

  /** The getters and the storage client of a built client hand back exactly what was fetched. */
  lemma BuiltClientGetters(b: ClientBuilder, node: Node)
    requires Build(b, node).result.Ok?
    ensures
      var c, t := Build(b, node).result.value, Transport(b, node).result.value;
      && c.Rpc() == t
      && c.Genesis() == node.genesisHash(t).value
      && c.RuntimeMetadata() == node.metadata(t).value
      && c.Properties() == node.systemProperties(t).GetOr(DefaultProperties)
      && c.Storage() == StorageClient(t, node.metadata(t).value, b.pageSize.GetOr(DefaultPageSize))
  {
  }

  /** One setter call of a builder chain. */
  datatype Setting = UseClient(client: RpcClient) | UseUrl(url: string) | UsePageSize(size: u32)

  function Apply(b: ClientBuilder, s: Setting): ClientBuilder {
    match s
    case UseClient(c) => b.SetClient(c)
    case UseUrl(u) => b.SetUrl(u)
    case UsePageSize(n) => b.SetPageSize(n)
  }

  /** `ClientBuilder::new()` followed by the setter calls `ops`, in order. */
  function Configure(ops: seq<Setting>): ClientBuilder
    decreases |ops|
  {
    if ops == [] then ClientBuilder.New()
    else Apply(Configure(ops[..|ops| - 1]), ops[|ops| - 1])
  }

  /** Without a `set_url` call in the chain the URL stays unset, and with one it does not. */
  lemma {:induction false} ConfigureUrlUnset(ops: seq<Setting>)
    ensures Configure(ops).url.None? <==> forall i :: 0 <= i < |ops| ==> !ops[i].UseUrl?
    decreases |ops|
  {
    if ops != [] {
      var n := |ops| - 1;
      ConfigureUrlUnset(ops[..n]);
      assert forall k :: 0 <= k < n ==> ops[..n][k] == ops[k];
    }
  }

  /** A set url holds the value of the last `set_url` call in the chain. */
  lemma {:induction false} ConfigureLastUrlWins(ops: seq<Setting>)
    ensures Configure(ops).url.Some? ==>
      exists i :: 0 <= i < |ops| && ops[i] == UseUrl(Configure(ops).url.value) &&
        forall j :: i < j < |ops| ==> !ops[j].UseUrl?
    decreases |ops|
  {
    if ops != [] {
      var n := |ops| - 1;
      ConfigureLastUrlWins(ops[..n]);
      assert forall k :: 0 <= k < n ==> ops[..n][k] == ops[k];
      if ops[n].UseUrl? {
        assert ops[n] == UseUrl(Configure(ops).url.value);
      }
    }
  }

  /** Without a `set_client` call in the chain no client is set, and with one it does not. */
  lemma {:induction false} ConfigureClientUnset(ops: seq<Setting>)
    ensures Configure(ops).client.None? <==> forall i :: 0 <= i < |ops| ==> !ops[i].UseClient?
    decreases |ops|
  {
    if ops != [] {
      var n := |ops| - 1;
      ConfigureClientUnset(ops[..n]);
      assert forall k :: 0 <= k < n ==> ops[..n][k] == ops[k];
    }
  }

  /** A set client holds the value of the last `set_client` call in the chain. */
  lemma {:induction false} ConfigureLastClientWins(ops: seq<Setting>)
    ensures Configure(ops).client.Some? ==>
      exists i :: 0 <= i < |ops| && ops[i] == UseClient(Configure(ops).client.value) &&
        forall j :: i < j < |ops| ==> !ops[j].UseClient?
    decreases |ops|
  {
    if ops != [] {
      var n := |ops| - 1;
      ConfigureLastClientWins(ops[..n]);
      assert forall k :: 0 <= k < n ==> ops[..n][k] == ops[k];
      if ops[n].UseClient? {
        assert ops[n] == UseClient(Configure(ops).client.value);
      }
    }
  }

  /** Without a `set_page_size` call in the chain the page size stays unset, and with one it does not. */
  lemma {:induction false} ConfigurePageSizeUnset(ops: seq<Setting>)
    ensures Configure(ops).pageSize.None? <==> forall i :: 0 <= i < |ops| ==> !ops[i].UsePageSize?
    decreases |ops|
  {
    if ops != [] {
      var n := |ops| - 1;
      ConfigurePageSizeUnset(ops[..n]);
      assert forall k :: 0 <= k < n ==> ops[..n][k] == ops[k];
    }
  }

  /** A set pageSize holds the value of the last `set_page_size` call in the chain. */
  lemma {:induction false} ConfigureLastPageSizeWins(ops: seq<Setting>)
    ensures Configure(ops).pageSize.Some? ==>
      exists i :: 0 <= i < |ops| && ops[i] == UsePageSize(Configure(ops).pageSize.value) &&
        forall j :: i < j < |ops| ==> !ops[j].UsePageSize?
    decreases |ops|
  {
    if ops != [] {
      var n := |ops| - 1;
      ConfigureLastPageSizeWins(ops[..n]);
      assert forall k :: 0 <= k < n ==> ops[..n][k] == ops[k];
      if ops[n].UsePageSize? {
        assert ops[n] == UsePageSize(Configure(ops).pageSize.value);
      }
    }
  }

  /**
   * In a chain of setter calls the last call for each field wins, and a field nobody set
   * stays unset.
   */
  lemma ConfigureLastWins(ops: seq<Setting>)
    ensures Configure(ops).url.None? <==> forall i :: 0 <= i < |ops| ==> !ops[i].UseUrl?
    ensures Configure(ops).url.Some? ==>
      exists i :: 0 <= i < |ops| && ops[i] == UseUrl(Configure(ops).url.value) &&
        forall j :: i < j < |ops| ==> !ops[j].UseUrl?
    ensures Configure(ops).client.None? <==> forall i :: 0 <= i < |ops| ==> !ops[i].UseClient?
    ensures Configure(ops).client.Some? ==>
      exists i :: 0 <= i < |ops| && ops[i] == UseClient(Configure(ops).client.value) &&
        forall j :: i < j < |ops| ==> !ops[j].UseClient?
    ensures Configure(ops).pageSize.None? <==> forall i :: 0 <= i < |ops| ==> !ops[i].UsePageSize?
    ensures Configure(ops).pageSize.Some? ==>
      exists i :: 0 <= i < |ops| && ops[i] == UsePageSize(Configure(ops).pageSize.value) &&
        forall j :: i < j < |ops| ==> !ops[j].UsePageSize?
  {
    ConfigureUrlUnset(ops);
    ConfigureLastUrlWins(ops);
    ConfigureClientUnset(ops);
    ConfigureLastClientWins(ops);
    ConfigurePageSizeUnset(ops);
    ConfigureLastPageSizeWins(ops);
  }
}
