/**
 * The values the client handles. Those whose structure lives in modules that are not part of
 * this model (the RPC client, decoded metadata, the unchecked extrinsic, the subscription) are
 * kept as opaque handles: the orchestration only passes them on or compares them.
 */
module Types {
  import opened Wrappers

  /** Rust's `u32`, used for the storage page size and the runtime version numbers. */
  newtype u32 = x: int | 0 <= x < 0x1_0000_0000

  type Bytes = seq<bv8>

  /** `T::Hash` of the configuration. */
  type Hash = Bytes

  /** `T::AccountId` of the configuration. */
  type AccountId = Bytes

  /** `T::Index`, the account nonce. */
  type Index = nat

  /** Handle on a connected JSON-RPC client (`RpcClient`). */
  datatype RpcClient = RpcClient(handle: nat)

  /** Handle on an extrinsic-status subscription returned by the node. */
  datatype Subscription = Subscription(id: nat)

  /** The runtime version reported by the node. */
  datatype RuntimeVersion = RuntimeVersion(specVersion: u32, transactionVersion: u32)

  /** The chain-spec properties: a JSON object, keys to (serialised) values. */
  type SystemProperties = map<string, string>

  /** `SystemProperties::default()`: the empty JSON object. */
  const DefaultProperties: SystemProperties := map[]

  /** Decoded runtime metadata, opaque here: it is only stored, handed out and consulted. */
  datatype Metadata = Metadata(blob: Bytes)

  /** The metadata of one pallet, as `Metadata::pallet` returns it. */
  datatype PalletMetadata = PalletMetadata(name: string, index: bv8)

  /** A call value: its pallet (`C::PALLET`), its function name (`C::FUNCTION`) and its SCALE-encoded arguments. */
  datatype Call = Call(pallet: string, name: string, args: Bytes)

  /** A signed `UncheckedExtrinsic`, opaque: only its encoding identifies it. */
  datatype Extrinsic = Extrinsic(encoded: Bytes)

  /** `X::Parameters`, the additional signed parameters (`tip` and `app_id` on this chain). */
  datatype AdditionalParams = AdditionalParams(tip: nat, appId: u32)

  /** `X::Parameters::default()`. */
  const DefaultParams: AdditionalParams := AdditionalParams(0, 0)

  /** What the client asks of a `Signer`: its account and, optionally, an explicit nonce. */
  datatype Signer = Signer(accountId: AccountId, nonce: Option<Index>)

  /** `BasicError`, reduced to the families the client can return. */
  datatype Error =
    | RpcError(message: string)      // transport failure or node-reported RPC error
    | MetadataError(message: string) // pallet not found or call not encodable
    | SigningError(message: string)  // the signer refused or failed
}
