# subxt client orchestration, in Dafny

This project models the client layer of subxt (`subxt/src/client.rs`), a Rust client library
for Substrate-based blockchain nodes. That layer does three things:

- `ClientBuilder` collects a connection configuration: a node URL, an already connected RPC
  client, and a storage page size.
- `ClientBuilder::build` turns that configuration into a `Client`. It opens or reuses a
  transport, then fetches the runtime metadata, genesis hash, runtime version and chain
  properties.
- `SubmittableExtrinsic` signs a call against the client's facts and submits it. It can submit
  it plainly, or submit it and watch its progress.

The RPC node, the metadata lookup, the call encoder, the signer and the hasher are code that is
not part of this model. Each one is a function-valued input:

- the `Node` record holds the answer to every RPC request, as a function of the RPC client handle
  and the request's arguments (of the URL alone for `connect`);
- the `Primitives` record holds `Metadata::pallet`, `encode_call`, `extrinsic::create_signed`
  and `T::Hashing::hash_of`.

Every operation that calls a collaborator returns a `Traced` value: its `Result`, plus the sequence of
`Interaction`s it had with those collaborators. `Count` counts the interactions of one kind in
a trace. With it, statements such as "exactly one next-index request" and "never signs" become
postconditions.

Files:

- `wrappers.dfy`: `Option` and `Result`.
- `types.dfy`: the values handled. Opaque handles stand in for the RPC client, the metadata,
  the extrinsic and the subscription.
- `environment.dfy`: the collaborator records, the interaction trace, `Count` and its lemmas.
- `builder.dfy`: `ClientBuilder`, `build`, `Client` and its getters, setter chains.
- `submit.dfy`: `create_signed` and the four submission entry points.

## Model

| member | source | states |
|---|---|---|
| `Builder.ClientBuilder.New` | subxt/src/client.rs:57-64 | a new builder has no URL, no client and no page size |
| `Builder.ClientBuilder.SetClient` | subxt/src/client.rs:66-70 | the client becomes the given one; URL and page size are unchanged |
| `Builder.ClientBuilder.SetUrl` | subxt/src/client.rs:72-76 | the URL becomes the given one; client and page size are unchanged |
| `Builder.ClientBuilder.SetPageSize` | subxt/src/client.rs:78-82 | the page size becomes the given one; URL and client are unchanged |
| `Builder.ConfigureLastWins` | subxt/src/client.rs:56-82 | after `new()` and any chain of setter calls, each field is unset iff no call set it, and otherwise holds the value of the last call that set it |
| `Builder.ConfigureUrlUnset` | subxt/src/client.rs:56-76 | after `new()` and any setter chain, the URL is unset iff no `set_url` call was made |
| `Builder.ConfigureLastUrlWins` | subxt/src/client.rs:56-76 | after `new()` and any setter chain, a set URL is the argument of the last `set_url` call |
| `Builder.ConfigureClientUnset` | subxt/src/client.rs:56-70 | after `new()` and any setter chain, the client is unset iff no `set_client` call was made |
| `Builder.ConfigureLastClientWins` | subxt/src/client.rs:56-70 | after `new()` and any setter chain, a set client is the argument of the last `set_client` call |
| `Builder.ConfigurePageSizeUnset` | subxt/src/client.rs:56-82 | after `new()` and any setter chain, the page size is unset iff no `set_page_size` call was made |
| `Builder.ConfigureLastPageSizeWins` | subxt/src/client.rs:56-82 | after `new()` and any setter chain, a set page size is the argument of the last `set_page_size` call |
| `Builder.Transport` | subxt/src/client.rs:86-91 | a supplied client is used with no interaction; otherwise exactly one connection is opened, to the configured URL or to `ws://127.0.0.1:9944` |
| `Builder.Build` | subxt/src/client.rs:85-110 | opens at most one connection, and only when no client was supplied; a connection failure is returned with the connection attempt as the whole trace; once connected, all four fetches are issued to the selected transport; the build succeeds iff metadata, genesis hash and runtime version all succeed; error precedence is metadata, then genesis hash, then runtime version; a built client stores exactly the fetched values, the default properties when that fetch failed, and the configured page size or 10 |
| `Builder.SuppliedClientIgnoresUrl` | subxt/src/client.rs:86-91 | with a client supplied, setting any URL leaves the whole build (result and trace) unchanged |
| `Builder.PropertiesAreAdvisory` | subxt/src/client.rs:106 | replacing the properties answer with any other never changes whether the build succeeds, nor the error of a failed build |
| `Builder.BuiltClientGetters` | subxt/src/client.rs:140-170 | the getters of a built client return the fetched genesis hash, metadata, properties and the selected RPC client; `storage()` gets that client, that metadata and the resolved page size |
| `Builder.Client.Storage` | subxt/src/client.rs:167-170 | the storage client shares the client's connection, metadata and page size |
| `Submit.ResolveNonce` | subxt/src/client.rs:300-307 | an explicit signer nonce is used with no request; otherwise exactly one next-index request is issued, for the signer's account, and its answer is the result |
| `Submit.ResolveCall` | subxt/src/client.rs:308-312 | the pallet is looked up first; on failure its error is returned and nothing is encoded; on success the pallet's encoding of the call is the result |
| `Submit.CreateSigned` | subxt/src/client.rs:290-324 | no next-index request with an explicit nonce and exactly one, issued first, without; a failed request aborts before encoding and signing; a failed pallet lookup or encoding is returned without signing; signing happens at most once, iff nonce and call were obtained, as the last step, over the client's runtime version and genesis hash, the resolved nonce, the encoded call, the signer and the given parameters, and its answer is the result; nothing is submitted; the whole trace is the nonce request (if any), then the lookup and encoding steps, then the signing, each only when the step before succeeded |
| `Submit.SignAndSubmitWithAdditional` | subxt/src/client.rs:277-288 | a signing failure is returned with the signing trace unchanged; otherwise the signed extrinsic is submitted exactly once, as the last interaction, and the node's answer is the result |
| `Submit.SignAndSubmit` | subxt/src/client.rs:262-271 | equals `SignAndSubmitWithAdditional` with the default additional parameters |
| `Submit.SignAndSubmitWithAdditionalThenWatch` | subxt/src/client.rs:233-252 | a signing failure is returned with the signing trace unchanged; otherwise exactly the signed extrinsic is submitted for watching, last; a failed watch request returns its error; a successful one returns a tracker with the node's subscription, the same client and the hash of the very extrinsic submitted |
| `Submit.SignAndSubmitThenWatch` | subxt/src/client.rs:209-227 | written out separately, as in the source, it equals the additional-parameters variant with the defaults, and its tracker hash is that of the extrinsic it submitted |
| `Submit.SubmitAndWatchSendSameExtrinsic` | subxt/src/client.rs:243-251 | given the same inputs, plain submission and submission for watching issue the same requests and the same signing payload, then send what the signer returned; that this is the same extrinsic rests on signing being a function of its payload (see `Primitives.sign` under Left out) |

## Left out

- WebSocket transport and RPC requests (`crate::rpc::ws_client`, `Rpc::*`): network I/O. Each request is modelled only by its result, which is a function of the RPC client handle and the request's arguments (of the URL alone for `connect`).
- Concurrency of `future::join4`: the four fetches are recorded in the order of `join4`'s arguments. Their real interleaving is not modelled; only how their results combine is.
- `Metadata::pallet`, `encode_call`, `extrinsic::create_signed` and `T::Hashing::hash_of`: signing, hashing and SCALE encoding live in modules that are not part of this model. They are uninterpreted inputs (`Primitives`).
- `Primitives.sign`: `extrinsic::create_signed` is modelled as a deterministic function of its payload. A randomised signer, such as the sr25519 `PairSigner`s used in subxt's tests and example programs (tests/src/frame/staking.rs, examples/examples/submit_data.rs), would produce different bytes on two calls with the same payload; the model does not capture that.
- `AdditionalParams` default: `X::Parameters::default()` is defined outside `subxt/src/client.rs`. The model takes tip 0 and app id 0 (`Types.DefaultParams`). Only the fact that both default entry points use the same value matters to the proofs.
- `BasicError`: reduced to three families. The `From` conversions behind each `?` are taken to be done by the collaborators, which return the client's error type directly.
- `Arc` sharing of the metadata, the `Debug` implementation and `to_runtime_api`: ownership plumbing, formatting, and conversion into macro-generated types.
- The node's state between calls: `Node` answers each request as a pure function. The model therefore says nothing about nonce races between concurrent submissions.
- `TransactionProgress`, `StorageClient` and `Rpc` behaviour: only what the client hands to their constructors is modelled.
