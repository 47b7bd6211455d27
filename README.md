# SSH agent client: session dispatch and connection, in Dafny

This project models the client side of the SSH agent protocol (draft-miller-ssh-agent,
section 3, "Protocol Messages") as implemented in `src/client.rs` of the `ssh-agent-lib`
crate. The model covers three parts:

- **Reply classification** (module `Operations`). Each of the twelve client operations
  accepts only certain replies. `request_identities` wants an identity list. `sign` wants
  a signature. The nine operations that change the agent's state want a bare `Success`.
  `extension` takes either `Success` (no payload) or `ExtensionResponse` (a payload). Any
  other reply becomes `UnexpectedResponse`, and an error from `handle` is passed on
  unchanged.
- **The `handle` step** (module `Session`). It writes one request and then reads at most
  one response. The byte stream and codec are replaced by a fake channel: a log of the
  requests written (`sent`) and a queue of frames still to read (`inbox`). Each frame
  either decodes to a `Response` or fails to decode with an error. A write can be made to
  fail with an injected error. `Exchange` is one call on that channel, and `Run` is a
  sequence of calls on one session. The class `Client` holds the channel as fields, and
  its methods (`Handle` and the twelve operations) update those fields.
- **`connect`** (module `Connect`). It picks the transport. A local-domain or TCP socket
  is wrapped as it is. A named pipe is opened in a loop that retries while the OS reports
  `ERROR_PIPE_BUSY` (231) and stops at the first success or the first other error. On a
  non-Windows platform a named pipe fails at once without any attempt. The OS's answers to
  successive open attempts are a finite sequence, and the platform is a boolean.

Module `Proto` holds the message and error types. Payloads (`Identity`, `Signature`,
`SignRequest`, key material, `Extension`) are opaque types. Module `SessionUse` holds a
short caller that relies only on the contracts: a session lists two identities, gets a
refused lock and is then disconnected.

Some of the client's behaviour differs from what a reader of the protocol design might
expect. The model follows the code:
- A disconnect is not a separate error kind. It is `ProtoError::IO` with the message
  "server disconnected" (`src/client.rs:198`).
- A named pipe on a non-Windows platform is also an `IO` protocol error, with the message
  "Named pipes supported on Windows only" (`src/client.rs:73-76`).
- The client exposes twelve operations; constrained and unconstrained adds are separate calls.
- An agent's `Failure` reply to a mutating operation is reported as `UnexpectedResponse`.
  It is not a distinct refusal.

## Model

| member | source | states |
|---|---|---|
| `Operations.IdentitiesReply` | src/client.rs:85-93 | succeeds exactly when the reply is an identity list, and then returns that very list (same elements, same order); a `handle` error is passed on unchanged; any other reply gives `UnexpectedResponse` |
| `Operations.SignReply` | src/client.rs:95-102 | succeeds exactly when the reply is a sign response, and then returns its signature unchanged; `handle` errors pass through; any other reply gives `UnexpectedResponse` |
| `Operations.UnitReply` | src/client.rs:104-183 | for the nine mutating operations: `Ok(())` if and only if the reply is `Success`; `handle` errors pass through; every other reply (identity list, signature, extension response, failure) gives `UnexpectedResponse` |
| `Operations.ExtensionReply` | src/client.rs:185-191 | succeeds exactly on `Success` or `ExtensionResponse`; `Success` yields no payload and `ExtensionResponse(e)` yields `e` unchanged (the result re-wrapped is the reply); other replies give `UnexpectedResponse` |
| `Operations.AcceptedRepliesFollowProtocol` | src/client.rs:85-191 | for every response and every argument, each operation accepts a reply exactly when the protocol's success table `Fulfils` assigns that reply shape to the request the operation sends |
| `Operations.RefusalsAreUnexpected` | src/client.rs:85-191 | the agent's `Failure` and `ExtensionFailure` replies never succeed: every operation reports them as `UnexpectedResponse` |
| `Session.Exchange` | src/client.rs:193-200 | one `handle` call: the request is logged exactly when the write succeeds; the frame read, if any, is the oldest in the inbox and nothing else is consumed; end of stream is reported only when the inbox is empty after a successful write; after a failed write nothing is read |
| `Session.HandleResult` | src/client.rs:194-199 | `handle` returns a decoded response unchanged; write and decode errors pass through unchanged; end of stream becomes the IO error "server disconnected" |
| `Session.RunOutcomePerCall` | src/client.rs:193-200 | over any sequence of calls, each call gives exactly one outcome, and a call fails at the write exactly when a write fault was in force |
| `Session.RunLogsWrittenRequests` | src/client.rs:194 | over any sequence of calls, the sent log grows by exactly the requests whose write succeeded, in call order |
| `Session.RunReadsInOrder` | src/client.rs:195 | over any sequence of calls, the frames read followed by the frames left equal the original inbox: responses are consumed in arrival order, none skipped, reordered or read ahead |
| `Session.RunReadsOnePerWrite` | src/client.rs:193-200 | over any sequence of calls, the number of frames read is the number of successful writes, capped by the number of frames available |
| `Session.Client.constructor` | src/client.rs:33-36 | `Client::new` wraps the channel: nothing is sent, nothing is read |
| `Session.Client.Handle` | src/client.rs:193-200 | the new channel state and the returned value are those of `Exchange` on the old state |
| `Session.Client.RequestIdentities` | src/client.rs:85-93 | sends `RequestIdentities` through `handle` and returns `IdentitiesReply` of its outcome |
| `Session.Client.Sign` | src/client.rs:95-102 | sends `SignRequest(request)` with the caller's request unchanged and returns `SignReply` of the outcome |
| `Session.Client.AddIdentity` | src/client.rs:104-110 | sends `AddIdentity(identity)` and returns `UnitReply` of the outcome |
| `Session.Client.AddIdentityConstrained` | src/client.rs:112-121 | sends `AddIdConstrained(identity)` and returns `UnitReply` of the outcome |
| `Session.Client.RemoveIdentity` | src/client.rs:123-129 | sends `RemoveIdentity(identity)` and returns `UnitReply` of the outcome |
| `Session.Client.RemoveAllIdentities` | src/client.rs:131-137 | sends `RemoveAllIdentities` and returns `UnitReply` of the outcome |
| `Session.Client.AddSmartcardKey` | src/client.rs:139-145 | sends `AddSmartcardKey(key)` and returns `UnitReply` of the outcome |
| `Session.Client.AddSmartcardKeyConstrained` | src/client.rs:147-159 | sends `AddSmartcardKeyConstrained(key)` and returns `UnitReply` of the outcome |
| `Session.Client.RemoveSmartcardKey` | src/client.rs:161-167 | sends `RemoveSmartcardKey(key)` and returns `UnitReply` of the outcome |
| `Session.Client.Lock` | src/client.rs:169-175 | sends `Lock(key)` with the passphrase unchanged and returns `UnitReply` of the outcome |
| `Session.Client.Unlock` | src/client.rs:177-183 | sends `Unlock(key)` with the passphrase unchanged and returns `UnitReply` of the outcome |
| `Session.Client.Extension` | src/client.rs:185-191 | sends `Extension(extension)` and returns `ExtensionReply` of the outcome |
| `Connect.FirstSettled` | src/client.rs:56-69 | the index of the first open attempt that is not busy: every earlier attempt was busy |
| `Connect.RetriesBeforeSettling` | src/client.rs:56-69 | when exactly the first N attempts are busy, the loop settles at attempt N, after N retries |
| `Connect.OpenNamedPipe` | src/client.rs:56-69 | the loop retries only on `ERROR_PIPE_BUSY` (231) and stops at the first attempt that is not busy; it returns the opened pipe if that attempt succeeded, and that attempt's OS error otherwise; no attempt follows the stopping one |
| `Connect.Connect` | src/client.rs:40-77 | local and TCP sockets are wrapped with no attempt; a named pipe on Windows goes through the retry loop; on any other platform a named pipe fails with the IO error "Named pipes supported on Windows only" and no attempt is made |

## Left out

- Tokio stream types, the `from_std` conversions and their failures, and `Box<dyn Error>`
  boxing (`src/client.rs:45-51`). These are OS I/O wrappers. `Connect.Connect` returns
  which stream the new client wraps, not a boxed session object.
- The `Framed` adapter and the codec (`src/client.rs:8, 25, 34`). They are not part of
  this model. Encoding is assumed to succeed unless a write fault is injected. Decoding
  is given frame by frame as `Frame(response)` or `Undecodable(error)`.
- The adapter's behaviour after a decode error. The model consumes the undecodable frame
  and lets later calls read on. The real framing layer may instead end the stream.
- The 50 ms sleep between named-pipe attempts (`src/client.rs:68`). Timing is not
  observable here, and only the retry decision is kept.
- Runs of the named-pipe loop that never end. The source retries forever while the pipe
  stays busy. `Connect.OpenNamedPipe` and `Connect.Connect` require that some attempt
  eventually gets an answer other than busy.
- `async_trait`, suspension of the calling future and cancellation of an in-flight call. Only one call at
  a time is enforced by `&mut self`, that is, by the type system and not by logic.
- The Rust `cfg` gating is reduced to one `windows` flag. A local-domain socket descriptor
  exists only when the flag is false.
- The cryptographic meaning of identities, signatures, keys and extensions. They are
  opaque types.
- The full variant lists of the crate's `ProtoError` and `AgentError` types. Their
  definitions are not part of this model. Only `IO` and `UnexpectedResponse` are used by
  the client. The other variants are collapsed into `Decode(reason)` and `Other(reason)`.
