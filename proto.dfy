/**
 The message taxonomy the SSH agent client speaks: the requests it sends, the
 responses an agent may return (draft-miller-ssh-agent, section 3, "Protocol
 Messages"), and the errors a call can end with.

 The payload of every message is opaque here: the client only moves it from the
 caller to the request and from the response back to the caller, so its
 cryptographic meaning plays no part in the model.
 */
module Proto {

  /** A public key the agent offers, with its comment. */
  type Identity(==)
  /** A signature produced by the agent. */
  type Signature(==)
  /** The key to sign with, the data and the flags of a sign request. */
  type SignRequest(==)
  /** A private key to add, with its comment. */
  type AddIdentity(==)
  /** A private key to add, with usage constraints. */
  type AddIdentityConstrained(==)
  /** The public key of an identity to remove. */
  type RemoveIdentity(==)
  /** The id and PIN of a smartcard key. */
  type SmartcardKey(==)
  /** A smartcard key to add, with usage constraints. */
  type AddSmartcardKeyConstrained(==)
  /** A vendor extension: its name and opaque contents. */
  type Extension(==)

  datatype Option<+T> = None | Some(value: T)

  datatype Result<+T, +E> = Ok(value: T) | Err(error: E)

  /** One message from client to agent, one variant per operation. */
  datatype Request =
    | RequestIdentities
    | SignRequest(sign: SignRequest)
    | AddIdentity(identity: AddIdentity)
    | AddIdConstrained(constrained: AddIdentityConstrained)
    | RemoveIdentity(removed: RemoveIdentity)
    | RemoveAllIdentities
    | AddSmartcardKey(key: SmartcardKey)
    | AddSmartcardKeyConstrained(constrainedKey: AddSmartcardKeyConstrained)
    | RemoveSmartcardKey(removedKey: SmartcardKey)
    | Lock(passphrase: string)
    | Unlock(unlockPassphrase: string)
    | Extension(extension: Extension)

  /** One message from agent to client. */
  datatype Response =
    | Success
    | Failure
    | IdentitiesAnswer(identities: seq<Identity>)
    | SignResponse(signature: Signature)
    | ExtensionFailure
    | ExtensionResponse(reply: Extension)

  /**
   Protocol-level errors. `IO` and `UnexpectedResponse` are the two the client
   raises itself; the codec's own decoding errors are gathered in `Decode`.
   */
  datatype ProtoError =
    | IO(message: string)
    | UnexpectedResponse
    | Decode(reason: string)

  /** The error every client operation returns. */
  datatype AgentError =
    | Proto(proto: ProtoError)
    | Other(reason: string)

  /** The message of the IO error a call ends with when the agent hangs up. */
  const ServerDisconnected: string := "server disconnected"

  function Disconnected(): AgentError
  {
    Proto(IO(ServerDisconnected))
  }

  function Unexpected(): AgentError
  {
    Proto(UnexpectedResponse)
  }

  /**
   The reply shapes that carry the successful outcome of a request, as the
   agent protocol assigns them: an identity list answers a listing, a
   signature answers a sign request, an extension may be answered by a bare
   success or by an extension response, and every other request by a bare
   success.
   */
  predicate Fulfils(req: Request, resp: Response)
  {
    match req
    case RequestIdentities => resp.IdentitiesAnswer?
    case SignRequest(_) => resp.SignResponse?
    case Extension(_) => resp.Success? || resp.ExtensionResponse?
    case _ => resp.Success?
  }
}
