/**
 What each client operation makes of the outcome of its one exchange with the
 agent. Every operation hands its request to `handle`; an error from `handle`
 is passed on unchanged, and a decoded response is accepted only in the shape
 that carries the operation's result. Any other response is a protocol
 violation by the agent and ends the call with `UnexpectedResponse`.
 */
module Operations {
  import opened Proto

  /** `request_identities`: only an identity list is an answer. */
  function IdentitiesReply(reply: Result<Response, AgentError>): (r: Result<seq<Identity>, AgentError>)
    ensures r.Ok? <==> reply.Ok? && reply.value.IdentitiesAnswer?
    // the list the agent sent, with the same elements in the same order
    ensures r.Ok? ==> reply == Ok(IdentitiesAnswer(r.value))
    ensures r.Err? ==> r.error == if reply.Err? then reply.error else Unexpected()
  {
    match reply
    case Err(e) => Err(e)
    case Ok(IdentitiesAnswer(identities)) => Ok(identities)
    case Ok(_) => Err(Unexpected())
  }

  /** `sign`: only a signature is an answer. */
  function SignReply(reply: Result<Response, AgentError>): (r: Result<Signature, AgentError>)
    ensures r.Ok? <==> reply.Ok? && reply.value.SignResponse?
    ensures r.Ok? ==> reply == Ok(SignResponse(r.value))
    ensures r.Err? ==> r.error == if reply.Err? then reply.error else Unexpected()
  {
    match reply
    case Err(e) => Err(e)
    case Ok(SignResponse(signature)) => Ok(signature)
    case Ok(_) => Err(Unexpected())
  }

  /**
   The nine operations that change the agent's state (adding and removing
   identities and smartcard keys, locking and unlocking): only a bare success
   is an answer, so a `Failure` reply is reported as unexpected as well.
   */
  function UnitReply(reply: Result<Response, AgentError>): (r: Result<(), AgentError>)
    ensures r.Ok? <==> reply == Ok(Success)
    ensures r.Err? ==> r.error == if reply.Err? then reply.error else Unexpected()
  {
    match reply
    case Err(e) => Err(e)
    case Ok(Success) => Ok(())
    case Ok(_) => Err(Unexpected())
  }

  /** The response that carries an extension call's result. */
  function ExtensionCarrier(answer: Option<Extension>): Response
  {
    match answer
    case None => Success
    case Some(ext) => ExtensionResponse(ext)
  }

  /**
   `extension`: a bare success means the agent returned no payload, an
   extension response carries one.
   */
  function ExtensionReply(reply: Result<Response, AgentError>): (r: Result<Option<Extension>, AgentError>)
    ensures r.Ok? <==> reply.Ok? && (reply.value.Success? || reply.value.ExtensionResponse?)
    ensures r.Ok? ==> reply == Ok(ExtensionCarrier(r.value))
    ensures r.Err? ==> r.error == if reply.Err? then reply.error else Unexpected()
  {
    match reply
    case Err(e) => Err(e)
    case Ok(Success) => Ok(None)
    case Ok(ExtensionResponse(ext)) => Ok(Some(ext))
    case Ok(_) => Err(Unexpected())
  }

  /**
   Each operation accepts exactly the replies the protocol assigns to the
   request it sends: the classification above and `Fulfils` agree on every
   response, for every argument.
   */
  lemma AcceptedRepliesFollowProtocol(resp: Response, sign: SignRequest, add: AddIdentity,
                                      addConstrained: AddIdentityConstrained, remove: RemoveIdentity,
                                      key: SmartcardKey, keyConstrained: AddSmartcardKeyConstrained,
                                      passphrase: string, ext: Extension)
    ensures IdentitiesReply(Ok(resp)).Ok? <==> Fulfils(RequestIdentities, resp)
    ensures SignReply(Ok(resp)).Ok? <==> Fulfils(Request.SignRequest(sign), resp)
    ensures UnitReply(Ok(resp)).Ok? <==> Fulfils(Request.AddIdentity(add), resp)
    ensures UnitReply(Ok(resp)).Ok? <==> Fulfils(AddIdConstrained(addConstrained), resp)
    ensures UnitReply(Ok(resp)).Ok? <==> Fulfils(Request.RemoveIdentity(remove), resp)
    ensures UnitReply(Ok(resp)).Ok? <==> Fulfils(RemoveAllIdentities, resp)
    ensures UnitReply(Ok(resp)).Ok? <==> Fulfils(AddSmartcardKey(key), resp)
    ensures UnitReply(Ok(resp)).Ok? <==> Fulfils(Request.AddSmartcardKeyConstrained(keyConstrained), resp)
    ensures UnitReply(Ok(resp)).Ok? <==> Fulfils(RemoveSmartcardKey(key), resp)
    ensures UnitReply(Ok(resp)).Ok? <==> Fulfils(Lock(passphrase), resp)
    ensures UnitReply(Ok(resp)).Ok? <==> Fulfils(Unlock(passphrase), resp)
    ensures ExtensionReply(Ok(resp)).Ok? <==> Fulfils(Request.Extension(ext), resp)
  {
  }

  /**
   A reply that the agent protocol treats as a refusal (`Failure`,
   `ExtensionFailure`) never reaches the caller as a result: every operation
   reports it as an unexpected response.
   */
  lemma RefusalsAreUnexpected(resp: Response)
    requires resp.Failure? || resp.ExtensionFailure?
    ensures IdentitiesReply(Ok(resp)) == Err(Unexpected())
    ensures SignReply(Ok(resp)) == Err(Unexpected())
    ensures UnitReply(Ok(resp)) == Err(Unexpected())
    ensures ExtensionReply(Ok(resp)) == Err(Unexpected())
  {
  }
}
