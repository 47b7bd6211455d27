/**
 The client session: one request out, at most one response in, in order.

 The byte stream and the codec that frames it are replaced by a fake channel:
 the log of requests written so far and the queue of frames still to be read.
 A frame either decodes to a response or fails to decode with an error, and a
 write can be made to fail with an injected error. `Exchange` is one run of
 `handle` on that channel; `Run` is a sequence of calls on one session.
 */
module Session {
  import opened Proto
  import opened Operations

  /** One frame waiting on the stream, as the codec will report it. */
  datatype Incoming = Frame(response: Response) | Undecodable(fault: AgentError)

  /** The state of the channel: requests written, frames not yet read. */
  datatype Wire = Wire(sent: seq<Request>, inbox: seq<Incoming>)

  /** How one call of `handle` ended on the channel. */
  datatype Handled =
    | WriteFailed(fault: AgentError)  // the send failed; nothing was read
    | Read(item: Incoming)            // the send went through and one frame was read
    | EndOfStream                     // the send went through and the stream had ended

  /** The frames one call consumed from the inbox. */
  function Consumed(h: Handled): seq<Incoming>
  {
    if h.Read? then [h.item] else []
  }

  /**
   One call of `handle(m)`: write `m` (unless the write fails), then read at
   most one frame.
   */
  function Exchange(w: Wire, sendFault: Option<AgentError>, m: Request): (out: (Handled, Wire))
    // the request is logged exactly when the write went through
    ensures out.0.WriteFailed? <==> sendFault.Some?
    ensures out.1.sent == w.sent + (if sendFault.None? then [m] else [])
    // the frame read, if any, is the oldest one; nothing else is consumed or reordered
    ensures Consumed(out.0) + out.1.inbox == w.inbox
    // a frame is read whenever one is there after a successful write
    ensures out.0.EndOfStream? <==> sendFault.None? && w.inbox == []
  {
    if sendFault.Some? then (WriteFailed(sendFault.value), w)
    else if w.inbox == [] then (EndOfStream, Wire(w.sent + [m], []))
    else (Read(w.inbox[0]), Wire(w.sent + [m], w.inbox[1..]))
  }

  /** What `handle` returns to the operation that called it. */
  function HandleResult(h: Handled): (r: Result<Response, AgentError>)
    ensures r.Ok? <==> h.Read? && h.item.Frame?
    ensures r.Ok? ==> r.value == h.item.response
    ensures h.WriteFailed? ==> r == Err(h.fault)
    ensures h.Read? && h.item.Undecodable? ==> r == Err(h.item.fault)
    ensures h.EndOfStream? ==> r == Err(Proto(IO("server disconnected")))
  {
    match h
    case WriteFailed(e) => Err(e)
    case Read(Frame(resp)) => Ok(resp)
    case Read(Undecodable(e)) => Err(e)
    case EndOfStream => Err(Disconnected())
  }

  /** One operation call on a session, with the write fault in force at the time. */
  datatype Call = Call(request: Request, sendFault: Option<AgentError>)

  /** Calls made one after another on one session, each resolved before the next. */
  function Run(w: Wire, calls: seq<Call>): (out: (seq<Handled>, Wire))
    decreases |calls|
  {
    if calls == [] then ([], w)
    else
      var step := Exchange(w, calls[0].sendFault, calls[0].request);
      var tail := Run(step.1, calls[1..]);
      ([step.0] + tail.0, tail.1)
  }

  /** The requests of the calls whose write went through, in call order. */
  function Written(calls: seq<Call>): seq<Request>
  {
    if calls == [] then []
    else (if calls[0].sendFault.None? then [calls[0].request] else []) + Written(calls[1..])
  }

  /** The frames consumed by a sequence of calls, in call order. */
  function ConsumedAll(hs: seq<Handled>): seq<Incoming>
  {
    if hs == [] then [] else Consumed(hs[0]) + ConsumedAll(hs[1..])
  }

  function Min(a: int, b: int): int
  {
    if a <= b then a else b
  }

  /** Each call of a run yields exactly one outcome, and a write fails exactly where a fault was injected. */
  lemma {:induction false} RunOutcomePerCall(w: Wire, calls: seq<Call>)
    ensures |Run(w, calls).0| == |calls|
    ensures forall i :: 0 <= i < |calls| ==> (Run(w, calls).0[i].WriteFailed? <==> calls[i].sendFault.Some?)
    decreases |calls|
  {
    if calls != [] {
      var x := Exchange(w, calls[0].sendFault, calls[0].request);
      var tail := Run(x.1, calls[1..]);
      RunOutcomePerCall(x.1, calls[1..]);
      assert Run(w, calls).0 == [x.0] + tail.0;
      forall i | 0 < i < |calls|
        ensures Run(w, calls).0[i].WriteFailed? <==> calls[i].sendFault.Some?
      {
        assert Run(w, calls).0[i] == tail.0[i - 1];
        assert calls[i] == calls[1..][i - 1];
      }
    }
  }

  /** The log of a run grows by exactly the requests whose write went through, in call order. */
  lemma {:induction false} RunLogsWrittenRequests(w: Wire, calls: seq<Call>)
    ensures Run(w, calls).1.sent == w.sent + Written(calls)
    decreases |calls|
  {
    if calls != [] {
      var x := Exchange(w, calls[0].sendFault, calls[0].request);
      RunLogsWrittenRequests(x.1, calls[1..]);
      assert Run(w, calls).1 == Run(x.1, calls[1..]).1;
    }
  }

  /**
   The frames a run reads are the oldest ones of the inbox, in arrival order,
   none skipped and none read ahead, and what remains is the rest of the inbox.
   */
  lemma {:induction false} RunReadsInOrder(w: Wire, calls: seq<Call>)
    ensures ConsumedAll(Run(w, calls).0) + Run(w, calls).1.inbox == w.inbox
    decreases |calls|
  {
    if calls != [] {
      var x := Exchange(w, calls[0].sendFault, calls[0].request);
      var tail := Run(x.1, calls[1..]);
      RunReadsInOrder(x.1, calls[1..]);
      assert Run(w, calls) == ([x.0] + tail.0, tail.1);
      assert ([x.0] + tail.0)[1..] == tail.0;
      calc {
        ConsumedAll([x.0] + tail.0) + tail.1.inbox;
        Consumed(x.0) + (ConsumedAll(tail.0) + tail.1.inbox);
        w.inbox;
      }
    }
  }

  /** Every written call of a run reads one frame for as long as frames remain. */
  lemma {:induction false} RunReadsOnePerWrite(w: Wire, calls: seq<Call>)
    ensures |ConsumedAll(Run(w, calls).0)| == Min(|Written(calls)|, |w.inbox|)
    decreases |calls|
  {
    if calls != [] {
      var x := Exchange(w, calls[0].sendFault, calls[0].request);
      var tail := Run(x.1, calls[1..]);
      RunReadsOnePerWrite(x.1, calls[1..]);
      assert Run(w, calls) == ([x.0] + tail.0, tail.1);
      assert ([x.0] + tail.0)[1..] == tail.0;
      assert ConsumedAll([x.0] + tail.0) == Consumed(x.0) + ConsumedAll(tail.0);
    }
  }

  /** The SSH agent client: a session over one exclusively owned channel. */
  class Client {
    var sent: seq<Request>
    var inbox: seq<Incoming>
    var sendFault: Option<AgentError>

    /** The channel state the client works on. */
    function State(): Wire
      reads this
    {
      Wire(sent, inbox)
    }

    /** `Client::new`: wraps the channel; nothing is sent or read. */
    constructor (replies: seq<Incoming>)
      ensures State() == Wire([], replies) && sendFault == None
    {
      sent := [];
      inbox := replies;
      sendFault := None;
    }

    /** Makes later writes fail with `fault`, or succeed again with `None`. */
    method InjectSendFault(fault: Option<AgentError>)
      modifies this
      ensures State() == old(State()) && sendFault == fault
    {
      sendFault := fault;
    }

    /** `handle`: send `m`, then read at most one response. */
    method Handle(m: Request) returns (r: Result<Response, AgentError>)
      modifies this
      ensures sendFault == old(sendFault)
      ensures (Exchange(old(State()), sendFault, m).1 == State())
      ensures r == HandleResult(Exchange(old(State()), sendFault, m).0)
    {
      // send
      if sendFault.Some? {
        return Err(sendFault.value);
      }
      sent := sent + [m];
      // try_next
      if inbox == [] {
        return Err(Disconnected());
      }
      var item := inbox[0];
      inbox := inbox[1..];
      match item
      case Frame(resp) => r := Ok(resp);
      case Undecodable(e) => r := Err(e);
    }

    method RequestIdentities() returns (r: Result<seq<Identity>, AgentError>)
      modifies this
      ensures sendFault == old(sendFault)
      ensures Exchange(old(State()), sendFault, Request.RequestIdentities).1 == State()
      ensures r == IdentitiesReply(HandleResult(Exchange(old(State()), sendFault, Request.RequestIdentities).0))
    {
      var reply := Handle(Request.RequestIdentities);
      r := IdentitiesReply(reply);
    }

    method Sign(request: SignRequest) returns (r: Result<Signature, AgentError>)
      modifies this
      ensures sendFault == old(sendFault)
      ensures Exchange(old(State()), sendFault, Request.SignRequest(request)).1 == State()
      ensures r == SignReply(HandleResult(Exchange(old(State()), sendFault, Request.SignRequest(request)).0))
    {
      var reply := Handle(Request.SignRequest(request));
      r := SignReply(reply);
    }

    method AddIdentity(identity: AddIdentity) returns (r: Result<(), AgentError>)
      modifies this
      ensures sendFault == old(sendFault)
      ensures Exchange(old(State()), sendFault, Request.AddIdentity(identity)).1 == State()
      ensures r == UnitReply(HandleResult(Exchange(old(State()), sendFault, Request.AddIdentity(identity)).0))
    {
      var reply := Handle(Request.AddIdentity(identity));
      r := UnitReply(reply);
    }

    method AddIdentityConstrained(identity: AddIdentityConstrained) returns (r: Result<(), AgentError>)
      modifies this
      ensures sendFault == old(sendFault)
      ensures Exchange(old(State()), sendFault, Request.AddIdConstrained(identity)).1 == State()
      ensures r == UnitReply(HandleResult(Exchange(old(State()), sendFault, Request.AddIdConstrained(identity)).0))
    {
      var reply := Handle(Request.AddIdConstrained(identity));
      r := UnitReply(reply);
    }

    method RemoveIdentity(identity: RemoveIdentity) returns (r: Result<(), AgentError>)
      modifies this
      ensures sendFault == old(sendFault)
      ensures Exchange(old(State()), sendFault, Request.RemoveIdentity(identity)).1 == State()
      ensures r == UnitReply(HandleResult(Exchange(old(State()), sendFault, Request.RemoveIdentity(identity)).0))
    {
      var reply := Handle(Request.RemoveIdentity(identity));
      r := UnitReply(reply);
    }

    method RemoveAllIdentities() returns (r: Result<(), AgentError>)
      modifies this
      ensures sendFault == old(sendFault)
      ensures Exchange(old(State()), sendFault, Request.RemoveAllIdentities).1 == State()
      ensures r == UnitReply(HandleResult(Exchange(old(State()), sendFault, Request.RemoveAllIdentities).0))
    {
      var reply := Handle(Request.RemoveAllIdentities);
      r := UnitReply(reply);
    }

    method AddSmartcardKey(key: SmartcardKey) returns (r: Result<(), AgentError>)
      modifies this
      ensures sendFault == old(sendFault)
      ensures Exchange(old(State()), sendFault, Request.AddSmartcardKey(key)).1 == State()
      ensures r == UnitReply(HandleResult(Exchange(old(State()), sendFault, Request.AddSmartcardKey(key)).0))
    {
      var reply := Handle(Request.AddSmartcardKey(key));
      r := UnitReply(reply);
    }

    method AddSmartcardKeyConstrained(key: AddSmartcardKeyConstrained) returns (r: Result<(), AgentError>)
      modifies this
      ensures sendFault == old(sendFault)
      ensures Exchange(old(State()), sendFault, Request.AddSmartcardKeyConstrained(key)).1 == State()
      ensures r == UnitReply(HandleResult(Exchange(old(State()), sendFault, Request.AddSmartcardKeyConstrained(key)).0))
    {
      var reply := Handle(Request.AddSmartcardKeyConstrained(key));
      r := UnitReply(reply);
    }

    method RemoveSmartcardKey(key: SmartcardKey) returns (r: Result<(), AgentError>)
      modifies this
      ensures sendFault == old(sendFault)
      ensures Exchange(old(State()), sendFault, Request.RemoveSmartcardKey(key)).1 == State()
      ensures r == UnitReply(HandleResult(Exchange(old(State()), sendFault, Request.RemoveSmartcardKey(key)).0))
    {
      var reply := Handle(Request.RemoveSmartcardKey(key));
      r := UnitReply(reply);
    }

    method Lock(key: string) returns (r: Result<(), AgentError>)
      modifies this
      ensures sendFault == old(sendFault)
      ensures Exchange(old(State()), sendFault, Request.Lock(key)).1 == State()
      ensures r == UnitReply(HandleResult(Exchange(old(State()), sendFault, Request.Lock(key)).0))
    {
      var reply := Handle(Request.Lock(key));
      r := UnitReply(reply);
    }

    method Unlock(key: string) returns (r: Result<(), AgentError>)
      modifies this
      ensures sendFault == old(sendFault)
      ensures Exchange(old(State()), sendFault, Request.Unlock(key)).1 == State()
      ensures r == UnitReply(HandleResult(Exchange(old(State()), sendFault, Request.Unlock(key)).0))
    {
      var reply := Handle(Request.Unlock(key));
      r := UnitReply(reply);
    }

    method Extension(extension: Extension) returns (r: Result<Option<Extension>, AgentError>)
      modifies this
      ensures sendFault == old(sendFault)
      ensures Exchange(old(State()), sendFault, Request.Extension(extension)).1 == State()
      ensures r == ExtensionReply(HandleResult(Exchange(old(State()), sendFault, Request.Extension(extension)).0))
    {
      var reply := Handle(Request.Extension(extension));
      r := ExtensionReply(reply);
    }
  }
}

/**
 What a caller can conclude from the contracts alone: a session whose agent
 lists two identities, refuses a lock and then hangs up.
 */
module SessionUse {
  import opened Proto
  import opened Session

  method ListRefuseHangUp(a: Identity, b: Identity, passphrase: string)
  {
    var client := new Client([Frame(IdentitiesAnswer([a, b])), Frame(Failure)]);
    var listed := client.RequestIdentities();
    assert listed == Ok([a, b]);
    var locked := client.Lock(passphrase);
    assert locked == Err(Unexpected());
    var unlocked := client.Unlock(passphrase);
    assert unlocked == Err(Proto(IO("server disconnected")));
    assert client.State() == Wire([Request.RequestIdentities, Request.Lock(passphrase), Request.Unlock(passphrase)], []);
  }
}
