/**
 Turning a transport descriptor into the stream a client session wraps.

 Local sockets and TCP sockets are already open when they arrive; a named pipe
 must be opened here, and opening is retried for as long as the operating
 system reports the pipe busy. The operating system's answers to successive
 open attempts are given as a finite sequence, and the target platform as a
 flag.
 */
module Connect {
  import opened Proto

  /** An already connected local-domain socket. */
  type UnixStream(==)
  /** An already connected TCP socket. */
  type TcpStream(==)
  /** The path of a named pipe. */
  type PipeName(==)
  /** An open client end of a named pipe. */
  type PipeClient(==)

  /** The Windows system error code for "all pipe instances are busy". */
  const ERROR_PIPE_BUSY: int := 231

  /** The outcome of one attempt to open a named pipe. */
  datatype OpenOutcome = Opened(client: PipeClient) | Failed(osError: Option<int>)

  predicate IsBusy(o: OpenOutcome)
  {
    o.Failed? && o.osError == Some(ERROR_PIPE_BUSY)
  }

  /** A transport descriptor. */
  datatype Transport = Unix(unixStream: UnixStream) | Tcp(tcpStream: TcpStream) | NamedPipe(pipe: PipeName)

  /** The stream a new client session is built over. */
  datatype Connection = UnixSession(unixStream: UnixStream) | TcpSession(tcpStream: TcpStream) | PipeSession(client: PipeClient)

  /** Why no connection was made. */
  datatype ConnectError = Os(osError: Option<int>) | Protocol(error: ProtoError)

  /** The error a named pipe gets on a platform without named pipes. */
  const NamedPipesUnsupported: string := "Named pipes supported on Windows only"

  /**
   The index of the first attempt that is not turned away as busy: the
   attempt at which the retry loop stops.
   */
  function FirstSettled(outcomes: seq<OpenOutcome>): (k: nat)
    requires exists i :: 0 <= i < |outcomes| && !IsBusy(outcomes[i])
    ensures k < |outcomes| && !IsBusy(outcomes[k])
    ensures forall i :: 0 <= i < k ==> IsBusy(outcomes[i])
    decreases |outcomes|
  {
    if !IsBusy(outcomes[0]) then 0
    else
      var j :| 0 <= j < |outcomes| && !IsBusy(outcomes[j]);
      assert outcomes[1..][j - 1] == outcomes[j];
      1 + FirstSettled(outcomes[1..])
  }

  /**
   When the first `n` attempts are busy and attempt `n` is not, the loop stops
   after exactly `n` retries, at attempt `n`.
   */
  lemma RetriesBeforeSettling(outcomes: seq<OpenOutcome>, n: nat)
    requires n < |outcomes| && !IsBusy(outcomes[n])
    requires forall i :: 0 <= i < n ==> IsBusy(outcomes[i])
    ensures FirstSettled(outcomes) == n
  {
  }

  /**
   The named-pipe open loop: retry while the pipe is busy, give up on any
   other error, stop at the first successful open. `attempts` counts the
   attempts made, so `attempts - 1` is the number of retries.
   */
  method OpenNamedPipe(outcomes: seq<OpenOutcome>) returns (r: Result<PipeClient, ConnectError>, attempts: nat)
    requires exists i :: 0 <= i < |outcomes| && !IsBusy(outcomes[i])
    ensures 0 < attempts <= |outcomes|
    ensures forall i :: 0 <= i < attempts - 1 ==> IsBusy(outcomes[i])
    ensures !IsBusy(outcomes[attempts - 1])
    ensures attempts == FirstSettled(outcomes) + 1
    ensures r.Ok? <==> outcomes[attempts - 1].Opened?
    ensures r.Ok? ==> r.value == outcomes[attempts - 1].client
    ensures r.Err? ==> r.error == Os(outcomes[attempts - 1].osError)
  {
    var i := 0;
    while true
      invariant 0 <= i <= |outcomes|
      invariant forall j :: 0 <= j < i ==> IsBusy(outcomes[j])
      invariant exists j :: i <= j < |outcomes| && !IsBusy(outcomes[j])
      decreases |outcomes| - i
    {
      var o := outcomes[i];
      attempts := i + 1;
      match o {
        case Opened(client) =>
          RetriesBeforeSettling(outcomes, i);
          return Ok(client), attempts;
        case Failed(code) =>
          if code != Some(ERROR_PIPE_BUSY) {
            RetriesBeforeSettling(outcomes, i);
            return Err(Os(code)), attempts;
          }
      }
      // the source sleeps 50 ms here before the next attempt
      i := i + 1;
    }
  }

  /**
   `connect`: a socket is wrapped as it is; a named pipe is opened with the
   busy-retry loop on Windows and refused without any attempt elsewhere.
   Local-domain sockets exist only off Windows.
   */
  method Connect(transport: Transport, windows: bool, outcomes: seq<OpenOutcome>)
    returns (r: Result<Connection, ConnectError>, attempts: nat)
    requires transport.Unix? ==> !windows
    requires transport.NamedPipe? && windows ==> exists i :: 0 <= i < |outcomes| && !IsBusy(outcomes[i])
    ensures transport.Unix? ==> r == Ok(UnixSession(transport.unixStream)) && attempts == 0
    ensures transport.Tcp? ==> r == Ok(TcpSession(transport.tcpStream)) && attempts == 0
    ensures transport.NamedPipe? && !windows ==> r == Err(Protocol(IO(NamedPipesUnsupported))) && attempts == 0
    ensures transport.NamedPipe? && windows ==>
      && attempts == FirstSettled(outcomes) + 1
      && (r.Ok? <==> outcomes[attempts - 1].Opened?)
      && (r.Ok? ==> r.value == PipeSession(outcomes[attempts - 1].client))
      && (r.Err? ==> r.error == Os(outcomes[attempts - 1].osError))
  {
    match transport
    case Unix(stream) =>
      r, attempts := Ok(UnixSession(stream)), 0;
    case Tcp(stream) =>
      r, attempts := Ok(TcpSession(stream)), 0;
    case NamedPipe(_) =>
      if windows {
        var pipe;
        pipe, attempts := OpenNamedPipe(outcomes);
        match pipe
        case Ok(client) => r := Ok(PipeSession(client));
        case Err(e) => r := Err(e);
      } else {
        r, attempts := Err(Protocol(IO(NamedPipesUnsupported))), 0;
      }
  }
}
