/**
 One tunneled TCP stream: the connection task at each end, the two message
 queues between them, and what was read from and written to the sockets.
 */
module TunnelStream {
  import opened Prelude

  type Byte = b: int | 0 <= b < 256

  type Bytes = seq<Byte>

  /** A message about the stream; a payload that is not base64 decodes to `None`. */
  datatype Message = Open | Data(payload: Option<Bytes>) | Close

  datatype Command = Write(bytes: Bytes) | Shut(notifyPeer: bool)

  /** A task runs its loop, has left it, has removed its route, is done. */
  datatype Phase = Running | Leaving(notify: bool) | Unrouted(notify: bool) | Done

  datatype Task = Task(commands: seq<Command>, phase: Phase)

  /**
   One end of the stream. `dropped` are bytes that arrived while there was no
   task to take them, `closes` counts the emitted Close messages, `byPeer` says
   that its task left the loop on the peer's Close, `closeIn` that one arrived.
   */
  datatype Side = Side(
    task: Option<Task>,
    routed: bool,
    read: Bytes,
    written: Bytes,
    dropped: Bytes,
    closes: nat,
    byPeer: bool,
    closeIn: bool)

  /** A queue of messages to the other end; once it is down, nothing passes any more. */
  datatype Link = Link(queue: seq<Message>, up: bool)
  {
    function Emit(m: Message): Link {
      if up then this.(queue := queue + [m]) else this
    }
  }

  /** `down` leads from the opening side to the accepting side. */
  datatype Stream = Stream(
    opener: Side,
    acceptor: Side,
    down: Link,
    up: Link,
    announced: bool,
    attaching: bool,
    openIn: bool,
    refused: bool)

  function NoSide(): Side {
    Side(None, false, [], [], [], 0, false, false)
  }

  function Unused(down: Link, up: Link): Stream {
    Stream(NoSide(), NoSide(), down, up, false, false, false, false)
  }

  // ------------------------------------------------------------------ steps of one end

  function Attached(s: Side): Side {
    s.(task := Some(Task([], Running)), routed := true)
  }

  predicate Runs(s: Side) {
    s.task.Some? && s.task.value.phase.Running?
  }

  function InPhase(s: Side, phase: Phase): Side
    requires s.task.Some?
  {
    s.(task := Some(s.task.value.(phase := phase)))
  }

  function Queued(s: Side, c: Command): Side
    requires s.task.Some?
  {
    s.(task := Some(s.task.value.(commands := s.task.value.commands + [c])))
  }

  /** Data for a routed stream is queued for its task; without a task it is lost. */
  function TakeData(s: Side, bytes: Bytes): Side {
    if s.routed && s.task.Some? then Queued(s, Write(bytes))
    else if s.task.None? then s.(dropped := s.dropped + bytes)
    else s
  }

  /** The peer's Close takes the route away and tells its task not to answer. */
  function TakeClose(s: Side): Side {
    if s.routed && s.task.Some? then Queued(s, Shut(false)).(routed := false, closeIn := true)
    else s.(routed := false, closeIn := true)
  }

  /** A chunk is read from the socket and sent; a link that is down ends its loop silently. */
  function ReadChunk(s: Side, link: Link, bytes: Bytes): (Side, Link)
    requires Runs(s)
  {
    var t := s.(read := s.read + bytes);
    if link.up then (t, link.Emit(Data(Some(bytes)))) else (InPhase(t, Leaving(false)), link)
  }

  /** The next command; a failing write may have written a part of its bytes. */
  function RunCommand(s: Side, ok: bool, part: nat): Side
    requires Runs(s) && s.task.value.commands != []
  {
    var rest := s.(task := Some(Task(s.task.value.commands[1..], Running)));
    match s.task.value.commands[0]
    case Write(bytes) =>
      if ok then rest.(written := s.written + bytes)
      else InPhase(rest.(written := s.written + bytes[..if part <= |bytes| then part else |bytes|]), Leaving(true))
    case Shut(notify) => InPhase(rest.(byPeer := true), Leaving(notify))
  }

  function RemoveRoute(s: Side): Side
    requires s.task.Some? && s.task.value.phase.Leaving?
  {
    InPhase(s, Unrouted(s.task.value.phase.notify)).(routed := false)
  }

  function Finish(s: Side, link: Link): (Side, Link)
    requires s.task.Some? && s.task.value.phase.Unrouted?
  {
    if s.task.value.phase.notify && link.up then (InPhase(s, Done).(closes := s.closes + 1), link.Emit(Close))
    else (InPhase(s, Done), link)
  }

  /** What a task may do next: its loop has three branches, and three statements follow it. */
  datatype TaskStep =
    | Read(bytes: Bytes)
    | Command(ok: bool, part: nat)
    | Leave
    | HangUp
    | Unroute
    | Notify

  predicate TaskCan(s: Side, step: TaskStep) {
    && s.task.Some?
    && match step
       case Read(bytes) => Runs(s) && bytes != []
       case Command(_, _) => Runs(s) && s.task.value.commands != []
       case Leave => Runs(s)
       case HangUp => Runs(s) && s.task.value.commands == [] && !s.routed
       case Unroute => s.task.value.phase.Leaving?
       case Notify => s.task.value.phase.Unrouted?
  }

  /** `link` is the outgoing one. */
  function TaskAfter(s: Side, link: Link, step: TaskStep): (Side, Link)
    requires TaskCan(s, step)
  {
    match step
    case Read(bytes) => ReadChunk(s, link, bytes)
    case Command(ok, part) => (RunCommand(s, ok, part), link)
    case Leave => (InPhase(s, Leaving(true)), link)
    case HangUp => (InPhase(s, Leaving(false)), link)
    case Unroute => (RemoveRoute(s), link)
    case Notify => Finish(s, link)
  }

  // ------------------------------------------------------------------ steps of the stream

  datatype End = Opener | Acceptor

  datatype Step =
    | Allocate
    | Attach
    | ToAcceptor(connected: bool)
    | ToOpener
    | Act(end: End, step: TaskStep)
    | Break(end: End)

  predicate Enabled(s: Stream, step: Step) {
    match step
    case Allocate => !s.announced
    case Attach => s.attaching
    case ToAcceptor(_) => s.down.queue != []
    case ToOpener => s.up.queue != []
    case Act(Opener, t) => TaskCan(s.opener, t)
    case Act(Acceptor, t) => TaskCan(s.acceptor, t)
    case Break(_) => true
  }

  function Receive(s: Side, link: Link, m: Message): (Side, Link) {
    match m
    case Open => (s, link)
    case Data(Some(bytes)) => (TakeData(s, bytes), link)
    case Data(None) => (if link.up then s.(closes := s.closes + 1) else s, link.Emit(Close))
    case Close => (TakeClose(s), link)
  }

  function ReceiveAtAcceptor(s: Stream, connected: bool): Stream
    requires s.down.queue != []
  {
    var m, down := s.down.queue[0], s.down.(queue := s.down.queue[1..]);
    if m.Open? then
      if connected then s.(down := down, openIn := true, acceptor := Attached(s.acceptor))
      else
        s.(down := down, openIn := true, refused := true, up := s.up.Emit(Close),
           acceptor := if s.up.up then s.acceptor.(closes := s.acceptor.closes + 1) else s.acceptor)
    else
      var (side, up) := Receive(s.acceptor, s.up, m);
      s.(down := down, up := up, acceptor := side)
  }

  function After(s: Stream, step: Step): Stream
    requires Enabled(s, step)
  {
    match step
    case Allocate => s.(announced := true, attaching := s.down.up, down := s.down.Emit(Open))
    case Attach => s.(attaching := false, opener := Attached(s.opener))
    case ToAcceptor(connected) => ReceiveAtAcceptor(s, connected)
    case ToOpener =>
      var (side, down) := Receive(s.opener, s.down, s.up.queue[0]);
      s.(up := s.up.(queue := s.up.queue[1..]), down := down, opener := side)
    case Act(Opener, t) =>
      var (side, link) := TaskAfter(s.opener, s.down, t);
      s.(opener := side, down := link)
    case Act(Acceptor, t) =>
      var (side, link) := TaskAfter(s.acceptor, s.up, t);
      s.(acceptor := side, up := link)
    case Break(Opener) => s.(down := Link([], false))
    case Break(Acceptor) => s.(up := Link([], false))
  }

  predicate Possible(s: Stream, steps: seq<Step>)
    decreases |steps|
  {
    steps == [] || (Enabled(s, steps[0]) && Possible(After(s, steps[0]), steps[1..]))
  }

  function Run(s: Stream, steps: seq<Step>): Stream
    requires Possible(s, steps)
    decreases |steps|
  {
    if steps == [] then s else Run(After(s, steps[0]), steps[1..])
  }
}
