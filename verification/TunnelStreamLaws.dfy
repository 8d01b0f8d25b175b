/** What arrives at the far end of a stream, in every interleaving of its two ends. */
module TunnelStreamLaws {
  import opened Prelude
  import opened TunnelStream

  // ------------------------------------------------------------------ queues

  /** How far a receiver has got with the messages of a stream. */
  datatype Stage = Fresh | Flowing | Ended | Broken

  function Advance(stage: Stage, m: Message): Stage {
    match m
    case Open => if stage.Fresh? then Flowing else Broken
    case Data(payload) => if stage.Flowing? && payload.Some? then Flowing else Broken
    case Close => if stage.Flowing? then Ended else Broken
  }

  function Reach(stage: Stage, queue: seq<Message>): Stage
    decreases |queue|
  {
    if queue == [] then stage else Reach(Advance(stage, queue[0]), queue[1..])
  }

  function Payload(m: Message): Bytes {
    if m.Data? && m.payload.Some? then m.payload.value else []
  }

  /** The bytes on their way in a queue. */
  function InFlight(queue: seq<Message>): Bytes {
    if queue == [] then [] else Payload(queue[0]) + InFlight(queue[1..])
  }

  /** The bytes queued for a task. */
  function Writes(commands: seq<Command>): Bytes {
    if commands == [] then []
    else (if commands[0].Write? then commands[0].bytes else []) + Writes(commands[1..])
  }

  predicate HasShut(commands: seq<Command>) {
    exists i :: 0 <= i < |commands| && commands[i].Shut?
  }

  lemma {:induction false} ReachAppend(stage: Stage, queue: seq<Message>, m: Message)
    ensures Reach(stage, queue + [m]) == Advance(Reach(stage, queue), m)
    decreases |queue|
  {
    if queue == [] {
      assert queue + [m] == [m];
    } else {
      assert (queue + [m])[1..] == queue[1..] + [m];
      ReachAppend(Advance(stage, queue[0]), queue[1..], m);
    }
  }

  lemma {:induction false} InFlightAppend(queue: seq<Message>, m: Message)
    ensures InFlight(queue + [m]) == InFlight(queue) + Payload(m)
  {
    if queue == [] {
      assert queue + [m] == [m];
    } else {
      assert (queue + [m])[1..] == queue[1..] + [m];
      InFlightAppend(queue[1..], m);
    }
  }

  lemma {:induction false} WritesAppend(commands: seq<Command>, c: Command)
    ensures Writes(commands + [c]) == Writes(commands) + (if c.Write? then c.bytes else [])
  {
    if commands == [] {
      assert commands + [c] == [c];
    } else {
      assert (commands + [c])[1..] == commands[1..] + [c];
      WritesAppend(commands[1..], c);
    }
  }

  /** Once a stream has ended or gone wrong, no further message is in order. */
  lemma {:induction false} EndedStays(stage: Stage, queue: seq<Message>)
    requires stage.Ended? && !Reach(stage, queue).Broken?
    ensures queue == []
  {
    if queue != [] {
      BrokenStays(Advance(stage, queue[0]), queue[1..]);
    }
  }

  lemma {:induction false} BrokenStays(stage: Stage, queue: seq<Message>)
    requires stage.Broken?
    ensures Reach(stage, queue).Broken?
    decreases |queue|
  {
    if queue != [] {
      BrokenStays(Advance(stage, queue[0]), queue[1..]);
    }
  }

  // ------------------------------------------------------------------ invariant of one end

  /** A task is running, routed unless the peer's Close came, and closes at most once, never on the peer's Close. */
  predicate SideInv(s: Side) {
    match s.task
    case None => !s.routed && s.read == [] && s.written == [] && !s.byPeer
    case Some(t) =>
      && s.closes <= 1
      && (s.routed ==> t.phase.Running? || t.phase.Leaving?)
      && (t.phase.Running? && !s.routed ==> s.closeIn)
      && (!t.phase.Done? ==> s.closes == 0)
      && (s.byPeer ==> s.closeIn && s.closes == 0 && (t.phase.Done? || (!t.phase.Running? && !t.phase.notify)))
      && (t.phase.Running? ==>
           && (forall i :: 0 <= i < |t.commands| && t.commands[i].Shut? ==>
                t.commands[i] == Shut(false) && i == |t.commands| - 1)
           && (HasShut(t.commands) ==> s.closeIn && !s.routed)
           && (!s.routed ==> HasShut(t.commands)))
  }

  /** How the bytes read at one end relate to those dropped, written, queued and in flight at the other. */
  predicate Flow(read: Bytes, to: Side, link: Link) {
    match to.task
    case None => to.written == [] && to.dropped <= read && (link.up ==> to.dropped + InFlight(link.queue) == read)
    case Some(t) =>
      var had := to.dropped + to.written;
      if t.phase.Running? then
        var due := had + Writes(t.commands);
        if HasShut(t.commands) then due == read
        else due <= read && (link.up ==> due + InFlight(link.queue) == read)
      else had <= read && (to.byPeer ==> had == read)
  }

  /** What an end has sent agrees with what the other end has received and still has to receive. */
  predicate InOrder(link: Link, received: Stage, sent: Stage) {
    if link.up then Reach(received, link.queue) == sent else link.queue == []
  }

  function Received(begun: bool, closed: bool): Stage {
    if closed then Ended else if begun then Flowing else Fresh
  }

  function Sent(begun: bool, closes: nat): Stage {
    if closes > 0 then Ended else if begun then Flowing else Fresh
  }

  /**
   A task that leaves without a notice does so on the peer's Close, or because nothing can be sent; one that is
   done has sent its Close otherwise.
   */
  predicate NoticeInv(s: Side, out: Link) {
    s.task.Some? ==>
      match s.task.value.phase
      case Running => true
      case Leaving(notify) => notify || s.closeIn || !out.up
      case Unrouted(notify) => notify || s.closeIn || !out.up
      case Done => s.closeIn || !out.up || s.closes == 1
  }

  predicate Blank(s: Stream) {
    s == Unused(s.down, s.up)
  }

  predicate StreamInv(s: Stream) {
    && SideInv(s.opener) && SideInv(s.acceptor)
    && NoticeInv(s.opener, s.down) && NoticeInv(s.acceptor, s.up)
    && (!s.announced ==> Blank(s) && s.down.queue == [] && s.up.queue == [])
    && (s.attaching ==> s.opener.task.None?)
    && (s.opener.task.None? ==> s.opener.closes == 0)
    && (s.acceptor.task.Some? ==> s.openIn && !s.refused && s.acceptor.dropped == [])
    && (s.acceptor.task.None? ==> s.acceptor.closes <= 1)
    && (s.refused ==> s.openIn && (s.up.up ==> s.acceptor.closes == 1))
    && (s.acceptor.closes == 1 && s.acceptor.task.None? ==> s.refused)
    && (!s.openIn ==> s.acceptor.task.None? && s.acceptor.dropped == [] && !s.acceptor.closeIn)
    // Opener to acceptor.
    && InOrder(s.down, Received(s.openIn, s.acceptor.closeIn), Sent(s.announced, s.opener.closes))
    && (s.acceptor.closeIn ==> s.opener.closes == 1)
    && Flow(s.opener.read, s.acceptor, s.down)
    // Acceptor to opener.
    && InOrder(s.up, Received(true, s.opener.closeIn), Sent(true, s.acceptor.closes))
    && (s.opener.closeIn ==> s.acceptor.closes == 1)
    && Flow(s.acceptor.read, s.opener, s.up)
  }

  // ------------------------------------------------------------------ preservation

  lemma AllocateKeeps(s: Stream)
    requires StreamInv(s) && Enabled(s, Allocate)
    ensures StreamInv(After(s, Allocate))
  {
    ReachAppend(Fresh, s.down.queue, Open);
    InFlightAppend(s.down.queue, Open);
  }

  lemma AttachFlows(read: Bytes, to: Side, link: Link)
    requires to.task.None? && SideInv(to) && Flow(read, to, link)
    ensures Flow(read, Attached(to), link)
  {
    assert to.dropped + to.written + Writes([]) == to.dropped;
  }

  lemma AttachKeeps(s: Stream)
    requires StreamInv(s) && Enabled(s, Attach)
    ensures StreamInv(After(s, Attach))
  {
    if s.opener.closeIn && s.up.up {
      EndedStays(Ended, s.up.queue);
    }
    AttachFlows(s.acceptor.read, s.opener, s.up);
  }

  // A delivery at either end.

  lemma DataArrives(read: Bytes, to: Side, link: Link, bytes: Bytes)
    requires SideInv(to) && Flow(read, to, link)
    requires link.up && link.queue != [] && link.queue[0] == Data(Some(bytes))
    requires to.task.Some? && to.task.value.phase.Running? ==> to.routed
    ensures SideInv(TakeData(to, bytes))
    ensures Flow(read, TakeData(to, bytes), link.(queue := link.queue[1..]))
  {
    var rest := InFlight(link.queue[1..]);
    assert InFlight(link.queue) == bytes + rest;
    match to.task
    case None =>
      assert to.dropped + (bytes + rest) == (to.dropped + bytes) + rest;
    case Some(t) =>
      if t.phase.Running? {
        var had := to.dropped + to.written;
        WritesAppend(t.commands, Write(bytes));
        var longer := t.commands + [Write(bytes)];
        assert !HasShut(t.commands);
        assert forall i :: 0 <= i < |longer| ==> !longer[i].Shut?;
        assert had + Writes(longer) == (had + Writes(t.commands)) + bytes;
        assert (had + Writes(t.commands)) + (bytes + rest) == (had + Writes(longer)) + rest;
      }
  }

  lemma CloseArrives(read: Bytes, to: Side, link: Link)
    requires SideInv(to) && Flow(read, to, link) && !to.closeIn
    requires link.up && link.queue == [Close]
    ensures SideInv(TakeClose(to))
    ensures Flow(read, TakeClose(to), link.(queue := []))
  {
    assert InFlight(link.queue) == [];
    if to.task.Some? && to.task.value.phase.Running? {
      var t := to.task.value;
      WritesAppend(t.commands, Shut(false));
      var longer := t.commands + [Shut(false)];
      assert longer[|longer| - 1].Shut?;
      assert !HasShut(t.commands);
      assert to.dropped + to.written + Writes(longer) == to.dropped + to.written + Writes(t.commands);
    }
  }

  /** The next message in a queue of a stream that has begun: data or the end, in order. */
  lemma Arrival(read: Bytes, to: Side, link: Link, back: Link, sent: Stage)
    requires SideInv(to) && Flow(read, to, link) && link.queue != []
    requires InOrder(link, Received(true, to.closeIn), sent) && !sent.Broken?
    requires !link.queue[0].Open?
    ensures !to.closeIn && (link.queue[0].Close? || link.queue[0].payload.Some?)
    ensures link.queue[0].Close? ==> sent.Ended?
    ensures var (next, answer) := Receive(to, back, link.queue[0]);
      var rest := link.(queue := link.queue[1..]);
      && answer == back && SideInv(next) && Flow(read, next, rest)
      && InOrder(rest, Received(true, next.closeIn), sent)
      && next == next.(read := to.read, closes := to.closes)
      && next.task.Some? == to.task.Some?
      && (to.task.Some? ==> next.dropped == to.dropped)
  {
    var m := link.queue[0];
    var stage := Advance(Received(true, to.closeIn), m);
    if stage.Broken? {
      BrokenStays(stage, link.queue[1..]);
    }
    match m
    case Data(Some(bytes)) => DataArrives(read, to, link, bytes);
    case Close =>
      EndedStays(Ended, link.queue[1..]);
      assert link.queue == [Close];
      CloseArrives(read, to, link);
  }

  lemma OpenArrives(s: Stream, connected: bool)
    requires StreamInv(s) && s.down.queue != [] && s.down.queue[0].Open?
    ensures StreamInv(ReceiveAtAcceptor(s, connected)) && !s.openIn
  {
    var stage := Advance(Received(s.openIn, s.acceptor.closeIn), Open);
    if stage.Broken? {
      BrokenStays(stage, s.down.queue[1..]);
    }
    assert InFlight(s.down.queue) == InFlight(s.down.queue[1..]);
    if !connected && s.up.up {
      ReachAppend(Received(true, s.opener.closeIn), s.up.queue, Close);
      InFlightAppend(s.up.queue, Close);
    }
  }

  lemma ToAcceptorKeeps(s: Stream, connected: bool)
    requires StreamInv(s) && Enabled(s, ToAcceptor(connected))
    ensures StreamInv(After(s, ToAcceptor(connected)))
    ensures !s.openIn <==> s.down.queue[0].Open?
    ensures s.down.queue[0].Data? ==> s.down.queue[0].payload.Some?
  {
    var m := s.down.queue[0];
    if m.Open? {
      OpenArrives(s, connected);
    } else {
      if !s.openIn {
        BrokenStays(Advance(Fresh, m), s.down.queue[1..]);
      }
      Arrival(s.opener.read, s.acceptor, s.down, s.up, Sent(s.announced, s.opener.closes));
    }
  }

  lemma ToOpenerKeeps(s: Stream)
    requires StreamInv(s) && Enabled(s, ToOpener)
    ensures StreamInv(After(s, ToOpener))
    ensures !s.up.queue[0].Open? && (s.up.queue[0].Data? ==> s.up.queue[0].payload.Some?)
  {
    if s.up.queue[0].Open? {
      BrokenStays(Advance(Received(true, s.opener.closeIn), Open), s.up.queue[1..]);
    }
    Arrival(s.acceptor.read, s.opener, s.up, s.down, Sent(true, s.acceptor.closes));
  }

  // A step of a task.

  lemma ReadFlows(from: Side, to: Side, link: Link, bytes: Bytes)
    requires Flow(from.read, to, link) && Runs(from) && !to.closeIn && SideInv(to)
    ensures var (next, after) := ReadChunk(from, link, bytes); Flow(next.read, to, after)
  {
    InFlightAppend(link.queue, Data(Some(bytes)));
    var before := InFlight(link.queue);
    match to.task
    case None =>
      assert to.dropped + (before + bytes) == (to.dropped + before) + bytes;
    case Some(t) =>
      if t.phase.Running? {
        var due := to.dropped + to.written + Writes(t.commands);
        assert due + (before + bytes) == (due + before) + bytes;
      }
  }

  /** Leaving the loop freezes what was written. */
  lemma LeavingFlows(read: Bytes, s: Side, link: Link, notify: bool)
    requires SideInv(s) && Flow(read, s, link) && Runs(s)
    ensures SideInv(InPhase(s, Leaving(notify))) && Flow(read, InPhase(s, Leaving(notify)), link)
  {
  }

  lemma ReadKeepsSide(s: Side, read: Bytes, link: Link, out: Link, bytes: Bytes)
    requires SideInv(s) && Flow(read, s, link) && Runs(s)
    ensures var next := ReadChunk(s, out, bytes).0; SideInv(next) && Flow(read, next, link)
    ensures ReadChunk(s, out, bytes).0.closes == s.closes && ReadChunk(s, out, bytes).0.closeIn == s.closeIn
  {
    LeavingFlows(read, s, link, false);
  }

  lemma CommandKeepsSide(s: Side, read: Bytes, link: Link, ok: bool, part: nat)
    requires SideInv(s) && Flow(read, s, link) && Runs(s) && s.task.value.commands != []
    ensures SideInv(RunCommand(s, ok, part)) && Flow(read, RunCommand(s, ok, part), link)
  {
    var commands := s.task.value.commands;
    var rest := commands[1..];
    assert forall i :: 0 <= i < |rest| ==> rest[i] == commands[i + 1];
    assert HasShut(rest) ==> HasShut(commands);
    if commands[0].Write? {
      var bytes := commands[0].bytes;
      assert HasShut(commands) ==> HasShut(rest) by {
        if HasShut(commands) {
          var i :| 0 <= i < |commands| && commands[i].Shut?;
          assert rest[i - 1].Shut?;
        }
      }
      assert s.dropped + s.written + (bytes + Writes(rest)) == s.dropped + (s.written + bytes) + Writes(rest);
      if !ok {
        var cut := if part <= |bytes| then part else |bytes|;
        var due := s.dropped + s.written + Writes(commands);
        assert s.dropped + (s.written + bytes[..cut]) <= due;
      }
    } else {
      assert commands == [Shut(false)];
      assert Writes(commands) == [];
      assert HasShut(commands);
    }
  }

  lemma FinishKeepsSide(s: Side, read: Bytes, link: Link, out: Link)
    requires SideInv(s) && Flow(read, s, link) && s.task.Some? && s.task.value.phase.Unrouted?
    ensures var (next, after) := Finish(s, out);
      && SideInv(next) && Flow(read, next, link)
      && after.up == out.up
  {
  }

  /** What the close adds to a queue that was flowing. */
  lemma FinishInOrder(s: Side, out: Link, received: Stage, begun: bool, to: Side)
    requires SideInv(s) && s.task.Some? && s.task.value.phase.Unrouted? && begun
    requires InOrder(out, received, Sent(begun, s.closes)) && Flow(s.read, to, out)
    ensures var (next, after) := Finish(s, out);
      InOrder(after, received, Sent(begun, next.closes)) && Flow(next.read, to, after)
  {
    ReachAppend(received, out.queue, Close);
    InFlightAppend(out.queue, Close);
    assert InFlight(out.queue) + [] == InFlight(out.queue);
  }

  lemma TaskKeepsNotice(s: Side, out: Link, t: TaskStep)
    requires TaskCan(s, t) && SideInv(s) && NoticeInv(s, out)
    ensures var (next, link) := TaskAfter(s, out, t); NoticeInv(next, link) && link.up == out.up
  {
    if t.Command? && s.task.value.commands[0].Shut? {
      assert HasShut(s.task.value.commands);
    }
  }

  /** A task's step keeps its own end and both directions of the stream. */
  lemma TaskKeeps(from: Side, to: Side, out: Link, back: Link, received: Stage, begun: bool, t: TaskStep)
    requires TaskCan(from, t) && SideInv(from) && SideInv(to) && begun && NoticeInv(from, out)
    requires Flow(to.read, from, back) && Flow(from.read, to, out)
    requires InOrder(out, received, Sent(begun, from.closes))
    requires to.closeIn ==> from.closes == 1
    ensures var (next, link) := TaskAfter(from, out, t);
      && SideInv(next) && Flow(to.read, next, back) && Flow(next.read, to, link)
      && InOrder(link, received, Sent(begun, next.closes))
      && (to.closeIn ==> next.closes == 1)
      && next.closeIn == from.closeIn && next.dropped == from.dropped && next.task.Some?
      && NoticeInv(next, link) && link.up == out.up
  {
    TaskKeepsNotice(from, out, t);
    match t
    case Read(bytes) =>
      ReadKeepsSide(from, to.read, back, out, bytes);
      ReadFlows(from, to, out, bytes);
      ReachAppend(received, out.queue, Data(Some(bytes)));
    case Command(ok, part) => CommandKeepsSide(from, to.read, back, ok, part);
    case Leave => LeavingFlows(to.read, from, back, true);
    case HangUp => LeavingFlows(to.read, from, back, false);
    case Unroute =>
    case Notify =>
      FinishKeepsSide(from, to.read, back, out);
      FinishInOrder(from, out, received, begun, to);
  }

  lemma OpenerTaskKeeps(s: Stream, t: TaskStep)
    requires StreamInv(s) && TaskCan(s.opener, t)
    ensures StreamInv(After(s, Act(Opener, t)))
  {
    TaskKeeps(s.opener, s.acceptor, s.down, s.up, Received(s.openIn, s.acceptor.closeIn), s.announced, t);
  }

  lemma AcceptorTaskKeeps(s: Stream, t: TaskStep)
    requires StreamInv(s) && TaskCan(s.acceptor, t)
    ensures StreamInv(After(s, Act(Acceptor, t)))
  {
    TaskKeeps(s.acceptor, s.opener, s.up, s.down, Received(true, s.opener.closeIn), true, t);
  }

  /** When a link goes down, what was in flight is lost and the rest is a prefix. */
  lemma BreakFlows(read: Bytes, to: Side, link: Link)
    requires Flow(read, to, link)
    ensures Flow(read, to, Link([], false))
  {
  }

  /** Every step of either end keeps the invariant of the stream. */
  lemma StepKeepsInv(s: Stream, step: Step)
    requires StreamInv(s) && Enabled(s, step)
    ensures StreamInv(After(s, step))
  {
    match step
    case Allocate => AllocateKeeps(s);
    case Attach => AttachKeeps(s);
    case ToAcceptor(connected) => ToAcceptorKeeps(s, connected);
    case ToOpener => ToOpenerKeeps(s);
    case Break(Opener) => BreakFlows(s.opener.read, s.acceptor, s.down);
    case Break(Acceptor) => BreakFlows(s.acceptor.read, s.opener, s.up);
    case Act(Opener, t) => OpenerTaskKeeps(s, t);
    case Act(Acceptor, t) => AcceptorTaskKeeps(s, t);
  }

  // ------------------------------------------------------------------ what the invariant means

  /** What the accepting side has written is a prefix of what the opening side has read. */
  lemma AcceptorWritesPrefix(s: Stream)
    requires StreamInv(s)
    ensures s.acceptor.written <= s.opener.read
    ensures s.acceptor.byPeer ==> s.acceptor.written == s.opener.read
  {
    assert [] + s.acceptor.written == s.acceptor.written;
  }

  /** In the other direction the bytes that came before the opener's route was in place are missing. */
  lemma OpenerWritesPrefix(s: Stream)
    requires StreamInv(s)
    ensures s.opener.dropped + s.opener.written <= s.acceptor.read
    ensures s.opener.byPeer ==> s.opener.dropped + s.opener.written == s.acceptor.read
  {
    assert s.opener.dropped + [] == s.opener.dropped;
  }

  /** An end closes a stream at most once, and never in answer to the peer's Close. */
  lemma ClosesOnce(s: Stream)
    requires StreamInv(s)
    ensures s.opener.closes <= 1 && s.acceptor.closes <= 1
    ensures s.opener.byPeer ==> s.opener.closes == 0
    ensures s.acceptor.byPeer ==> s.acceptor.closes == 0
  {
  }

  /** A task that is done has told the peer, unless the peer's Close had come or nothing can be sent any more. */
  predicate ToldPeer(s: Side, up: bool) {
    s.task.Some? && s.task.value.phase.Done? && up && !s.closeIn ==> s.closes == 1
  }

  lemma DoneHasTold(s: Stream)
    requires StreamInv(s)
    ensures ToldPeer(s.opener, s.down.up) && ToldPeer(s.acceptor, s.up.up)
    ensures s.refused && s.up.up ==> s.acceptor.closes == 1
  {
  }

  // ------------------------------------------------------------------ the opener's late route

  /** The Close came before the route, and the opener's task, if it runs, knows nothing of it. */
  predicate ClosedEarly(s: Side) {
    s.closeIn && !s.byPeer && (Runs(s) ==> s.routed)
  }

  /** The Close came to a task, and took its route away. */
  predicate ClosedInTime(s: Side) {
    s.closeIn && s.task.Some? && !s.routed
  }

  predicate Closed(s: Side, early: bool) {
    if early then ClosedEarly(s) else ClosedInTime(s)
  }

  /** Nothing follows a Close. */
  lemma NothingFollowsClose(s: Stream)
    requires StreamInv(s) && s.opener.closeIn
    ensures s.up.queue == []
  {
    if s.up.up {
      EndedStays(Ended, s.up.queue);
    }
  }

  lemma TaskKeepsClosed(s: Side, link: Link, t: TaskStep, early: bool)
    requires SideInv(s) && TaskCan(s, t) && Closed(s, early)
    ensures Closed(TaskAfter(s, link, t).0, early)
  {
    if t.Command? && s.task.value.commands[0].Shut? {
      assert HasShut(s.task.value.commands);
    }
  }

  /** How the Close was received never changes. */
  lemma StepKeepsClosed(s: Stream, step: Step, early: bool)
    requires StreamInv(s) && Enabled(s, step) && Closed(s.opener, early)
    ensures Closed(After(s, step).opener, early)
  {
    NothingFollowsClose(s);
    match step
    case Allocate =>
    case Attach =>
    case ToAcceptor(connected) =>
    case ToOpener =>
    case Act(Opener, t) => TaskKeepsClosed(s.opener, s.down, t, early);
    case Act(Acceptor, t) =>
    case Break(_) =>
  }

  /** A running task has its end in its queue exactly when the Close came in time. */
  lemma ClosedTaskEnds(s: Side, early: bool)
    requires SideInv(s) && Closed(s, early)
    ensures Runs(s) ==> (HasShut(s.task.value.commands) <==> !early)
    ensures s.byPeer ==> !early
  {
  }


  const NEW: Stream := Unused(Link([], true), Link([], true))

  lemma {:induction false} Extend(s: Stream, steps: seq<Step>, step: Step)
    requires Possible(s, steps) && Enabled(Run(s, steps), step)
    ensures Possible(s, steps + [step]) && Run(s, steps + [step]) == After(Run(s, steps), step)
    decreases |steps|
  {
    if steps == [] {
      assert [] + [step] == [step] && [step][1..] == [];
    } else {
      assert (steps + [step])[1..] == steps[1..] + [step];
      Extend(After(s, steps[0]), steps[1..], step);
    }
  }

  /** The opening end announces a stream before it has a route for it, so an early answer is lost. */
  lemma EarlyDataIsLost(bytes: Bytes) returns (steps: seq<Step>)
    requires bytes != []
    ensures Possible(NEW, steps)
    ensures var s := Run(NEW, steps);
      && s.acceptor.read == bytes && s.up.queue == []
      && s.opener.task == Some(Task([], Running)) && s.opener.written == []
  {
    steps := [];
    Extend(NEW, steps, Allocate);
    steps := steps + [Allocate];
    Extend(NEW, steps, ToAcceptor(true));
    steps := steps + [ToAcceptor(true)];
    Extend(NEW, steps, Act(Acceptor, Read(bytes)));
    steps := steps + [Act(Acceptor, Read(bytes))];
    Extend(NEW, steps, ToOpener);
    steps := steps + [ToOpener];
    Extend(NEW, steps, Attach);
    steps := steps + [Attach];
  }

  /** A refusal that overtakes the route is lost too: the opener's task only ends when its own socket does. */
  lemma EarlyCloseIsLost() returns (steps: seq<Step>)
    ensures Possible(NEW, steps)
    ensures var s := Run(NEW, steps);
      && s.acceptor.closes == 1 && s.opener.closeIn && s.up.queue == []
      && s.opener.routed && s.opener.task == Some(Task([], Running))
  {
    steps := [];
    Extend(NEW, steps, Allocate);
    steps := steps + [Allocate];
    Extend(NEW, steps, ToAcceptor(false));
    steps := steps + [ToAcceptor(false)];
    Extend(NEW, steps, ToOpener);
    steps := steps + [ToOpener];
    Extend(NEW, steps, Attach);
    steps := steps + [Attach];
  }
}
