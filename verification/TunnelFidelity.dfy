/**
 Two tunnel ends talking to each other. Seen through the messages and tasks
 of one id, every step of the pair is a step of that stream or leaves it alone.
 */
module TunnelFidelity {
  import opened Prelude
  import opened TunnelStream
  import opened TunnelStreamLaws
  import opened Tunnel

  datatype World = World(a: Endpoint, b: Endpoint)

  /** The current task of a stream, or one whose route has been handed on. */
  datatype Target = Current(id: Id) | Replaced(index: nat)

  datatype Action =
    | Accept
    | Attach
    | Take(connected: bool)
    | Move(target: Target, step: TaskStep)
    | StopListening
    | Break

  // ------------------------------------------------------------------ one end moves

  /** A task sends its messages about `id` on the queue of its end. */
  function Tagged(id: Id, messages: seq<Message>): seq<Packet> {
    seq(|messages|, i requires 0 <= i < |messages| => Packet(id, messages[i]))
  }

  function TaskMoves(e: Endpoint, target: Target, step: TaskStep): Endpoint
    requires CanMove(e, [], Move(target, step))
  {
    match target
    case Current(id) =>
      var (side, link) := TaskAfter(SideOf(e, id), Link([], e.up), step);
      PutSide(e.(queue := e.queue + Tagged(id, link.queue)), id, side)
    case Replaced(index) =>
      var orphan := e.orphans[index];
      var (side, link) := TaskAfter(orphan.side, Link([], e.up), step);
      var f := e.(queue := e.queue + Tagged(orphan.id, link.queue),
                  orphans := e.orphans[index := orphan.(side := side)]);
      // Removing the route by its id removes the one of the newer task.
      if step.Unroute? then PutSide(f, orphan.id, SideOf(f, orphan.id).(routed := false)) else f
  }

  predicate CanMove(e: Endpoint, incoming: seq<Packet>, action: Action) {
    match action
    case Accept => e.listening && e.opening.None?
    case Attach => e.opening.Some?
    case Take(_) => incoming != []
    case Move(Current(id), step) => TaskCan(SideOf(e, id), step)
    case Move(Replaced(index), step) => index < |e.orphans| && TaskCan(e.orphans[index].side, step)
    case StopListening => e.opening.None?
    case Break => true
  }

  function Moved(e: Endpoint, incoming: seq<Packet>, action: Action): Endpoint
    requires CanMove(e, incoming, action)
  {
    match action
    case Accept => AcceptConnection(e)
    case Attach => AttachStream(e, e.opening.value).(opening := None)
    case Take(connected) => OnMessage(e, incoming[0], connected)
    case Move(target, step) => TaskMoves(e, target, step)
    case StopListening => e.(listening := false)
    case Break => e.(queue := [], up := false)
  }

  /** The listener ends when it is told to, or when its Open cannot be sent, and for no other reason. */
  lemma ListenerEndsIff(e: Endpoint, incoming: seq<Packet>, action: Action)
    requires CanMove(e, incoming, action) && e.listening
    ensures Moved(e, incoming, action).listening <==> !(action.StopListening? || (action.Accept? && !e.up))
    ensures action.Accept? ==> (Moved(e, incoming, action).opening.Some? <==> e.up)
  {
  }

  /** A message that cannot be served is answered with a Close: an Open that is refused, and unreadable data. */
  lemma AnsweredAtOnceIff(e: Endpoint, p: Packet, connected: bool)
    ensures var unserved := (p.message.Open? && !connected) || p.message == Data(None);
      OnMessage(e, p, connected).queue == e.queue + if unserved && e.up then [Packet(p.id, Close)] else []
  {
  }

  // ------------------------------------------------------------------ the pair

  datatype Step = Step(byA: bool, action: Action)

  predicate Enabled(w: World, step: Step) {
    if step.byA then CanMove(w.a, w.b.queue, step.action) else CanMove(w.b, w.a.queue, step.action)
  }

  function Consumed(e: Endpoint, action: Action): Endpoint
    requires action.Take? ==> e.queue != []
  {
    if action.Take? then e.(queue := e.queue[1..]) else e
  }

  function After(w: World, step: Step): World
    requires Enabled(w, step)
  {
    if step.byA then World(Moved(w.a, w.b.queue, step.action), Consumed(w.b, step.action))
    else World(Consumed(w.a, step.action), Moved(w.b, w.a.queue, step.action))
  }

  predicate Possible(w: World, steps: seq<Step>)
    decreases |steps|
  {
    steps == [] || (Enabled(w, steps[0]) && Possible(After(w, steps[0]), steps[1..]))
  }

  function Run(w: World, steps: seq<Step>): World
    requires Possible(w, steps)
    decreases |steps|
  {
    if steps == [] then w else Run(After(w, steps[0]), steps[1..])
  }

  function Start(bitA: bool, bitB: bool): World {
    World(NewEndpoint(bitA), NewEndpoint(bitB))
  }

  // ------------------------------------------------------------------ one stream of the pair

  /** The messages about `id`, in order. */
  function About(id: Id, queue: seq<Packet>): seq<Message> {
    if queue == [] then []
    else (if queue[0].id == id then [queue[0].message] else []) + About(id, queue[1..])
  }

  /** The stream `id` that `owner` opens and `other` accepts. */
  function StreamOf(owner: Endpoint, other: Endpoint, id: Id): Stream {
    Stream(SideOf(owner, id), SideOf(other, id),
      Link(About(id, owner.queue), owner.up), Link(About(id, other.queue), other.up),
      id in owner.announced, owner.opening == Some(id), id in other.openIn, id in other.refused)
  }

  /** The id lies in the half of the id space that the prefix bit names. */
  predicate Owns(bit: bool, id: Id) {
    bit <==> id >= BIT63
  }

  /** The position of an id in the order in which an end allocates. */
  function Index(id: Id): nat {
    (id - 1) % BIT63
  }

  lemma {:induction false} AboutAppend(id: Id, queue: seq<Packet>, more: seq<Packet>)
    ensures About(id, queue + more) == About(id, queue) + About(id, more)
  {
    if queue == [] {
      assert queue + more == more;
    } else {
      var first := if queue[0].id == id then [queue[0].message] else [];
      assert (queue + more)[0] == queue[0] && (queue + more)[1..] == queue[1..] + more;
      AboutAppend(id, queue[1..], more);
      assert first + (About(id, queue[1..]) + About(id, more)) == first + About(id, queue[1..]) + About(id, more);
    }
  }

  lemma {:induction false} AboutTagged(id: Id, x: Id, messages: seq<Message>)
    ensures About(x, Tagged(id, messages)) == if x == id then messages else []
  {
    if messages != [] {
      assert Tagged(id, messages)[1..] == Tagged(id, messages[1..]);
      AboutTagged(id, x, messages[1..]);
    }
  }

  // ------------------------------------------------------------------ invariant

  predicate EndInv(e: Endpoint) {
    && e.accepted <= BIT63
    && e.nextId == (1 + Prefix(e.prefix) + e.accepted) % U64_SIZE
    && (forall id <- e.announced :: Owns(e.prefix, id) && Index(id) < e.accepted)
    && (e.opening.Some? ==> e.opening.value in e.announced)
    && e.orphans == []
  }

  predicate StreamsOf(owner: Endpoint, other: Endpoint) {
    forall id: Id :: Owns(owner.prefix, id) ==> StreamInv(StreamOf(owner, other, id))
  }

  predicate PairInv(e: Endpoint, f: Endpoint) {
    && e.prefix != f.prefix
    && EndInv(e) && EndInv(f)
    && StreamsOf(e, f) && StreamsOf(f, e)
  }

  // ------------------------------------------------------------------ ids

  /** The k-th id of an end lies in its half, at position k. */
  lemma AllocatedIdIsNext(e: Endpoint)
    requires e.nextId == (1 + Prefix(e.prefix) + e.accepted) % U64_SIZE && e.accepted < BIT63
    ensures Owns(e.prefix, AllocatedId(e)) && Index(AllocatedId(e)) == e.accepted
    ensures CountUp(e).nextId == (1 + Prefix(e.prefix) + CountUp(e).accepted) % U64_SIZE
  {
  }

  // ------------------------------------------------------------------ what one stream sees of a move

  /** The step that a move of the opening end is in the stream `id`, if it is one. */
  function OpenerStep(e: Endpoint, other: Endpoint, action: Action, id: Id): Option<TunnelStream.Step>
    requires CanMove(e, other.queue, action)
  {
    match action
    case Accept => if id == AllocatedId(e) then Some(Allocate) else None
    case Attach => if e.opening == Some(id) then Some(TunnelStream.Attach) else None
    case Take(_) => if other.queue[0].id == id then Some(ToOpener) else None
    case Move(Current(i), t) => if i == id then Some(Act(Opener, t)) else None
    case Move(Replaced(_), _) => None
    case StopListening => None
    case Break => Some(TunnelStream.Break(Opener))
  }

  function AcceptorStep(e: Endpoint, other: Endpoint, action: Action, id: Id): Option<TunnelStream.Step>
    requires CanMove(e, other.queue, action)
  {
    match action
    case Accept | Attach | StopListening => None
    case Take(connected) => if other.queue[0].id == id then Some(ToAcceptor(connected)) else None
    case Move(Current(i), t) => if i == id then Some(Act(Acceptor, t)) else None
    case Move(Replaced(_), _) => None
    case Break => Some(TunnelStream.Break(Acceptor))
  }

  /** `after` is the stream after `step`, or the same stream when there is none. */
  predicate Follows(before: Stream, step: Option<TunnelStream.Step>, after: Stream) {
    match step
    case None => after == before
    case Some(t) => TunnelStream.Enabled(before, t) && after == TunnelStream.After(before, t)
  }

  /** What a task sends does not depend on what is already in the queue. */
  lemma TaskEmits(s: Side, link: Link, t: TaskStep)
    requires TaskCan(s, t)
    ensures var (side, out) := TaskAfter(s, Link([], link.up), t);
      TaskAfter(s, link, t) == (side, Link(link.queue + out.queue, link.up)) && out.up == link.up
  {
    assert link.queue + [] == link.queue;
    if t.Read? {
      assert [] + [Data(Some(t.bytes))] == [Data(Some(t.bytes))];
    } else if t.Notify? {
      assert [] + [Close] == [Close];
    }
  }

  lemma EmitAbout(e: Endpoint, id: Id, m: Message, x: Id)
    ensures Link(About(x, Emit(e, id, m).queue), e.up)
         == if x == id then Link(About(x, e.queue), e.up).Emit(m) else Link(About(x, e.queue), e.up)
  {
    AboutAppend(x, e.queue, [Packet(id, m)]);
    assert About(x, [Packet(id, m)]) == if x == id then [m] else [];
  }

  lemma MoveAbout(e: Endpoint, i: Id, t: TaskStep, id: Id)
    requires TaskCan(SideOf(e, i), t)
    ensures var next := TaskMoves(e, Current(i), t);
      && next == e.(sides := next.sides, queue := next.queue)
      && (i != id ==> SideOf(next, id) == SideOf(e, id) && About(id, next.queue) == About(id, e.queue))
      && (i == id ==> TaskAfter(SideOf(e, id), Link(About(id, e.queue), e.up), t)
                      == (SideOf(next, id), Link(About(id, next.queue), e.up)))
  {
    var sent := TaskAfter(SideOf(e, i), Link([], e.up), t).1.queue;
    TaskEmits(SideOf(e, i), Link(About(i, e.queue), e.up), t);
    AboutAppend(id, e.queue, Tagged(i, sent));
    AboutTagged(i, id, sent);
  }

  lemma CloseAbout(e: Endpoint, i: Id, id: Id)
    ensures var next := SentClose(e, i);
      && next == e.(sides := next.sides, queue := next.queue)
      && (i != id ==> SideOf(next, id) == SideOf(e, id) && About(id, next.queue) == About(id, e.queue))
      && (i == id ==> Link(About(id, next.queue), e.up) == Link(About(id, e.queue), e.up).Emit(Close))
      && (i == id ==> SideOf(next, id) == var s := SideOf(e, id); if e.up then s.(closes := s.closes + 1) else s)
  {
    EmitAbout(e, i, Close, id);
  }

  /** A message is nothing to the other streams. */
  lemma MessageAbout(e: Endpoint, p: Packet, connected: bool, id: Id)
    requires p.id != id
    ensures var next := OnMessage(e, p, connected);
      && SideOf(next, id) == SideOf(e, id) && About(id, next.queue) == About(id, e.queue)
      && (id in next.openIn <==> id in e.openIn) && (id in next.refused <==> id in e.refused)
  {
    match p.message
    case Open =>
      var f := e.(openIn := e.openIn + {p.id});
      CloseAbout(f.(refused := e.refused + {p.id}), p.id, id);
    case Data(None) => CloseAbout(e, p.id, id);
    case Data(Some(bytes)) =>
    case Close =>
  }

  lemma MessageKeepsRest(e: Endpoint, p: Packet, connected: bool)
    ensures var next := OnMessage(e, p, connected);
      next == e.(sides := next.sides, queue := next.queue, openIn := next.openIn, refused := next.refused,
                 orphans := next.orphans)
    ensures !p.message.Open? || SideOf(e, p.id).task.None? ==> OnMessage(e, p, connected).orphans == e.orphans
  {
  }

  lemma OpenerTakes(e: Endpoint, other: Endpoint, connected: bool, id: Id)
    requires other.queue != [] && other.queue[0].id == id && !other.queue[0].message.Open?
    requires other.queue[0].message.Data? ==> other.queue[0].message.payload.Some?
    ensures var s := StreamOf(e, other, id);
      && s.up.queue != []
      && TunnelStream.After(s, ToOpener)
         == StreamOf(OnMessage(e, other.queue[0], connected), Consumed(other, Take(connected)), id)
  {
    var s := StreamOf(e, other, id);
    assert s.up.queue[0] == other.queue[0].message && s.up.queue[1..] == About(id, other.queue[1..]);
  }

  lemma AcceptorConnects(e: Endpoint, other: Endpoint, id: Id)
    requires other.queue != [] && other.queue[0] == Packet(id, Open) && SideOf(e, id).task.None?
    ensures var s := StreamOf(other, e, id);
      && s.down.queue != []
      && TunnelStream.After(s, ToAcceptor(true))
         == StreamOf(Consumed(other, Take(true)), OnMessage(e, Packet(id, Open), true), id)
  {
    var s := StreamOf(other, e, id);
    assert s.down.queue[0] == Open && s.down.queue[1..] == About(id, other.queue[1..]);
  }

  lemma AcceptorRefuses(e: Endpoint, other: Endpoint, id: Id)
    requires other.queue != [] && other.queue[0] == Packet(id, Open)
    ensures var s := StreamOf(other, e, id);
      && s.down.queue != []
      && TunnelStream.After(s, ToAcceptor(false))
         == StreamOf(Consumed(other, Take(false)), OnMessage(e, Packet(id, Open), false), id)
  {
    var s := StreamOf(other, e, id);
    assert s.down.queue[0] == Open && s.down.queue[1..] == About(id, other.queue[1..]);
    var f := e.(openIn := e.openIn + {id});
    CloseAbout(f.(refused := e.refused + {id}), id, id);
  }

  lemma AcceptorTakes(e: Endpoint, other: Endpoint, connected: bool, id: Id)
    requires other.queue != [] && other.queue[0].id == id && !other.queue[0].message.Open?
    requires other.queue[0].message.Data? ==> other.queue[0].message.payload.Some?
    ensures var s := StreamOf(other, e, id);
      && s.down.queue != []
      && TunnelStream.After(s, ToAcceptor(connected))
         == StreamOf(Consumed(other, Take(connected)), OnMessage(e, other.queue[0], connected), id)
  {
    var s := StreamOf(other, e, id);
    assert s.down.queue[0] == other.queue[0].message && s.down.queue[1..] == About(id, other.queue[1..]);
  }

  /** What the invariant of the stream says about the next message. */
  lemma NextForOpener(e: Endpoint, other: Endpoint, id: Id)
    requires StreamInv(StreamOf(e, other, id)) && other.queue != [] && other.queue[0].id == id
    ensures !other.queue[0].message.Open?
    ensures other.queue[0].message.Data? ==> other.queue[0].message.payload.Some?
  {
    ToOpenerKeeps(StreamOf(e, other, id));
  }

  lemma NextForAcceptor(e: Endpoint, other: Endpoint, connected: bool, id: Id)
    requires StreamInv(StreamOf(other, e, id)) && other.queue != [] && other.queue[0].id == id
    ensures other.queue[0].message.Open? ==> SideOf(e, id).task.None?
    ensures other.queue[0].message.Data? ==> other.queue[0].message.payload.Some?
  {
    ToAcceptorKeeps(StreamOf(other, e, id), connected);
  }

  lemma OpenerAccepts(e: Endpoint, other: Endpoint, id: Id)
    requires EndInv(e) && e.opening.None? && e.accepted < BIT63
    ensures Follows(StreamOf(e, other, id), if id == AllocatedId(e) then Some(Allocate) else None,
                    StreamOf(AcceptConnection(e), other, id))
  {
    AllocatedIdIsNext(e);
    EmitAbout(CountUp(e).(announced := e.announced + {AllocatedId(e)}), AllocatedId(e), Open, id);
  }

  lemma OpenerAttaches(e: Endpoint, other: Endpoint, id: Id)
    requires e.opening.Some? && (e.opening == Some(id) ==> SideOf(e, id).task.None?)
    ensures Follows(StreamOf(e, other, id), if e.opening == Some(id) then Some(TunnelStream.Attach) else None,
                    StreamOf(AttachStream(e, e.opening.value).(opening := None), other, id))
  {
  }

  lemma OpenerTakesAny(e: Endpoint, other: Endpoint, connected: bool, id: Id)
    requires StreamInv(StreamOf(e, other, id)) && other.queue != []
    ensures Follows(StreamOf(e, other, id), if other.queue[0].id == id then Some(ToOpener) else None,
                    StreamOf(OnMessage(e, other.queue[0], connected), Consumed(other, Take(connected)), id))
  {
    if other.queue[0].id == id {
      NextForOpener(e, other, id);
      OpenerTakes(e, other, connected, id);
    } else {
      MessageAbout(e, other.queue[0], connected, id);
      MessageKeepsRest(e, other.queue[0], connected);
    }
  }

  lemma AcceptorTakesOwn(e: Endpoint, other: Endpoint, connected: bool, id: Id)
    requires StreamInv(StreamOf(other, e, id)) && other.queue != [] && other.queue[0].id == id
    ensures Follows(StreamOf(other, e, id), Some(ToAcceptor(connected)),
                    StreamOf(Consumed(other, Take(connected)), OnMessage(e, other.queue[0], connected), id))
  {
    NextForAcceptor(e, other, connected, id);
    if !other.queue[0].message.Open? {
      AcceptorTakes(e, other, connected, id);
    } else if connected {
      AcceptorConnects(e, other, id);
    } else {
      AcceptorRefuses(e, other, id);
    }
  }

  lemma AcceptorTakesAny(e: Endpoint, other: Endpoint, connected: bool, id: Id)
    requires StreamInv(StreamOf(other, e, id)) && other.queue != []
    ensures Follows(StreamOf(other, e, id), if other.queue[0].id == id then Some(ToAcceptor(connected)) else None,
                    StreamOf(Consumed(other, Take(connected)), OnMessage(e, other.queue[0], connected), id))
  {
    if other.queue[0].id == id {
      AcceptorTakesOwn(e, other, connected, id);
    } else {
      MessageAbout(e, other.queue[0], connected, id);
      MessageKeepsRest(e, other.queue[0], connected);
    }
  }

  lemma TaskMovesStream(e: Endpoint, other: Endpoint, i: Id, t: TaskStep, id: Id)
    requires TaskCan(SideOf(e, i), t)
    ensures Follows(StreamOf(e, other, id), if i == id then Some(Act(Opener, t)) else None,
                    StreamOf(TaskMoves(e, Current(i), t), other, id))
    ensures Follows(StreamOf(other, e, id), if i == id then Some(Act(Acceptor, t)) else None,
                    StreamOf(other, TaskMoves(e, Current(i), t), id))
  {
    MoveAbout(e, i, t, id);
  }

  lemma BreakMovesStream(e: Endpoint, other: Endpoint, id: Id)
    ensures Follows(StreamOf(e, other, id), Some(TunnelStream.Break(Opener)),
                    StreamOf(e.(queue := [], up := false), other, id))
    ensures Follows(StreamOf(other, e, id), Some(TunnelStream.Break(Acceptor)),
                    StreamOf(other, e.(queue := [], up := false), id))
  {
  }

  /** A move of the opening end of `id` is a step of the stream, or nothing to it. */
  lemma OpenerMoves(e: Endpoint, other: Endpoint, action: Action, id: Id)
    requires EndInv(e) && StreamInv(StreamOf(e, other, id)) && CanMove(e, other.queue, action)
    requires action.Accept? ==> e.accepted < BIT63
    ensures Follows(StreamOf(e, other, id), OpenerStep(e, other, action, id),
                    StreamOf(Moved(e, other.queue, action), Consumed(other, action), id))
  {
    match action
    case Accept => OpenerAccepts(e, other, id);
    case Attach => OpenerAttaches(e, other, id);
    case Take(connected) => OpenerTakesAny(e, other, connected, id);
    case Move(Current(i), t) => TaskMovesStream(e, other, i, t, id);
    case StopListening =>
    case Break => BreakMovesStream(e, other, id);
  }

  lemma AcceptAbout(e: Endpoint, id: Id)
    requires id != AllocatedId(e)
    ensures var next := AcceptConnection(e);
      SideOf(next, id) == SideOf(e, id) && About(id, next.queue) == About(id, e.queue)
  {
    EmitAbout(CountUp(e).(announced := e.announced + {AllocatedId(e)}), AllocatedId(e), Open, id);
  }

  lemma AttachAbout(e: Endpoint, i: Id, id: Id)
    requires i != id
    ensures var next := AttachStream(e, i).(opening := None);
      SideOf(next, id) == SideOf(e, id) && next == e.(opening := None, sides := next.sides, orphans := next.orphans)
  {
  }

  /** The same for a move of the accepting end. */
  lemma AcceptorMoves(e: Endpoint, other: Endpoint, action: Action, id: Id)
    requires EndInv(e) && StreamInv(StreamOf(other, e, id)) && CanMove(e, other.queue, action)
    requires Owns(other.prefix, id) && e.prefix != other.prefix
    requires action.Accept? ==> e.accepted < BIT63
    ensures Follows(StreamOf(other, e, id), AcceptorStep(e, other, action, id),
                    StreamOf(Consumed(other, action), Moved(e, other.queue, action), id))
  {
    match action
    case Accept =>
      AllocatedIdIsNext(e);
      AcceptAbout(e, id);
    case Attach => AttachAbout(e, e.opening.value, id);
    case Take(connected) => AcceptorTakesAny(e, other, connected, id);
    case Move(Current(i), t) => TaskMovesStream(e, other, i, t, id);
    case StopListening =>
    case Break => BreakMovesStream(e, other, id);
  }

  // ------------------------------------------------------------------ preservation

  lemma TakeKeepsOrphans(e: Endpoint, other: Endpoint, connected: bool)
    requires PairInv(e, other) && other.queue != []
    ensures OnMessage(e, other.queue[0], connected).orphans == []
  {
    var id := other.queue[0].id;
    if Owns(e.prefix, id) {
      assert StreamInv(StreamOf(e, other, id));
      NextForOpener(e, other, id);
    } else {
      assert StreamInv(StreamOf(other, e, id));
      NextForAcceptor(e, other, connected, id);
    }
    MessageKeepsRest(e, other.queue[0], connected);
  }

  lemma AttachKeepsOrphans(e: Endpoint, other: Endpoint)
    requires PairInv(e, other) && e.opening.Some?
    ensures AttachStream(e, e.opening.value).orphans == []
  {
    assert StreamInv(StreamOf(e, other, e.opening.value));
  }

  lemma EndKeeps(e: Endpoint, other: Endpoint, action: Action)
    requires PairInv(e, other) && CanMove(e, other.queue, action)
    requires action.Accept? ==> e.accepted < BIT63
    ensures EndInv(Moved(e, other.queue, action)) && Moved(e, other.queue, action).prefix == e.prefix
  {
    match action
    case Accept => AllocatedIdIsNext(e);
    case Attach => AttachKeepsOrphans(e, other);
    case Take(connected) =>
      TakeKeepsOrphans(e, other, connected);
      MessageKeepsRest(e, other.queue[0], connected);
    case Move(Current(i), t) =>
    case StopListening =>
    case Break =>
  }

  lemma MovedPrefix(e: Endpoint, other: Endpoint, action: Action)
    requires CanMove(e, other.queue, action)
    ensures Moved(e, other.queue, action).prefix == e.prefix && Consumed(other, action).prefix == other.prefix
  {
  }

  lemma OpenedKeep(e: Endpoint, other: Endpoint, action: Action)
    requires PairInv(e, other) && CanMove(e, other.queue, action)
    requires action.Accept? ==> e.accepted < BIT63
    ensures StreamsOf(Moved(e, other.queue, action), Consumed(other, action))
  {
    MovedPrefix(e, other, action);
    forall id: Id | Owns(e.prefix, id)
      ensures StreamInv(StreamOf(Moved(e, other.queue, action), Consumed(other, action), id))
    {
      OpenerMoves(e, other, action, id);
      FollowingKeeps(StreamOf(e, other, id), OpenerStep(e, other, action, id),
                     StreamOf(Moved(e, other.queue, action), Consumed(other, action), id));
    }
  }

  lemma FollowingKeeps(s: Stream, step: Option<TunnelStream.Step>, next: Stream)
    requires StreamInv(s) && Follows(s, step, next)
    ensures StreamInv(next)
  {
    if step.Some? {
      StepKeepsInv(s, step.value);
    }
  }

  lemma AcceptedKeep(e: Endpoint, other: Endpoint, action: Action)
    requires PairInv(e, other) && CanMove(e, other.queue, action)
    requires action.Accept? ==> e.accepted < BIT63
    ensures StreamsOf(Consumed(other, action), Moved(e, other.queue, action))
  {
    MovedPrefix(e, other, action);
    forall id: Id | Owns(other.prefix, id)
      ensures StreamInv(StreamOf(Consumed(other, action), Moved(e, other.queue, action), id))
    {
      AcceptorMoves(e, other, action, id);
      FollowingKeeps(StreamOf(other, e, id), AcceptorStep(e, other, action, id),
                     StreamOf(Consumed(other, action), Moved(e, other.queue, action), id));
    }
  }

  lemma PairKeeps(e: Endpoint, other: Endpoint, action: Action)
    requires PairInv(e, other) && CanMove(e, other.queue, action)
    requires action.Accept? ==> e.accepted < BIT63
    ensures PairInv(Moved(e, other.queue, action), Consumed(other, action))
    ensures Moved(e, other.queue, action).prefix == e.prefix && Consumed(other, action).prefix == other.prefix
  {
    EndKeeps(e, other, action);
    OpenedKeep(e, other, action);
    AcceptedKeep(e, other, action);
  }

  // ------------------------------------------------------------------ whole runs

  /** No end accepts more than 2^63 connections, after which its ids would repeat. */
  predicate WithinIds(w: World, steps: seq<Step>)
    requires Possible(w, steps)
    decreases |steps|
  {
    && w.a.accepted <= BIT63 && w.b.accepted <= BIT63
    && (steps == [] || WithinIds(After(w, steps[0]), steps[1..]))
  }

  lemma UnusedInv()
    ensures StreamInv(Unused(Link([], true), Link([], true)))
  {
    assert InFlight([]) == [];
    assert Reach(Fresh, []) == Fresh && Reach(Flowing, []) == Flowing;
  }

  lemma StartInv(bitA: bool, bitB: bool)
    requires bitA != bitB
    ensures PairInv(NewEndpoint(bitA), NewEndpoint(bitB))
  {
    UnusedInv();
  }

  lemma {:induction false} RunKeepsInv(w: World, steps: seq<Step>)
    requires PairInv(w.a, w.b) && Possible(w, steps) && WithinIds(w, steps)
    ensures PairInv(Run(w, steps).a, Run(w, steps).b)
    ensures Run(w, steps).a.prefix == w.a.prefix && Run(w, steps).b.prefix == w.b.prefix
    decreases |steps|
  {
    if steps != [] {
      var step := steps[0];
      assert step.action.Accept? ==> (if step.byA then w.a else w.b).accepted < BIT63 by {
        assert WithinIds(After(w, step), steps[1..]);
      }
      if step.byA {
        PairKeeps(w.a, w.b, step.action);
      } else {
        PairKeeps(w.b, w.a, step.action);
      }
      RunKeepsInv(After(w, step), steps[1..]);
    }
  }

  /**
   With different prefix bits, in every interleaving and for every stream: what the
   accepting end has written to its service is a prefix of what the opening end has
   read from its client, and all of it once its task has left on the peer's Close;
   each end closes the stream at most once, and never in answer to a Close.
   */
  lemma StreamsAreFaithful(bit: bool, steps: seq<Step>, id: Id)
    requires Possible(Start(bit, !bit), steps) && WithinIds(Start(bit, !bit), steps)
    ensures var w := Run(Start(bit, !bit), steps);
      var (from, to) :=
        if Owns(bit, id) then (SideOf(w.a, id), SideOf(w.b, id)) else (SideOf(w.b, id), SideOf(w.a, id));
      && to.written <= from.read && (to.byPeer ==> to.written == from.read)
      && from.dropped + from.written <= to.read && (from.byPeer ==> from.dropped + from.written == to.read)
      && from.closes <= 1 && to.closes <= 1
      && (from.byPeer ==> from.closes == 0) && (to.byPeer ==> to.closes == 0)
  {
    var w := Run(Start(bit, !bit), steps);
    StartInv(bit, !bit);
    RunKeepsInv(Start(bit, !bit), steps);
    var s := if Owns(bit, id) then StreamOf(w.a, w.b, id) else StreamOf(w.b, w.a, id);
    AcceptorWritesPrefix(s);
    OpenerWritesPrefix(s);
    ClosesOnce(s);
  }

  /**
   No stream is left half open: at either end, a task that is done has sent the Close, unless the peer's Close
   had come first or the connection between the ends is gone; and a stream that was refused has been closed.
   */
  lemma ClosesAreSent(bit: bool, steps: seq<Step>, id: Id)
    requires Possible(Start(bit, !bit), steps) && WithinIds(Start(bit, !bit), steps)
    ensures var w := Run(Start(bit, !bit), steps);
      && ToldPeer(SideOf(w.a, id), w.a.up) && ToldPeer(SideOf(w.b, id), w.b.up)
      && (Seen(w, id).refused && Seen(w, id).up.up ==> Seen(w, id).acceptor.closes == 1)
  {
    var w := Run(Start(bit, !bit), steps);
    StartInv(bit, !bit);
    RunKeepsInv(Start(bit, !bit), steps);
    DoneHasTold(Seen(w, id));
  }

  /** No task ever loses its route to another stream. */
  lemma StreamsNeverCollide(bit: bool, steps: seq<Step>)
    requires Possible(Start(bit, !bit), steps) && WithinIds(Start(bit, !bit), steps)
    ensures var w := Run(Start(bit, !bit), steps); w.a.orphans == [] && w.b.orphans == []
  {
    StartInv(bit, !bit);
    RunKeepsInv(Start(bit, !bit), steps);
  }

  // ------------------------------------------------------------------ when a Close reaches the opener

  /** The end that opens the stream `id`, and the stream itself. */
  function OpenerSide(w: World, id: Id): Side {
    if Owns(w.a.prefix, id) then SideOf(w.a, id) else SideOf(w.b, id)
  }

  function Seen(w: World, id: Id): Stream {
    if Owns(w.a.prefix, id) then StreamOf(w.a, w.b, id) else StreamOf(w.b, w.a, id)
  }

  predicate WithinStep(w: World, step: Step) {
    step.action.Accept? ==> (if step.byA then w.a else w.b).accepted < BIT63
  }

  /** A step of the pair is a step of the stream, or nothing to it. */
  lemma StepIsSeen(w: World, step: Step, id: Id) returns (t: Option<TunnelStream.Step>)
    requires PairInv(w.a, w.b) && Enabled(w, step) && WithinStep(w, step)
    ensures Follows(Seen(w, id), t, Seen(After(w, step), id))
    ensures StreamInv(Seen(w, id))
  {
    var (mover, other) := if step.byA then (w.a, w.b) else (w.b, w.a);
    MovedPrefix(mover, other, step.action);
    if Owns(mover.prefix, id) {
      OpenerMoves(mover, other, step.action, id);
      t := OpenerStep(mover, other, step.action, id);
    } else {
      AcceptorMoves(mover, other, step.action, id);
      t := AcceptorStep(mover, other, step.action, id);
    }
  }

  lemma StepKeepsPair(w: World, step: Step)
    requires PairInv(w.a, w.b) && Enabled(w, step) && WithinStep(w, step)
    ensures PairInv(After(w, step).a, After(w, step).b)
    ensures After(w, step).a.prefix == w.a.prefix && After(w, step).b.prefix == w.b.prefix
  {
    if step.byA {
      PairKeeps(w.a, w.b, step.action);
    } else {
      PairKeeps(w.b, w.a, step.action);
    }
  }

  lemma StepKeepsOpenerClosed(w: World, step: Step, id: Id, early: bool)
    requires PairInv(w.a, w.b) && Enabled(w, step) && WithinStep(w, step) && Closed(OpenerSide(w, id), early)
    ensures Closed(OpenerSide(After(w, step), id), early)
  {
    var t := StepIsSeen(w, step, id);
    StepKeepsPair(w, step);
    assert Seen(w, id).opener == OpenerSide(w, id);
    assert Seen(After(w, step), id).opener == OpenerSide(After(w, step), id);
    if t.Some? {
      StepKeepsClosed(Seen(w, id), t.value, early);
    }
  }

  lemma {:induction false} RunKeepsClosed(w: World, steps: seq<Step>, id: Id, early: bool)
    requires PairInv(w.a, w.b) && Possible(w, steps) && WithinIds(w, steps) && Closed(OpenerSide(w, id), early)
    ensures Closed(OpenerSide(Run(w, steps), id), early) && SideInv(OpenerSide(Run(w, steps), id))
    decreases |steps|
  {
    if steps == [] {
      assert StreamInv(Seen(w, id));
    } else {
      var step := steps[0];
      assert WithinIds(After(w, step), steps[1..]);
      StepKeepsOpenerClosed(w, step, id, early);
      StepKeepsPair(w, step);
      RunKeepsClosed(After(w, step), steps[1..], id, early);
    }
  }

  /** The opening end of `id` takes the peer's Close. */
  predicate TakesClose(w: World, step: Step, id: Id) {
    && step.action.Take? && (step.byA <==> Owns(w.a.prefix, id))
    && (if step.byA then w.b else w.a).queue != [] && (if step.byA then w.b else w.a).queue[0] == Packet(id, Close)
  }

  lemma TakingCloses(w: World, step: Step, id: Id)
    requires PairInv(w.a, w.b) && Enabled(w, step) && TakesClose(w, step, id)
    ensures Closed(OpenerSide(After(w, step), id), OpenerSide(w, id).task.None?)
  {
    MovedPrefix(if step.byA then w.a else w.b, if step.byA then w.b else w.a, step.action);
    assert StreamInv(Seen(w, id));
  }

  /**
   Over whole runs: a Close reaches the opener's task iff it arrives after the route was attached.
   Whatever came before and comes after, a task that still runs has its end in its queue, and a
   task has left on the peer's Close, only if there was a task when the Close was taken.
   */
  lemma CloseReachesIff(bit: bool, steps: seq<Step>, step: Step, more: seq<Step>, id: Id)
    requires Possible(Start(bit, !bit), steps) && WithinIds(Start(bit, !bit), steps)
    requires var w := Run(Start(bit, !bit), steps);
      && Enabled(w, step) && TakesClose(w, step, id)
      && Possible(After(w, step), more) && WithinIds(After(w, step), more)
    ensures var w := Run(Start(bit, !bit), steps);
      var attached, last := OpenerSide(w, id).task.Some?, OpenerSide(Run(After(w, step), more), id);
      && (Runs(last) ==> (HasShut(last.task.value.commands) <==> attached))
      && (last.byPeer ==> attached)
  {
    var w := Run(Start(bit, !bit), steps);
    StartInv(bit, !bit);
    RunKeepsInv(Start(bit, !bit), steps);
    StepKeepsPair(w, step);
    TakingCloses(w, step, id);
    var early := OpenerSide(w, id).task.None?;
    RunKeepsClosed(After(w, step), more, id, early);
    ClosedTaskEnds(OpenerSide(Run(After(w, step), more), id), early);
  }

  // ------------------------------------------------------------------ where the hypotheses are needed

  /** An end that has accepted k connections. */
  function Counted(bit: bool, k: nat): Endpoint {
    NewEndpoint(bit).(nextId := (1 + Prefix(bit) + k) % U64_SIZE, accepted := k)
  }

  predicate SharesId(bitA: bool, bitB: bool, i: nat, j: nat) {
    AllocatedId(Counted(bitA, i)) == AllocatedId(Counted(bitB, j))
  }

  /** Within 2^63 connections each, the ids of the two ends never meet exactly when their prefix bits differ. */
  lemma IdsAreDisjointIff(bitA: bool, bitB: bool)
    ensures bitA != bitB
       <==> forall i: nat, j: nat | i < BIT63 && j < BIT63 :: !SharesId(bitA, bitB, i, j)
  {
    if bitA != bitB {
      forall i: nat, j: nat | i < BIT63 && j < BIT63
        ensures !SharesId(bitA, bitB, i, j)
      {
        AllocatedIdIsNext(Counted(bitA, i));
        AllocatedIdIsNext(Counted(bitB, j));
      }
    } else {
      assert SharesId(bitA, bitB, 0, 0);
    }
  }

  lemma {:induction false} Join(w: World, steps: seq<Step>, more: seq<Step>)
    requires Possible(w, steps) && Possible(Run(w, steps), more)
    ensures Possible(w, steps + more) && Run(w, steps + more) == Run(Run(w, steps), more)
    decreases |steps|
  {
    if steps == [] {
      assert steps + more == more;
    } else {
      assert (steps + more)[1..] == steps[1..] + more;
      Join(After(w, steps[0]), steps[1..], more);
    }
  }

  lemma OneMore(w: World, steps: seq<Step>, step: Step) returns (longer: seq<Step>)
    requires Possible(w, steps) && Enabled(Run(w, steps), step)
    ensures Possible(w, longer) && Run(w, longer) == After(Run(w, steps), step)
  {
    assert [step][1..] == [];
    Join(w, steps, [step]);
    longer := steps + [step];
  }

  /** The listener of a new end takes its first client. */
  lemma FirstClient(bit: bool)
    ensures var e := AcceptConnection(NewEndpoint(bit));
      && e.opening == Some(1 + Prefix(bit)) && e.queue == [Packet(1 + Prefix(bit), Open)] && e.orphans == []
      && e.sides == map[]
    ensures var e := AttachStream(AcceptConnection(NewEndpoint(bit)), 1 + Prefix(bit));
      && e.orphans == [] && SideOf(e, 1 + Prefix(bit)) == Attached(NoSide())
  {
  }

  /**
   With equal bits, one client at each end is enough: the first end tells its client's
   task to close, unasked, and gives the route to the connection opened for the other.
   */
  lemma EqualBitsCollide(bit: bool) returns (steps: seq<Step>)
    ensures Possible(Start(bit, bit), steps)
    ensures var e := Run(Start(bit, bit), steps).a;
      && |e.orphans| == 1 && !e.orphans[0].side.closeIn
      && e.orphans[0].side.task == Some(TunnelStream.Task([Shut(false)], Running))
  {
    var w, id := Start(bit, bit), 1 + Prefix(bit);
    FirstClient(bit);
    steps := [];
    steps := OneMore(w, steps, Step(true, Accept));
    steps := OneMore(w, steps, Step(true, Action.Attach));
    assert Run(w, steps).a == AttachStream(AcceptConnection(w.a), id).(opening := None) && Run(w, steps).b == w.b;
    steps := OneMore(w, steps, Step(false, Accept));
    var e := Run(w, steps).a;
    assert Run(w, steps).b.queue == [Packet(id, Open)] && SideOf(e, id) == Attached(NoSide()) && e.orphans == [];
    steps := OneMore(w, steps, Step(true, Take(true)));
    assert [] + [Shut(false)] == [Shut(false)];
    assert Run(w, steps).a == AttachStream(e.(openIn := e.openIn + {id}), id);
  }
}
