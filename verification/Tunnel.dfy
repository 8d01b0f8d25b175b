/**
 The TCP multiplexer: each end keeps a route and a task per stream and talks to
 the other end through one message queue per direction.
 */
module Tunnel {
  import opened Prelude
  import opened TunnelStream

  const BIT63: U64 := 0x8000_0000_0000_0000

  type Id = U64

  /** A message about stream `id`. */
  datatype Packet = Packet(id: Id, message: Message)

  /** A task whose route was handed to another task of the same id. */
  datatype Orphan = Orphan(id: Id, side: Side)

  /**
   One end of the tunnel. `sides` holds the latest task of each stream with its
   route and its history; `announced`, `openIn` and `refused` record the ids
   this end has opened, was asked to open, and could not connect.
   */
  datatype Endpoint = Endpoint(
    prefix: bool,
    nextId: U64,
    listening: bool,
    opening: Option<Id>,
    sides: map<Id, Side>,
    orphans: seq<Orphan>,
    queue: seq<Packet>,
    up: bool,
    accepted: nat,
    announced: set<Id>,
    openIn: set<Id>,
    refused: set<Id>)

  function Prefix(bit: bool): U64 {
    if bit then BIT63 else 0
  }

  function NewEndpoint(bit: bool): Endpoint {
    Endpoint(bit, 1 + Prefix(bit), true, None, map[], [], [], true, 0, {}, {}, {})
  }

  // ------------------------------------------------------------------ specification

  function SideOf(e: Endpoint, id: Id): Side {
    if id in e.sides then e.sides[id] else NoSide()
  }

  function PutSide(e: Endpoint, id: Id, side: Side): Endpoint {
    e.(sides := e.sides[id := side])
  }

  function Emit(e: Endpoint, id: Id, m: Message): Endpoint {
    if e.up then e.(queue := e.queue + [Packet(id, m)]) else e
  }

  /** `fetch_add` on the counter wraps; bit 63 of the id is the prefix. */
  function AllocatedId(e: Endpoint): Id {
    e.nextId % BIT63 + Prefix(e.prefix)
  }

  function CountUp(e: Endpoint): Endpoint {
    e.(nextId := (e.nextId + 1) % U64_SIZE, accepted := e.accepted + 1)
  }

  /** A new task takes over the route; the old one, if it still had it, is told to close. */
  function AttachStream(e: Endpoint, id: Id): Endpoint {
    var s := SideOf(e, id);
    var last := if s.routed && s.task.Some? then Queued(s, Shut(false)).(routed := false) else s;
    PutSide(if s.task.Some? then e.(orphans := e.orphans + [Orphan(id, last)]) else e, id, Attached(s))
  }

  /** The listener accepts a connection and asks the peer to open its port; a dead link ends the listener. */
  function AcceptConnection(e: Endpoint): Endpoint {
    var id := AllocatedId(e);
    var f := Emit(CountUp(e).(announced := e.announced + {id}), id, Open);
    if e.up then f.(opening := Some(id)) else f.(listening := false)
  }

  /** A Close of our own about `id`. */
  function SentClose(e: Endpoint, id: Id): Endpoint {
    var side := SideOf(e, id);
    PutSide(Emit(e, id, Close), id, if e.up then side.(closes := side.closes + 1) else side)
  }

  function OnMessage(e: Endpoint, p: Packet, connected: bool): Endpoint {
    match p.message
    case Open =>
      var f := e.(openIn := e.openIn + {p.id});
      if connected then AttachStream(f, p.id) else SentClose(f.(refused := e.refused + {p.id}), p.id)
    case Data(None) => SentClose(e, p.id)
    case Data(Some(bytes)) => PutSide(e, p.id, TakeData(SideOf(e, p.id), bytes))
    case Close => PutSide(e, p.id, TakeClose(SideOf(e, p.id)))
  }

  // ------------------------------------------------------------------ the tunnel object

  class TunnelEnd {
    const prefix: bool
    var nextId: U64
    var listening: bool
    var opening: Option<Id>
    var sides: map<Id, Side>
    var orphans: seq<Orphan>
    var queue: seq<Packet>
    var up: bool
    ghost var accepted: nat
    ghost var announced: set<Id>
    ghost var openIn: set<Id>
    ghost var refused: set<Id>

    ghost function View(): Endpoint
      reads this
    {
      Endpoint(prefix, nextId, listening, opening, sides, orphans, queue, up, accepted, announced, openIn, refused)
    }

    constructor (bit: bool)
      ensures View() == NewEndpoint(bit)
    {
      prefix, nextId, listening, opening := bit, 1 + Prefix(bit), true, None;
      sides, orphans, queue, up := map[], [], [], true;
      accepted, announced, openIn, refused := 0, {}, {}, {};
    }

    function Side(id: Id): Side
      reads this
    {
      if id in sides then sides[id] else NoSide()
    }

    method Send(id: Id, m: Message) returns (ok: bool)
      modifies this`queue
      ensures View() == Emit(old(View()), id, m) && ok == up
    {
      if up {
        queue := queue + [Packet(id, m)];
      }
      return up;
    }

    method AllocLocalId() returns (id: Id)
      modifies this`nextId, this`accepted
      ensures id == AllocatedId(old(View())) && View() == CountUp(old(View()))
    {
      var before := nextId;
      nextId := if nextId + 1 == U64_SIZE then 0 else nextId + 1;
      accepted := accepted + 1;
      var base := if before >= BIT63 then before - BIT63 else before;
      return base + Prefix(prefix);
    }

    method AttachStreamWithId(id: Id)
      modifies this`sides, this`orphans
      ensures View() == AttachStream(old(View()), id)
    {
      var s := Side(id);
      if s.task.Some? {
        var last := s;
        if s.routed {
          last := Queued(s, Shut(false)).(routed := false);
        }
        orphans := orphans + [Orphan(id, last)];
      }
      sides := sides[id := s.(task := Some(Task([], Running)), routed := true)];
    }

    /** One turn of the listener: allocate an id, announce it, and remember to attach the socket. */
    method Accept()
      modifies this
      ensures View() == AcceptConnection(old(View()))
    {
      var id := AllocLocalId();
      announced := announced + {id};
      var ok := Send(id, Open);
      if ok {
        opening := Some(id);
      } else {
        listening := false;
      }
    }

    method AttachAccepted()
      requires opening.Some?
      modifies this
      ensures View() == AttachStream(old(View()), old(opening).value).(opening := None)
    {
      AttachStreamWithId(opening.value);
      opening := None;
    }

    method OnMsg(p: Packet, connected: bool)
      modifies this
      ensures View() == OnMessage(old(View()), p, connected)
    {
      match p.message
      case Open =>
        openIn := openIn + {p.id};
        if connected {
          AttachStreamWithId(p.id);
        } else {
          refused := refused + {p.id};
          SendClose(p.id);
        }
      case Data(None) => SendClose(p.id);
      case Data(Some(bytes)) =>
        var s := Side(p.id);
        if s.routed && s.task.Some? {
          sides := sides[p.id := Queued(s, Write(bytes))];
        } else if s.task.None? {
          sides := sides[p.id := s.(dropped := s.dropped + bytes)];
        } else {
          sides := sides[p.id := s];
        }
      case Close =>
        var s := Side(p.id);
        if s.routed && s.task.Some? {
          s := Queued(s, Shut(false));
        }
        sides := sides[p.id := s.(routed := false, closeIn := true)];
    }

    method SendClose(id: Id)
      modifies this`queue, this`sides
      ensures View() == SentClose(old(View()), id)
    {
      var s := Side(id);
      var ok := Send(id, Close);
      sides := sides[id := if ok then s.(closes := s.closes + 1) else s];
    }

    /** The TCP branch of a task: a chunk goes out, or it leaves silently because nothing can be sent. */
    method OnRead(id: Id, bytes: Bytes)
      requires Runs(Side(id))
      modifies this`queue, this`sides
      ensures var (side, link) := ReadChunk(old(Side(id)), Link([], up), bytes);
        View() == PutSide(Emit(old(View()), id, Data(Some(bytes))), id, side)
    {
      var s := Side(id);
      s := s.(read := s.read + bytes);
      var ok := Send(id, Data(Some(bytes)));
      if !ok {
        s := InPhase(s, Leaving(false));
      }
      sides := sides[id := s];
    }

    /** The command branch of a task. */
    method OnCommand(id: Id, ok: bool, part: nat)
      requires Runs(Side(id)) && Side(id).task.value.commands != []
      modifies this`sides
      ensures View() == PutSide(old(View()), id, RunCommand(old(Side(id)), ok, part))
    {
      var s := Side(id);
      var command := s.task.value.commands[0];
      s := s.(task := Some(Task(s.task.value.commands[1..], Running)));
      match command {
        case Write(bytes) =>
          if ok {
            s := s.(written := s.written + bytes);
          } else {
            var cut := if part <= |bytes| then part else |bytes|;
            s := InPhase(s.(written := s.written + bytes[..cut]), Leaving(true));
          }
        case Shut(notify) =>
          s := InPhase(s.(byPeer := true), Leaving(notify));
      }
      sides := sides[id := s];
    }

    /** End of file, a socket error or a cancellation ends the loop with a Close due; a dropped channel without one. */
    method LeaveLoop(id: Id, notify: bool)
      requires Runs(Side(id))
      modifies this`sides
      ensures View() == PutSide(old(View()), id, InPhase(old(Side(id)), Leaving(notify)))
    {
      sides := sides[id := InPhase(Side(id), Leaving(notify))];
    }

    method RemoveOwnRoute(id: Id)
      requires Side(id).task.Some? && Side(id).task.value.phase.Leaving?
      modifies this`sides
      ensures View() == PutSide(old(View()), id, RemoveRoute(old(Side(id))))
    {
      var s := Side(id);
      sides := sides[id := InPhase(s, Unrouted(s.task.value.phase.notify)).(routed := false)];
    }

    /** The peer is told, unless it closed the stream itself. */
    method NotifyPeer(id: Id)
      requires Side(id).task.Some? && Side(id).task.value.phase.Unrouted?
      modifies this`queue, this`sides
      ensures var side := old(Side(id));
        View() == PutSide(if side.task.value.phase.notify then Emit(old(View()), id, Close) else old(View()), id,
                          Finish(side, Link([], up)).0)
    {
      var s := Side(id);
      if s.task.value.phase.notify {
        var ok := Send(id, Close);
        if ok {
          s := s.(closes := s.closes + 1);
        }
      }
      sides := sides[id := InPhase(s, Done)];
    }
  }
}
