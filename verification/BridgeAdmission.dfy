/**
 The WebSocket connections of SDK bridges. A key exchange takes one of a fixed
 number of permits, keeps it while it is pending, and hands it to the controller
 it starts.
 */
module BridgeAdmission {
  import opened Prelude

  /** `keys` stands for the two verification keys of the bridge. */
  datatype KexRequest = KexRequest(machine: nat, keys: nat, accepted: Option<nat>)

  datatype KexResponse = KexResponse(proposed: nat, done: bool)

  datatype Pending = Pending(request: KexRequest, response: KexResponse)

  /** What the handler of a key exchange is waiting for; both stages hold a permit. */
  datatype Stage = Idle | Initializing(request: KexRequest) | Finalizing(response: KexResponse)

  datatype Reply = Unsupported | SetupError | Agreed(response: KexResponse)

  datatype Conn = Conn(pending: Option<Pending>, controller: bool, stage: Stage)

  function NewConn(): Conn {
    Conn(None, false, Idle)
  }

  /** The permits that a connection holds. */
  function Permits(c: Conn): nat {
    (if c.pending.Some? then 1 else 0) + (if c.controller then 1 else 0) + (if c.stage.Idle? then 0 else 1)
  }

  // ------------------------------------------------------------------ specification

  /** The second request repeats the first one and accepts the port it was offered. */
  predicate Matches(p: Pending, req: KexRequest) {
    p.request == req.(accepted := None) && req.accepted == Some(p.response.proposed)
  }

  /**
   A key exchange request, up to the first wait: the connection, the free permits, and the answer if
   there is one already.
   */
  function OnKex(c: Conn, free: nat, hydras: bool, req: KexRequest): (Conn, nat, Option<Reply>)
    requires c.stage.Idle?
  {
    var d := c.(controller := false);
    var f := if c.controller then free + 1 else free;
    if !hydras then (d, f, Some(Unsupported))
    else if req.accepted.Some? then
      match c.pending
      case None => (d, f, Some(SetupError))
      case Some(p) =>
        if Matches(p, req) then (d.(pending := None, stage := Finalizing(p.response)), f, None)
        else (d.(pending := None), f + 1, Some(SetupError))
    else if f == 0 then (d, f, Some(SetupError))
    else (d.(stage := Initializing(req)), f - 1, None)
  }

  /**
   The first half succeeds with a proposed port, or gives its permit back; an earlier pending exchange
   is replaced.
   */
  function OnInitialized(c: Conn, free: nat, port: Option<nat>): (Conn, nat, Reply)
    requires c.stage.Initializing?
  {
    match port
    case None => (c.(stage := Idle), free + 1, SetupError)
    case Some(p) =>
      var resp := KexResponse(p, false);
      (Conn(Some(Pending(c.stage.request, resp)), c.controller, Idle),
       if c.pending.Some? then free + 1 else free, Agreed(resp))
  }

  /** The second half starts a controller, which keeps the permit, or gives it back. */
  function OnFinalized(c: Conn, free: nat, spawned: bool): (Conn, nat, Reply)
    requires c.stage.Finalizing?
  {
    if spawned then (c.(stage := Idle, controller := true), free, Agreed(c.stage.response.(done := true)))
    else (c.(stage := Idle), free + 1, SetupError)
  }

  function OnFinish(c: Conn, free: nat): (Conn, nat) {
    (NewConn(), free + Permits(c))
  }

  // ------------------------------------------------------------------ the event loop of a connection

  class Semaphore {
    var free: nat

    constructor (permits: nat)
      ensures free == permits
    {
      free := permits;
    }

    method TryAcquire() returns (ok: bool)
      modifies this
      ensures ok == (old(free) > 0)
      ensures free == if ok then old(free) - 1 else old(free)
    {
      ok := free > 0;
      if ok {
        free := free - 1;
      }
    }

    method Release()
      modifies this
      ensures free == old(free) + 1
    {
      free := free + 1;
    }
  }

  class Connection {
    const capacity: Semaphore
    const hydras: bool
    var initialHydraKex: Option<Pending>
    var hydraController: bool
    var stage: Stage

    ghost function View(): Conn
      reads this
    {
      Conn(initialHydraKex, hydraController, stage)
    }

    constructor (capacity: Semaphore, hydras: bool)
      ensures View() == NewConn() && this.capacity == capacity && this.hydras == hydras
    {
      this.capacity, this.hydras := capacity, hydras;
      initialHydraKex, hydraController, stage := None, false, Idle;
    }

    method DropController()
      modifies this`hydraController, capacity
      ensures !hydraController
      ensures capacity.free == old(capacity.free) + if old(hydraController) then 1 else 0
    {
      if hydraController {
        capacity.Release();
        hydraController := false;
      }
    }

    method KexRequested(req: KexRequest) returns (reply: Option<Reply>)
      requires stage.Idle?
      modifies this, capacity
      ensures (View(), capacity.free, reply) == OnKex(old(View()), old(capacity.free), hydras, req)
    {
      DropController();
      if !hydras {
        return Some(Unsupported);
      }
      if req.accepted.Some? {
        if initialHydraKex.None? {
          return Some(SetupError);
        }
        var p := initialHydraKex.value;
        initialHydraKex := None;
        if p.request != req.(accepted := None) || req.accepted.value != p.response.proposed {
          capacity.Release();
          return Some(SetupError);
        }
        stage := Finalizing(p.response);
        return None;
      }
      var ok := capacity.TryAcquire();
      if !ok {
        return Some(SetupError);
      }
      stage := Initializing(req);
      return None;
    }

    method KexInitialized(port: Option<nat>) returns (reply: Reply)
      requires stage.Initializing?
      modifies this, capacity
      ensures (View(), capacity.free, reply) == OnInitialized(old(View()), old(capacity.free), port)
    {
      match port {
        case None =>
          capacity.Release();
          reply := SetupError;
        case Some(p) =>
          if initialHydraKex.Some? {
            capacity.Release();
          }
          initialHydraKex := Some(Pending(stage.request, KexResponse(p, false)));
          reply := Agreed(KexResponse(p, false));
      }
      stage := Idle;
    }

    method KexFinalized(spawned: bool) returns (reply: Reply)
      requires stage.Finalizing?
      modifies this, capacity
      ensures (View(), capacity.free, reply) == OnFinalized(old(View()), old(capacity.free), spawned)
    {
      if spawned {
        hydraController := true;
        reply := Agreed(stage.response.(done := true));
      } else {
        capacity.Release();
        reply := SetupError;
      }
      stage := Idle;
    }

    /** The event loop is over: everything the connection holds is dropped. */
    method Finished()
      requires stage.Idle?
      modifies this, capacity
      ensures (View(), capacity.free) == OnFinish(old(View()), old(capacity.free))
    {
      DropController();
      if initialHydraKex.Some? {
        capacity.Release();
        initialHydraKex := None;
      }
    }
  }

  // ------------------------------------------------------------------ all connections

  datatype World = World(free: nat, conns: seq<Conn>)

  datatype Step =
    | Connect
    | Kex(c: nat, request: KexRequest)
    | Initialized(c: nat, port: Option<nat>)
    | Finalized(c: nat, spawned: bool)
    | Finish(c: nat)

  function Start(max: nat): World {
    World(max, [])
  }

  predicate Enabled(w: World, step: Step) {
    match step
    case Connect => true
    case Kex(c, _) => c < |w.conns| && w.conns[c].stage.Idle?
    case Initialized(c, _) => c < |w.conns| && w.conns[c].stage.Initializing?
    case Finalized(c, _) => c < |w.conns| && w.conns[c].stage.Finalizing?
    case Finish(c) => c < |w.conns| && w.conns[c].stage.Idle?
  }

  function After(hydras: bool, w: World, step: Step): World
    requires Enabled(w, step)
  {
    match step
    case Connect => w.(conns := w.conns + [NewConn()])
    case Kex(c, request) =>
      var (conn, free, _) := OnKex(w.conns[c], w.free, hydras, request);
      World(free, w.conns[c := conn])
    case Initialized(c, port) =>
      var (conn, free, _) := OnInitialized(w.conns[c], w.free, port);
      World(free, w.conns[c := conn])
    case Finalized(c, spawned) =>
      var (conn, free, _) := OnFinalized(w.conns[c], w.free, spawned);
      World(free, w.conns[c := conn])
    case Finish(c) =>
      var (conn, free) := OnFinish(w.conns[c], w.free);
      World(free, w.conns[c := conn])
  }

  predicate Possible(hydras: bool, w: World, steps: seq<Step>)
    decreases |steps|
  {
    steps == [] || (Enabled(w, steps[0]) && Possible(hydras, After(hydras, w, steps[0]), steps[1..]))
  }

  function Run(hydras: bool, w: World, steps: seq<Step>): World
    requires Possible(hydras, w, steps)
    decreases |steps|
  {
    if steps == [] then w else Run(hydras, After(hydras, w, steps[0]), steps[1..])
  }

  /** The permits that some connection holds. */
  function Held(conns: seq<Conn>): nat {
    if conns == [] then 0 else Held(conns[..|conns| - 1]) + Permits(conns[|conns| - 1])
  }

  function Controllers(conns: seq<Conn>): nat {
    if conns == [] then 0
    else Controllers(conns[..|conns| - 1]) + (if conns[|conns| - 1].controller then 1 else 0)
  }

  lemma {:induction false} Replaced(conns: seq<Conn>, c: nat, conn: Conn)
    requires c < |conns|
    ensures Held(conns[c := conn]) == Held(conns) - Permits(conns[c]) + Permits(conn)
    decreases |conns|
  {
    var n := |conns| - 1;
    if c < n {
      Replaced(conns[..n], c, conn);
      assert conns[c := conn][..n] == conns[..n][c := conn];
    } else {
      assert conns[c := conn][..n] == conns[..n];
    }
  }

  lemma {:induction false} ControllersHold(conns: seq<Conn>)
    ensures Controllers(conns) <= Held(conns)
  {
    if conns != [] {
      ControllersHold(conns[..|conns| - 1]);
    }
  }

  lemma KexConserves(c: Conn, free: nat, hydras: bool, req: KexRequest)
    requires c.stage.Idle?
    ensures var (d, f, _) := OnKex(c, free, hydras, req); f + Permits(d) == free + Permits(c)
  {
  }

  lemma InitializedConserves(c: Conn, free: nat, port: Option<nat>)
    requires c.stage.Initializing?
    ensures var (d, f, _) := OnInitialized(c, free, port); f + Permits(d) == free + Permits(c)
  {
  }

  lemma FinalizedConserves(c: Conn, free: nat, spawned: bool)
    requires c.stage.Finalizing? && !c.controller
    ensures var (d, f, _) := OnFinalized(c, free, spawned); f + Permits(d) == free + Permits(c)
  {
  }

  /** A connection in the middle of an exchange has no controller; permits are held or free. */
  predicate Inv(max: nat, w: World) {
    && (forall c <- w.conns :: c.stage.Idle? || !c.controller)
    && w.free + Held(w.conns) == max
  }

  lemma StepKeepsInv(hydras: bool, max: nat, w: World, step: Step)
    requires Inv(max, w) && Enabled(w, step)
    ensures Inv(max, After(hydras, w, step))
  {
    match step
    case Connect =>
      assert (w.conns + [NewConn()])[..|w.conns|] == w.conns;
    case Kex(c, request) =>
      KexConserves(w.conns[c], w.free, hydras, request);
      Replaced(w.conns, c, OnKex(w.conns[c], w.free, hydras, request).0);
    case Initialized(c, port) =>
      InitializedConserves(w.conns[c], w.free, port);
      Replaced(w.conns, c, OnInitialized(w.conns[c], w.free, port).0);
    case Finalized(c, spawned) =>
      FinalizedConserves(w.conns[c], w.free, spawned);
      Replaced(w.conns, c, OnFinalized(w.conns[c], w.free, spawned).0);
    case Finish(c) => Replaced(w.conns, c, NewConn());
  }

  lemma {:induction false} RunKeepsInv(hydras: bool, max: nat, w: World, steps: seq<Step>)
    requires Inv(max, w) && Possible(hydras, w, steps)
    ensures Inv(max, Run(hydras, w, steps))
    decreases |steps|
  {
    if steps != [] {
      StepKeepsInv(hydras, max, w, steps[0]);
      RunKeepsInv(hydras, max, After(hydras, w, steps[0]), steps[1..]);
    }
  }

  /** In every interleaving, pending exchanges, live controllers and free permits add up to the maximum. */
  lemma PermitsAreConserved(hydras: bool, max: nat, steps: seq<Step>)
    requires Possible(hydras, Start(max), steps)
    ensures var w := Run(hydras, Start(max), steps);
      w.free + Held(w.conns) == max && Controllers(w.conns) <= max
  {
    RunKeepsInv(hydras, max, Start(max), steps);
    ControllersHold(Run(hydras, Start(max), steps).conns);
  }

  lemma {:induction false} NothingHeld(conns: seq<Conn>)
    requires forall c <- conns :: Permits(c) == 0
    ensures Held(conns) == 0
  {
    if conns != [] {
      NothingHeld(conns[..|conns| - 1]);
    }
  }

  /** Once no connection has an exchange or a controller, every permit is free again. */
  lemma PermitsReturn(hydras: bool, max: nat, steps: seq<Step>)
    requires Possible(hydras, Start(max), steps)
    requires forall c <- Run(hydras, Start(max), steps).conns :: Permits(c) == 0
    ensures Run(hydras, Start(max), steps).free == max
  {
    PermitsAreConserved(hydras, max, steps);
    NothingHeld(Run(hydras, Start(max), steps).conns);
  }

  /** A second request proceeds iff it accepts the pending offer, which it uses up either way. */
  lemma OfferIsUsedOnce(c: Conn, free: nat, hydras: bool, req: KexRequest)
    requires c.stage.Idle?
    ensures var (d, _, _) := OnKex(c, free, hydras, req);
      && (d.stage.Finalizing? <==> hydras && c.pending.Some? && Matches(c.pending.value, req))
      && (hydras && req.accepted.Some? ==> d.pending.None?)
      && !d.controller
  {
  }

  /**
   A first request gets its permit exactly when one is free or its own controller gives one up.
   A pending offer of the same connection is no help: it is replaced only afterwards.
   */
  lemma FirstRequestIsAdmittedIff(c: Conn, free: nat, req: KexRequest)
    requires c.stage.Idle? && req.accepted.None?
    ensures OnKex(c, free, true, req).0.stage.Initializing? <==> free > 0 || c.controller
    ensures OnKex(c, free, true, req).0.pending == c.pending
  {
  }

  // ------------------------------------------------------------------ offers and controllers

  function Flag(b: bool): nat {
    if b then 1 else 0
  }

  /** The offers made on connection `c`, and the controllers started on it. */
  function Offers(c: nat, steps: seq<Step>): nat {
    if steps == [] then 0
    else Flag(steps[0].Initialized? && steps[0].c == c && steps[0].port.Some?) + Offers(c, steps[1..])
  }

  function Starts(c: nat, steps: seq<Step>): nat {
    if steps == [] then 0
    else Flag(steps[0].Finalized? && steps[0].c == c && steps[0].spawned) + Starts(c, steps[1..])
  }

  /** The offers of the connection that can still lead to a controller. */
  function OpenOffers(w: World, c: nat): nat {
    if c < |w.conns| then Flag(w.conns[c].pending.Some?) + Flag(w.conns[c].stage.Finalizing?) else 0
  }

  lemma StepSpendsOffers(hydras: bool, w: World, step: Step, c: nat)
    requires Enabled(w, step)
    ensures Starts(c, [step]) + OpenOffers(After(hydras, w, step), c) <= OpenOffers(w, c) + Offers(c, [step])
  {
    assert [step][1..] == [];
  }

  /**
   In every interleaving, and on every connection: a controller starts only from an offer that was
   made on this connection, and each offer starts at most one.
   */
  lemma {:induction false} EveryStartHadItsOffer(hydras: bool, w: World, steps: seq<Step>, c: nat)
    requires Possible(hydras, w, steps)
    ensures Starts(c, steps) + OpenOffers(Run(hydras, w, steps), c) <= OpenOffers(w, c) + Offers(c, steps)
    decreases |steps|
  {
    if steps != [] {
      StepSpendsOffers(hydras, w, steps[0], c);
      EveryStartHadItsOffer(hydras, After(hydras, w, steps[0]), steps[1..], c);
      assert [steps[0]][1..] == [];
    }
  }

  // ------------------------------------------------------------------ what was offered and what is accepted

  /** What has been said on a connection: the request being answered, and the offer that stands. */
  datatype Talk = Talk(asked: Option<KexRequest>, offer: Option<(KexRequest, nat)>)

  /** Read off the steps alone: the last first request, and the port it was given, until that is used or replaced. */
  function TalkOf(c: nat, hydras: bool, steps: seq<Step>): Talk {
    if steps == [] then Talk(None, None)
    else
      var t, last := TalkOf(c, hydras, steps[..|steps| - 1]), steps[|steps| - 1];
      match last
      case Kex(d, req) =>
        if d != c || !hydras then t
        else if req.accepted.None? then t.(asked := Some(req)) else t.(offer := None)
      case Initialized(d, port) =>
        if d == c && port.Some? && t.asked.Some? then t.(offer := Some((t.asked.value, port.value))) else t
      case Finish(d) => if d == c then Talk(None, None) else t
      case _ => t
  }

  /** The connection remembers just the standing offer, and the request it is answering. */
  predicate Remembers(w: World, c: nat, t: Talk) {
    if c < |w.conns| then
      && (w.conns[c].pending == if t.offer.Some?
            then Some(Pending(t.offer.value.0, KexResponse(t.offer.value.1, false))) else None)
      && (w.conns[c].stage.Initializing? ==> t.asked == Some(w.conns[c].stage.request))
    else t == Talk(None, None)
  }

  lemma StepRemembers(hydras: bool, w: World, step: Step, c: nat, steps: seq<Step>)
    requires Enabled(w, step) && Remembers(w, c, TalkOf(c, hydras, steps))
    requires !hydras ==> c >= |w.conns| || (w.conns[c].pending.None? && !w.conns[c].stage.Initializing?)
    ensures Remembers(After(hydras, w, step), c, TalkOf(c, hydras, steps + [step]))
    ensures !hydras ==>
      var next := After(hydras, w, step);
      c >= |next.conns| || (next.conns[c].pending.None? && !next.conns[c].stage.Initializing?)
  {
    assert (steps + [step])[..|steps|] == steps;
  }

  lemma {:induction false} RunSplit(hydras: bool, w: World, steps: seq<Step>)
    requires Possible(hydras, w, steps) && steps != []
    ensures var n := |steps| - 1;
      && Possible(hydras, w, steps[..n]) && Enabled(Run(hydras, w, steps[..n]), steps[n])
      && Run(hydras, w, steps) == After(hydras, Run(hydras, w, steps[..n]), steps[n])
    decreases |steps|
  {
    var n := |steps| - 1;
    if n > 0 {
      RunSplit(hydras, After(hydras, w, steps[0]), steps[1..]);
      assert steps[1..][..n - 1] == steps[..n][1..];
    }
  }

  lemma {:induction false} RunRemembers(hydras: bool, max: nat, steps: seq<Step>, c: nat)
    requires Possible(hydras, Start(max), steps)
    ensures var w := Run(hydras, Start(max), steps);
      && Remembers(w, c, TalkOf(c, hydras, steps))
      && (!hydras ==> c >= |w.conns| || (w.conns[c].pending.None? && !w.conns[c].stage.Initializing?))
    decreases |steps|
  {
    if steps != [] {
      var n := |steps| - 1;
      RunSplit(hydras, Start(max), steps);
      RunRemembers(hydras, max, steps[..n], c);
      StepRemembers(hydras, Run(hydras, Start(max), steps[..n]), steps[n], c, steps[..n]);
      assert steps[..n] + [steps[n]] == steps;
    }
  }

  /**
   In every interleaving: a second request goes on to start a controller iff it repeats the request of the
   offer that stands on its connection, and accepts the port that this offer named; and it is for that port.
   */
  lemma OnlyTheStandingOfferCounts(hydras: bool, max: nat, steps: seq<Step>, c: nat, req: KexRequest)
    requires Possible(hydras, Start(max), steps)
    requires Enabled(Run(hydras, Start(max), steps), Kex(c, req))
    ensures var offer := TalkOf(c, hydras, steps).offer;
      var stage := After(hydras, Run(hydras, Start(max), steps), Kex(c, req)).conns[c].stage;
      && (stage.Finalizing? <==>
            hydras && offer.Some? && offer.value.0 == req.(accepted := None) && req.accepted == Some(offer.value.1))
      && (stage.Finalizing? ==> req.accepted == Some(stage.response.proposed))
  {
    RunRemembers(hydras, max, steps, c);
  }

  /** The bridge is told the very port that its connection remembers, or that the controller was started for. */
  lemma RepliesNameThePort(c: Conn, free: nat, port: Option<nat>, spawned: bool)
    ensures c.stage.Initializing? ==>
      var (d, _, reply) := OnInitialized(c, free, port);
      if port.Some? then
        reply == Agreed(KexResponse(port.value, false)) && d.pending == Some(Pending(c.stage.request, reply.response))
      else reply == SetupError && d.pending == c.pending
    ensures c.stage.Finalizing? ==>
      var (d, _, reply) := OnFinalized(c, free, spawned);
      if spawned then reply == Agreed(KexResponse(c.stage.response.proposed, true)) && d.controller
      else reply == SetupError && d.controller == c.controller
  {
  }

  /**
   In every interleaving: a request is answered at once, with no port, iff the platform has no hydras, or it
   accepts what is not offered on its connection, or it asks for an offer while every permit is held, and none
   of them by a controller of its own connection, which would be dropped first.
   */
  lemma RefusedAtOnceIff(hydras: bool, max: nat, steps: seq<Step>, c: nat, req: KexRequest)
    requires Possible(hydras, Start(max), steps)
    requires Enabled(Run(hydras, Start(max), steps), Kex(c, req))
    ensures var w, offer := Run(hydras, Start(max), steps), TalkOf(c, hydras, steps).offer;
      var reply := OnKex(w.conns[c], w.free, hydras, req).2;
      var offered := offer.Some? && offer.value.0 == req.(accepted := None) && req.accepted == Some(offer.value.1);
      && (reply == Some(Unsupported) <==> !hydras)
      && (reply == Some(SetupError) <==>
            hydras && if req.accepted.Some? then !offered else Held(w.conns) == max && !w.conns[c].controller)
      && (reply.Some? ==> reply.value.Unsupported? || reply.value.SetupError?)
  {
    RunRemembers(hydras, max, steps, c);
    PermitsAreConserved(hydras, max, steps);
  }
}
