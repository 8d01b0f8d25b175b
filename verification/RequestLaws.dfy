/** Every request taken from the mailbox has exactly one fate, in every interleaving with the clean-up task. */
module RequestLaws {
  import opened RequestTable

  /** `expires` tells when the requester of a request stops waiting. */
  datatype World = World(table: Table, log: Log, expires: map<Id, nat>)

  datatype Step =
    | Request(id: Id, healthCheck: bool, expires: nat)
    | SendEnds(ok: bool)
    | Response(id: Id, code: nat)
    | Expire(now: nat)
    | SetController(present: bool)
    | Break
    | FailRest

  function Start(): World {
    World(Table(map[], 0, 0, false, Serving), NOTHING, map[])
  }

  /** Request ids are new: they are random UUIDs. */
  predicate Enabled(w: World, step: Step) {
    match step
    case Request(id, _, _) => (w.table.phase.Serving? || w.table.phase.Draining?) && id !in w.log.taken
    case SendEnds(_) => w.table.phase.Sending?
    case Response(_, _) => w.table.phase.Serving? || w.table.phase.Draining?
    case Expire(_) => !w.table.phase.Finished? && w.table.waiting.Keys <= w.expires.Keys
    case SetController(_) | Break => w.table.phase.Serving?
    case FailRest => w.table.phase.Draining?
  }

  function With(w: World, p: (Table, Log)): World {
    w.(table := p.0, log := p.1)
  }

  /** While draining, requests are turned away and responses are passed on but no longer billed. */
  function After(w: World, step: Step): World
    requires Enabled(w, step)
  {
    var t, l := w.table, w.log;
    match step
    case Request(id, hc, expires) =>
      With(w, if t.phase.Serving? then File(t, l, id, hc) else Turn(t, l, id, hc)).(expires := w.expires[id := expires])
    case SendEnds(ok) => With(w, Sent(t, l, ok))
    case Response(id, code) => With(w, if t.phase.Serving? then Respond(t, l, id, code) else PassOn(t, l, id))
    case Expire(now) => With(w, CleanUp(t, l, Expired(t.waiting, w.expires, now)))
    case SetController(present) => w.(table := t.(controller := present))
    case Break => w.(table := t.(phase := Draining))
    case FailRest => With(w, FailAll(t, l))
  }

  predicate Possible(w: World, steps: seq<Step>)
    decreases |steps|
  {
    steps == [] || (Enabled(w, steps[0]) && Possible(After(w, steps[0]), steps[1..]))
  }

  function Run(w: World, steps: seq<Step>): World
    requires Possible(w, steps)
    decreases |steps|
  {
    if steps == [] then w else Run(After(w, steps[0]), steps[1..])
  }

  // ------------------------------------------------------------------ invariant

  /** How often the requester of `id` got an answer: the relay's, or a failure of our own. */
  function Answers(l: Log, id: Id): nat {
    l.answered[id] + l.failed[Failure(id, BAD_REQUEST)] + l.failed[Failure(id, BAD_GATEWAY)]
  }

  /** A taken request is waiting, answered or expired, in exactly one way; others are unknown. */
  predicate OneFate(w: World, id: Id) {
    Answers(w.log, id) + w.log.expired[id] + (if id in w.table.waiting then 1 else 0)
    == if id in w.log.taken then 1 else 0
  }

  ghost predicate Fates(w: World) {
    forall id: Id :: OneFate(w, id)
  }

  predicate Counted(w: World) {
    var t, l := w.table, w.log;
    && t.received == |l.answered|
    && t.sent + l.refused + (if t.phase.Sending? then 1 else 0) == t.received + |t.waiting| + |l.expired| + l.lost
    && (l.refused > 0 ==> l.refused == 1 && (t.phase.Draining? || t.phase.Finished?))
    && (l.lost > 0 ==> t.phase.Finished?)
    && (t.phase.Finished? ==> t.waiting == map[])
  }

  ghost predicate Billed(w: World) {
    && (forall id <- w.table.waiting :: id in w.log.taken && w.table.waiting[id] == (id in w.log.healthChecks))
    && w.log.healthChecks <= w.log.taken
    && (forall id: Id :: w.log.billed[id] <= w.log.answered[id])
    && (forall id <- w.log.healthChecks :: w.log.billed[id] == 0)
  }

  ghost predicate Inv(w: World) {
    Fates(w) && Counted(w) && Billed(w) && w.table.waiting.Keys <= w.expires.Keys
  }

  // ------------------------------------------------------------------ preservation

  lemma WithoutSize(waiting: map<Id, bool>, gone: set<Id>)
    requires gone <= waiting.Keys
    ensures |Without(waiting, gone)| == |waiting| - |gone|
  {
    assert Without(waiting, gone).Keys == waiting.Keys - gone;
  }

  lemma FailuresAt(ids: set<Id>, code: nat, id: Id, other: nat)
    ensures Failures(ids, code)[Failure(id, other)] == if id in ids && other == code then 1 else 0
  {
    var fs := set i <- ids :: Failure(i, code);
    assert Failures(ids, code) == multiset(fs);
    assert Failure(id, other) in fs <==> id in ids && other == code;
  }

  lemma FateKept(w: World, step: Step, id: Id)
    requires OneFate(w, id) && Enabled(w, step) && !step.FailRest?
    ensures OneFate(After(w, step), id)
  {
  }

  lemma FateSealed(w: World, id: Id)
    requires OneFate(w, id) && Enabled(w, FailRest)
    ensures OneFate(After(w, FailRest), id)
  {
    FailuresAt(w.table.waiting.Keys, BAD_GATEWAY, id, BAD_GATEWAY);
    FailuresAt(w.table.waiting.Keys, BAD_GATEWAY, id, BAD_REQUEST);
  }

  lemma StepKeepsFates(w: World, step: Step)
    requires Fates(w) && Enabled(w, step)
    ensures Fates(After(w, step))
  {
    forall id: Id
      ensures OneFate(After(w, step), id)
    {
      assert OneFate(w, id);
      if step.FailRest? {
        FateSealed(w, id);
      } else {
        FateKept(w, step, id);
      }
    }
  }

  lemma StepKeepsCounts(w: World, step: Step)
    requires Inv(w) && Enabled(w, step)
    ensures Counted(After(w, step))
  {
    match step
    case Request(id, _, _) => assert OneFate(w, id);
    case SendEnds(_) =>
      if w.table.phase.id in w.table.waiting {
        WithoutSize(w.table.waiting, {w.table.phase.id});
      }
    case Response(id, _) =>
      if id in w.table.waiting {
        WithoutSize(w.table.waiting, {id});
      }
    case Expire(now) => WithoutSize(w.table.waiting, Expired(w.table.waiting, w.expires, now));
    case SetController(_) =>
    case Break =>
    case FailRest =>
  }

  lemma StepKeepsBilling(w: World, step: Step)
    requires Inv(w) && Enabled(w, step)
    ensures Billed(After(w, step))
  {
    match step
    case Request(id, _, _) => assert OneFate(w, id);
    case SendEnds(_) =>
    case Response(id, code) => ResponseKeepsBilling(w, id, code);
    case Expire(_) =>
    case SetController(_) =>
    case Break =>
    case FailRest =>
  }

  lemma ResponseKeepsBilling(w: World, id: Id, code: nat)
    requires Billed(w) && Enabled(w, Response(id, code))
    ensures Billed(After(w, Response(id, code)))
  {
  }

  lemma {:induction false} RunKeepsInv(w: World, steps: seq<Step>)
    requires Inv(w) && Possible(w, steps)
    ensures Inv(Run(w, steps))
    decreases |steps|
  {
    if steps != [] {
      StepKeepsFates(w, steps[0]);
      StepKeepsCounts(w, steps[0]);
      StepKeepsBilling(w, steps[0]);
      RunKeepsInv(After(w, steps[0]), steps[1..]);
    }
  }

  // ------------------------------------------------------------------ what holds of every run

  lemma StartInv()
    ensures Inv(Start())
  {
  }

  /**
   Each request is answered at most once, and billed at most once, for the relay's answer and never for
   a health check.
   */
  lemma AnsweredAndBilledOnce(steps: seq<Step>, id: Id)
    requires Possible(Start(), steps)
    ensures var l := Run(Start(), steps).log;
      && Answers(l, id) <= 1 && l.billed[id] <= l.answered[id]
      && (id in l.healthChecks || id !in l.taken ==> l.billed[id] == 0)
      && (id !in l.taken ==> Answers(l, id) == 0)
  {
    StartInv();
    RunKeepsInv(Start(), steps);
    assert OneFate(Run(Start(), steps), id);
  }

  /**
   Between events, the requests sent are those answered, in progress and expired. The count is
   off by one only after a request expired between being filed and failing to be sent.
   */
  lemma SentIsConserved(steps: seq<Step>)
    requires Possible(Start(), steps)
    ensures var w := Run(Start(), steps);
      && (w.table.phase.Serving? || w.table.phase.Draining? ==>
           w.table.sent + w.log.refused == w.table.received + |w.table.waiting| + |w.log.expired|)
      && (w.table.phase.Serving? ==> w.log.refused == 0) && w.log.refused <= 1
  {
    StartInv();
    RunKeepsInv(Start(), steps);
  }

  /** When the connection is over the table is empty, and every request taken was answered once or had expired. */
  lemma NothingIsForgotten(steps: seq<Step>)
    requires Possible(Start(), steps) && Run(Start(), steps).table.phase.Finished?
    ensures var w := Run(Start(), steps);
      && w.table.waiting == map[]
      && forall id <- w.log.taken :: Answers(w.log, id) + w.log.expired[id] == 1
  {
    StartInv();
    RunKeepsInv(Start(), steps);
    var w := Run(Start(), steps);
    forall id <- w.log.taken
      ensures Answers(w.log, id) + w.log.expired[id] == 1
    {
      assert OneFate(w, id);
    }
  }

  /** A response to a request that is unknown, or already answered, failed or expired, changes nothing. */
  lemma StrayResponseIsIgnored(steps: seq<Step>, id: Id, code: nat)
    requires Possible(Start(), steps)
    requires var w := Run(Start(), steps);
      && Enabled(w, Response(id, code))
      && (id !in w.log.taken || Answers(w.log, id) > 0 || w.log.expired[id] > 0)
    ensures After(Run(Start(), steps), Response(id, code)) == Run(Start(), steps)
  {
    StartInv();
    RunKeepsInv(Start(), steps);
    assert OneFate(Run(Start(), steps), id);
  }

  /**
   A response is billed exactly when it answers a user's request, with a billable code, while the relay
   has a controller and serves.
   */
  lemma BilledIff(w: World, id: Id, code: nat)
    requires Inv(w) && Enabled(w, Response(id, code))
    ensures var l := After(w, Response(id, code)).log;
      l.billed != w.log.billed
      <==> (l.answered != w.log.answered && id !in l.healthChecks && w.table.controller && 200 <= code < 500
            && w.table.phase.Serving?)
  {
    var (t, l) := PassOn(w.table, w.log, id);
    assert (w.log.billed + multiset{id})[id] == w.log.billed[id] + 1;
    assert (w.log.answered + multiset{id})[id] == w.log.answered[id] + 1;
  }

  // ------------------------------------------------------------------ how long a connection serves

  /** Nothing has gone wrong: no broken socket, no request that could not be sent. */
  predicate Healthy(steps: seq<Step>) {
    forall step <- steps :: !step.Break? && !step.FailRest? && step != SendEnds(false)
  }

  predicate Serves(t: Table) {
    t.phase.Serving? || t.phase.Sending?
  }

  lemma StepServes(w: World, step: Step)
    requires Enabled(w, step)
    ensures Serves(After(w, step).table) <==> Serves(w.table) && Healthy([step])
    ensures Serves(After(w, step).table) ==> After(w, step).log.failed == w.log.failed
  {
    assert step in [step];
  }

  lemma {:induction false} RunServes(w: World, steps: seq<Step>)
    requires Possible(w, steps)
    ensures Serves(Run(w, steps).table) <==> Serves(w.table) && Healthy(steps)
    ensures Serves(Run(w, steps).table) ==> Run(w, steps).log.failed == w.log.failed
    decreases |steps|
  {
    if steps != [] {
      StepServes(w, steps[0]);
      RunServes(After(w, steps[0]), steps[1..]);
      assert steps == [steps[0]] + steps[1..];
      assert Healthy(steps) <==> Healthy([steps[0]]) && Healthy(steps[1..]);
    }
  }

  /** A connection serves exactly as long as nothing goes wrong, and until then it fails no request. */
  lemma ServesIffHealthy(steps: seq<Step>)
    requires Possible(Start(), steps)
    ensures var w := Run(Start(), steps);
      && (Serves(w.table) <==> Healthy(steps))
      && (Healthy(steps) ==> w.log.failed == multiset{})
  {
    RunServes(Start(), steps);
  }

  /**
   As long as nothing goes wrong: a billable response to a user's request that has been sent and was neither
   answered nor expired is passed on and billed, and the connection serves on.
   */
  lemma HealthyResponseIsBilled(steps: seq<Step>, id: Id, code: nat)
    requires Possible(Start(), steps) && Healthy(steps)
    requires var w := Run(Start(), steps);
      && !w.table.phase.Sending? && id in w.log.taken && id !in w.log.healthChecks
      && w.log.answered[id] == 0 && w.log.expired[id] == 0 && w.table.controller && 200 <= code < 500
    ensures var w := Run(Start(), steps);
      Enabled(w, Response(id, code)) &&
      var next := After(w, Response(id, code));
      next.log.answered[id] == 1 && next.log.billed[id] == 1 && next.table.phase.Serving?
  {
    StartInv();
    RunKeepsInv(Start(), steps);
    RunServes(Start(), steps);
    assert OneFate(Run(Start(), steps), id);
  }

  /** The send that fails ends the connection; its request is answered with 400, unless it has expired. */
  lemma FailedSendEndsConnection(steps: seq<Step>)
    requires Possible(Start(), steps) && Healthy(steps) && Run(Start(), steps).table.phase.Sending?
    ensures var w := Run(Start(), steps);
      var id, next := w.table.phase.id, After(w, SendEnds(false));
      && next.table.phase.Draining? && id !in next.table.waiting
      && next.log.failed == if id in w.table.waiting then multiset{Failure(id, 400)} else multiset{}
  {
    RunServes(Start(), steps);
  }

  /** When a connection is over, its requests, and those that still come, are answered with 502. */
  lemma EndedConnectionAnswers502(steps: seq<Step>, id: Id, healthCheck: bool, expires: nat)
    requires Possible(Start(), steps) && Run(Start(), steps).table.phase.Draining?
    ensures var w := Run(Start(), steps);
      && (id in w.table.waiting ==> After(w, FailRest).log.failed[Failure(id, 502)] == 1)
      && (id !in w.log.taken ==>
            After(w, Request(id, healthCheck, expires)).log.failed[Failure(id, 502)] == 1)
  {
    StartInv();
    RunKeepsInv(Start(), steps);
    var w := Run(Start(), steps);
    assert OneFate(w, id);
    FailuresAt(w.table.waiting.Keys, BAD_GATEWAY, id, 502);
  }

  // ------------------------------------------------------------------ when a request expires

  /** The latest time at which the clean-up task has run. */
  function Clock(steps: seq<Step>): nat {
    if steps == [] then 0
    else
      var rest, last := Clock(steps[..|steps| - 1]), steps[|steps| - 1];
      if last.Expire? && last.now > rest then last.now else rest
  }

  predicate ExpiredBy(w: World, time: nat) {
    forall id <- w.log.expired :: id in w.expires && id in w.log.taken && w.expires[id] + 10 <= time
  }

  lemma StepExpires(w: World, step: Step, time: nat)
    requires Enabled(w, step) && ExpiredBy(w, time)
    requires forall id <- w.table.waiting :: id in w.log.taken
    ensures ExpiredBy(After(w, step), if step.Expire? && step.now > time then step.now else time)
  {
  }

  lemma {:induction false} RunSplit(w: World, steps: seq<Step>)
    requires Possible(w, steps) && steps != []
    ensures var n := |steps| - 1;
      && Possible(w, steps[..n]) && Enabled(Run(w, steps[..n]), steps[n])
      && Run(w, steps) == After(Run(w, steps[..n]), steps[n])
    decreases |steps|
  {
    var n := |steps| - 1;
    if n > 0 {
      RunSplit(After(w, steps[0]), steps[1..]);
      assert steps[1..][..n - 1] == steps[..n][1..];
    }
  }

  /** A request expires no earlier than ten seconds after its requester has stopped waiting. */
  lemma {:induction false} NothingExpiresEarly(steps: seq<Step>)
    requires Possible(Start(), steps)
    ensures ExpiredBy(Run(Start(), steps), Clock(steps))
    decreases |steps|
  {
    if steps != [] {
      var n := |steps| - 1;
      RunSplit(Start(), steps);
      NothingExpiresEarly(steps[..n]);
      StartInv();
      RunKeepsInv(Start(), steps[..n]);
      StepExpires(Run(Start(), steps[..n]), steps[n], Clock(steps[..n]));
    }
  }

  /** After a clean-up, only requests are left that have not expired for ten seconds; the others are as before. */
  lemma CleanUpIsComplete(steps: seq<Step>, now: nat)
    requires Possible(Start(), steps) && !Run(Start(), steps).table.phase.Finished?
    ensures var w := Run(Start(), steps);
      Enabled(w, Expire(now)) &&
      var next := After(w, Expire(now));
      && (forall id <- next.table.waiting :: id in w.expires && w.expires[id] + 10 > now)
      && (forall id <- w.table.waiting :: id in w.expires && (w.expires[id] + 10 > now ==> id in next.table.waiting))
  {
    StartInv();
    RunKeepsInv(Start(), steps);
  }
}
