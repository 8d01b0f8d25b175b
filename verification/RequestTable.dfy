/**
 The requests a gateway has passed to one relay: a table of the ones in progress,
 their answers, and their billing. A clean-up task prunes the table at any moment.
 */
module RequestTable {
  import opened Prelude

  type Id = nat

  /** A failure made up by the gateway itself. */
  datatype Failure = Failure(id: Id, code: nat)

  /** `Sending` is the wait between filing a request and knowing whether it was sent. */
  datatype Phase = Serving | Sending(id: Id) | Draining | Finished

  /** `waiting` tells the requests in progress, and which of them are our own health checks. */
  datatype Table = Table(waiting: map<Id, bool>, sent: nat, received: nat, controller: bool, phase: Phase)

  /**
   Everything that ever happened to requests: which were taken from the mailbox, got the
   relay's answer, were failed, or expired, and what was billed. `refused` counts those that
   expired before they turned out not to be sent, `lost` those failed when the connection ended.
   */
  datatype Log = Log(
    taken: set<Id>,
    healthChecks: set<Id>,
    answered: multiset<Id>,
    failed: multiset<Failure>,
    expired: multiset<Id>,
    billed: multiset<Id>,
    refused: nat,
    lost: nat)

  const NOTHING: Log := Log({}, {}, multiset{}, multiset{}, multiset{}, multiset{}, 0, 0)

  /** Seconds that the clean-up task allows a request beyond its expiry. */
  const SAFETY_MARGIN := 10

  const BAD_REQUEST := 400
  const BAD_GATEWAY := 502

  // ------------------------------------------------------------------ specification

  function Without(waiting: map<Id, bool>, gone: set<Id>): map<Id, bool> {
    map id | id in waiting && id !in gone :: waiting[id]
  }

  function Fail(l: Log, id: Id, code: nat): Log {
    l.(failed := l.failed + multiset{Failure(id, code)})
  }

  /** A request is filed before it is sent. */
  function File(t: Table, l: Log, id: Id, healthCheck: bool): (Table, Log) {
    (t.(waiting := t.waiting[id := healthCheck], phase := Sending(id)),
     l.(taken := l.taken + {id}, healthChecks := if healthCheck then l.healthChecks + {id} else l.healthChecks))
  }

  /** A request that cannot be sent is failed, unless it has expired meanwhile, and ends the connection. */
  function Sent(t: Table, l: Log, ok: bool): (Table, Log)
    requires t.phase.Sending?
  {
    var id := t.phase.id;
    if ok then (t.(sent := t.sent + 1, phase := Serving), l)
    else if id in t.waiting then (t.(waiting := Without(t.waiting, {id}), phase := Draining), Fail(l, id, BAD_REQUEST))
    else (t.(phase := Draining), l.(refused := l.refused + 1))
  }

  /** A response goes to the requester that waits for it, if any. */
  function PassOn(t: Table, l: Log, id: Id): (Table, Log) {
    if id in t.waiting then
      (t.(waiting := Without(t.waiting, {id}), received := t.received + 1), l.(answered := l.answered + multiset{id}))
    else (t, l)
  }

  predicate Billable(t: Table, id: Id, code: nat) {
    t.controller && 200 <= code < 500 && id in t.waiting && !t.waiting[id]
  }

  function Respond(t: Table, l: Log, id: Id, code: nat): (Table, Log) {
    var (u, m) := PassOn(t, l, id);
    (u, if Billable(t, id, code) then m.(billed := m.billed + multiset{id}) else m)
  }

  function CleanUp(t: Table, l: Log, gone: set<Id>): (Table, Log) {
    (t.(waiting := Without(t.waiting, gone)), l.(expired := l.expired + multiset(gone)))
  }

  function Expired(waiting: map<Id, bool>, expires: map<Id, nat>, now: nat): set<Id>
    requires waiting.Keys <= expires.Keys
  {
    set id | id in waiting && expires[id] + SAFETY_MARGIN <= now
  }

  /** A request still in the mailbox when the connection is over is failed without being filed. */
  function Turn(t: Table, l: Log, id: Id, healthCheck: bool): (Table, Log) {
    (t, Fail(l.(taken := l.taken + {id}, healthChecks := if healthCheck then l.healthChecks + {id} else l.healthChecks),
             id, BAD_GATEWAY))
  }

  function Failures(ids: set<Id>, code: nat): multiset<Failure> {
    multiset(set id <- ids :: Failure(id, code))
  }

  function FailAll(t: Table, l: Log): (Table, Log) {
    (t.(waiting := map[], phase := Finished),
     l.(failed := l.failed + Failures(t.waiting.Keys, BAD_GATEWAY), lost := l.lost + |t.waiting|))
  }

  // ------------------------------------------------------------------ the connection

  class RelayConnection {
    var inProgress: map<Id, bool>
    var requestsSent: nat
    var responsesReceived: nat
    var hydraController: bool
    var phase: Phase
    ghost var log: Log

    ghost function View(): Table
      reads this
    {
      Table(inProgress, requestsSent, responsesReceived, hydraController, phase)
    }

    constructor ()
      ensures View() == Table(map[], 0, 0, false, Serving)
      ensures log == NOTHING
    {
      inProgress, requestsSent, responsesReceived, hydraController, phase := map[], 0, 0, false, Serving;
      log := NOTHING;
    }

    method Remove(id: Id) returns (found: Option<bool>)
      modifies this`inProgress
      ensures found == if id in old(inProgress) then Some(old(inProgress)[id]) else None
      ensures inProgress == Without(old(inProgress), {id})
    {
      found := if id in inProgress then Some(inProgress[id]) else None;
      inProgress := inProgress - {id};
    }

    method FailRequest(id: Id, code: nat)
      modifies this`log
      ensures log == Fail(old(log), id, code)
    {
      log := log.(failed := log.failed + multiset{Failure(id, code)});
    }

    method PassOnRequest(id: Id, healthCheck: bool)
      requires phase.Serving?
      modifies this
      ensures (View(), log) == File(old(View()), old(log), id, healthCheck)
    {
      inProgress := inProgress[id := healthCheck];
      phase := Sending(id);
      log := log.(taken := log.taken + {id},
                  healthChecks := if healthCheck then log.healthChecks + {id} else log.healthChecks);
    }

    method RequestSent(ok: bool)
      requires phase.Sending?
      modifies this
      ensures (View(), log) == Sent(old(View()), old(log), ok)
    {
      if ok {
        requestsSent := requestsSent + 1;
        phase := Serving;
      } else {
        var id := phase.id;
        var found := Remove(id);
        if found.Some? {
          FailRequest(id, BAD_REQUEST);
        } else {
          assert inProgress == old(inProgress);
          log := log.(refused := log.refused + 1);
        }
        phase := Draining;
      }
    }

    method PassOnResponse(id: Id) returns (isHealthCheck: Option<bool>)
      modifies this
      ensures (View(), log) == PassOn(old(View()), old(log), id)
      ensures isHealthCheck == if id in old(inProgress) then Some(old(inProgress)[id]) else None
    {
      isHealthCheck := Remove(id);
      if isHealthCheck.Some? {
        responsesReceived := responsesReceived + 1;
        log := log.(answered := log.answered + multiset{id});
      } else {
        assert inProgress == old(inProgress);
      }
    }

    method OnResponse(id: Id, code: nat)
      requires phase.Serving?
      modifies this
      ensures (View(), log) == Respond(old(View()), old(log), id, code)
    {
      var isHealthCheck := PassOnResponse(id);
      if hydraController && 200 <= code < 500 && isHealthCheck == Some(false) {
        log := log.(billed := log.billed + multiset{id});
      }
    }

    /** A request found in the mailbox after the connection is over. */
    method TurnAway(id: Id, healthCheck: bool)
      requires phase.Draining?
      modifies this`log
      ensures (View(), log) == Turn(old(View()), old(log), id, healthCheck)
    {
      log := log.(taken := log.taken + {id},
                  healthChecks := if healthCheck then log.healthChecks + {id} else log.healthChecks);
      FailRequest(id, BAD_GATEWAY);
    }

    /** One round of the clean-up task: every request that has expired leaves the table. */
    method CleanUpExpired(expires: map<Id, nat>, now: nat)
      requires inProgress.Keys <= expires.Keys
      modifies this
      ensures (View(), log) == CleanUp(old(View()), old(log), Expired(old(inProgress), expires, now))
    {
      var keys := inProgress.Keys;
      ghost var was := inProgress;
      ghost var gone: set<Id> := {};
      while keys != {}
        invariant keys <= was.Keys
        invariant gone == Expired(was, expires, now) - keys
        invariant inProgress == Without(was, gone)
        decreases |keys|
        modifies this`inProgress
      {
        var id :| id in keys;
        keys := keys - {id};
        if expires[id] + SAFETY_MARGIN <= now {
          inProgress := inProgress - {id};
          gone := gone + {id};
        }
      }
      log := log.(expired := log.expired + multiset(gone));
      assert gone == Expired(was, expires, now);
    }

    /** Fails the requests one by one, in any order. */
    method FailEach(ids: set<Id>)
      modifies this`log
      ensures log == old(log).(failed := old(log).failed + Failures(ids, BAD_GATEWAY))
    {
      var rest := ids;
      ghost var done: set<Id> := {};
      while rest != {}
        invariant done !! rest && done + rest == ids
        invariant log == old(log).(failed := old(log).failed + Failures(done, BAD_GATEWAY))
        decreases |rest|
      {
        var id :| id in rest;
        FailRequest(id, BAD_GATEWAY);
        OneMoreFailure(done, id, BAD_GATEWAY);
        rest, done := rest - {id}, done + {id};
      }
      assert done == ids;
    }

    /** The connection is over: what is still in progress is failed. */
    method FailRemaining()
      requires phase.Draining?
      modifies this
      ensures (View(), log) == FailAll(old(View()), old(log))
    {
      FailEach(inProgress.Keys);
      log := log.(lost := log.lost + |inProgress|);
      inProgress := map[];
      phase := Finished;
    }
  }

  lemma OneMoreFailure(ids: set<Id>, id: Id, code: nat)
    requires id !in ids
    ensures Failures(ids + {id}, code) == Failures(ids, code) + multiset{Failure(id, code)}
  {
    var fs := set i <- ids :: Failure(i, code);
    assert (set i <- ids + {id} :: Failure(i, code)) == fs + {Failure(id, code)};
    assert Failure(id, code) !in fs;
  }
}
