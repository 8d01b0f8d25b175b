/** No request is lost, reordered or answered twice, however often the child process fails. */
module TestgenLaws {
  import opened Prelude
  import opened Testgen

  function Held(w: Worker): seq<Request> {
    if w.held.Some? then [w.held.value] else []
  }

  function Answered(replies: seq<Reply>): seq<Request> {
    seq(|replies|, i requires 0 <= i < |replies| => replies[i].request)
  }

  /** How often the payload of `r` was written to a child. */
  function Attempts(w: Worker, r: Request): nat {
    multiset(w.written)[r]
  }

  /** A request gets two attempts, unless it was fetched between two children. */
  function Allowed(w: Worker, r: Request): nat {
    if r in w.fetched then 1 else 2
  }

  predicate Numbers(s: seq<Request>) {
    forall i :: 0 <= i < |s| ==> s[i].number == i
  }

  predicate InOrder(w: Worker) {
    w.submitted == Answered(w.replies) + (Held(w) + w.queue)
  }

  predicate RightlyReplied(w: Worker, reply: Reply) {
    if reply.answer.Some? then 1 <= Attempts(w, reply.request) <= Allowed(w, reply.request)
    else Attempts(w, reply.request) == Allowed(w, reply.request)
  }

  /** A queued request is untouched; the held one has all but its last attempt behind it, or was never tried. */
  predicate Tried(w: Worker) {
    && (forall r <- w.queue :: Attempts(w, r) == 0 && r !in w.fetched)
    && (w.held.Some? ==> Attempts(w, w.held.value) == Allowed(w, w.held.value) - 1)
    && (forall reply <- w.replies :: RightlyReplied(w, reply))
    && (forall r <- w.written :: r in w.submitted)
    && w.fetched <= set r <- w.submitted
  }

  predicate Inv(w: Worker) {
    Numbers(w.submitted) && InOrder(w) && Tried(w)
  }

  // ------------------------------------------------------------------ preservation

  /** The requests that are answered, held and queued are all different. */
  lemma AllDifferent(w: Worker)
    requires Numbers(w.submitted) && InOrder(w)
    ensures forall i :: 0 <= i < |w.replies| ==> w.replies[i].request.number == i
    ensures w.held.Some? ==> w.held.value.number == |w.replies|
    ensures forall i :: 0 <= i < |w.queue| ==> w.queue[i].number == |w.replies| + |Held(w)| + i
    ensures forall r <- w.submitted :: r.number < |w.submitted| && w.submitted[r.number] == r
  {
    var answered := Answered(w.replies);
    forall i | 0 <= i < |w.replies|
      ensures w.replies[i].request.number == i
    {
      assert answered[i] == w.submitted[i];
    }
    if w.held.Some? {
      assert w.submitted[|answered|] == w.held.value;
    }
    forall i | 0 <= i < |w.queue|
      ensures w.queue[i].number == |w.replies| + |Held(w)| + i
    {
      assert w.submitted[|answered| + |Held(w)| + i] == w.queue[i];
    }
  }

  lemma HearKeeps(w: Worker, news: News)
    requires Inv(w)
    ensures Inv(Hear(w, news))
  {
    var v := Hear(w, news);
    if w.open {
      var more := Numbered(news.payloads, |w.submitted|);
      forall r <- more
        ensures r !in w.submitted && r !in w.fetched && Attempts(v, r) == 0
      {
        assert r.number >= |w.submitted|;
        assert r !in w.submitted;
        assert r !in w.written;
      }
      assert Answered(w.replies) + (Held(w) + w.queue) + more == Answered(w.replies) + (Held(w) + (w.queue + more));
    }
  }

  lemma TakenKeepsOrder(w: Worker)
    requires InOrder(w) && (w.held.Some? || w.queue != [])
    ensures InOrder(Taken(w))
  {
    if w.held.None? {
      assert [] + w.queue == [w.queue[0]] + w.queue[1..];
    }
  }

  lemma RepliedKeepsOrder(w: Worker, answer: Option<string>)
    requires InOrder(w) && w.held.Some?
    ensures InOrder(Replied(w, answer))
  {
    var v := Replied(w, answer);
    assert Answered(v.replies) == Answered(w.replies) + [w.held.value];
    assert Answered(w.replies) + ([w.held.value] + w.queue) == Answered(w.replies) + [w.held.value] + ([] + w.queue);
  }

  lemma OneMoreAttempt(w: Worker, r: Request, other: Request)
    ensures Attempts(w.(written := w.written + [r]), other) == Attempts(w, other) + (if other == r then 1 else 0)
  {
  }

  /** An attempt for the request in hand, or a mark on it, leaves the other requests as they are. */
  lemma OthersKept(w: Worker, v: Worker, r: Request)
    requires Inv(w) && r in Held(w) + w.queue
    requires v.submitted == w.submitted
    requires || (v.written == w.written + [r] && v.fetched == w.fetched)
             || (v.written == w.written && v.fetched == w.fetched + {r})
    ensures forall reply <- w.replies :: RightlyReplied(v, reply)
    ensures r in w.submitted && forall o <- v.written :: o in v.submitted
    ensures forall o <- w.queue | o != r :: Attempts(v, o) == 0 && o !in v.fetched
    ensures v.fetched <= set o <- v.submitted
  {
    AllDifferent(w);
    assert (Held(w) + w.queue) <= Held(w) + w.queue;
    forall o ensures Attempts(v, o) == Attempts(w, o) + (if o == r && v.written != w.written then 1 else 0) {
      if v.written != w.written {
        OneMoreAttempt(w, r, o);
      }
    }
    assert r.number >= |w.replies|;
    forall reply <- w.replies
      ensures RightlyReplied(v, reply)
    {
      assert RightlyReplied(w, reply) && reply.request != r;
    }
    assert r in w.submitted;
  }

  lemma RetryKeeps(w: Worker, answer: Option<string>)
    requires Inv(w) && w.held.Some?
    ensures Inv(Asked(w, answer))
  {
    var r := w.held.value;
    var u := w.(written := w.written + [r]);
    AllDifferent(w);
    OthersKept(w, u, r);
    RepliedKeepsOrder(u, answer);
    OneMoreAttempt(w, r, r);
    assert RightlyReplied(u, Reply(r, answer));
    var v := Asked(w, answer);
    assert v == Replied(u, answer);
    forall reply <- v.replies
      ensures RightlyReplied(v, reply)
    {
      assert reply in w.replies || reply == Reply(r, answer);
    }
  }

  lemma FirstAnswered(w: Worker, answer: string)
    requires Inv(w) && w.held.None? && w.queue != []
    ensures Inv(Asked(w, Some(answer)))
  {
    var r := w.queue[0];
    var u := Taken(w).(written := w.written + [r]);
    var v := Replied(u, Some(answer));
    assert Asked(w, Some(answer)) == v;
    AllDifferent(w);
    OthersKept(w, u, r);
    TakenKeepsOrder(w);
    RepliedKeepsOrder(u, Some(answer));
    OneMoreAttempt(w, r, r);
    QueueKept(w, v);
    forall reply <- v.replies
      ensures RightlyReplied(v, reply)
    {
      assert reply in w.replies || reply == Reply(r, Some(answer));
    }
  }

  lemma FirstUnanswered(w: Worker)
    requires Inv(w) && w.held.None? && w.queue != []
    ensures Inv(Asked(w, None))
  {
    var r := w.queue[0];
    var u := Taken(w).(written := w.written + [r]);
    assert Asked(w, None) == u;
    AllDifferent(w);
    OthersKept(w, u, r);
    TakenKeepsOrder(w);
    OneMoreAttempt(w, r, r);
    QueueKept(w, u);
  }

  /** The rest of the queue is untouched when its first request is. */
  lemma QueueKept(w: Worker, v: Worker)
    requires w.queue != [] && v.queue == w.queue[1..]
    requires forall i, j :: 0 <= i < j < |w.queue| ==> w.queue[i] != w.queue[j]
    requires forall o <- w.queue | o != w.queue[0] :: Attempts(v, o) == 0 && o !in v.fetched
    ensures forall o <- v.queue :: Attempts(v, o) == 0 && o !in v.fetched
  {
    forall o <- v.queue
      ensures Attempts(v, o) == 0 && o !in v.fetched
    {
      var i :| 0 <= i < |v.queue| && v.queue[i] == o;
      assert w.queue[i + 1] == o;
    }
  }

  lemma FetchedKeeps(w: Worker)
    requires Inv(w)
    ensures Inv(Fetched(w))
  {
    if w.held.None? && w.queue != [] {
      var r := w.queue[0];
      var v := Fetched(w);
      AllDifferent(w);
      OthersKept(w, v, r);
      TakenKeepsOrder(w);
      QueueKept(w, v);
    }
  }

  lemma CheckedKeeps(w: Worker)
    requires Inv(w)
    ensures Inv(Checked(w))
  {
    forall reply <- w.replies
      ensures RightlyReplied(Checked(w), reply)
    {
      assert RightlyReplied(w, reply);
    }
  }

  lemma {:induction false} ServeKeeps(w: Worker, turns: seq<Turn>)
    requires Inv(w)
    ensures Inv(Serve(w, turns).0)
    decreases |turns|
  {
    if turns != [] {
      var v := Hear(w, turns[0].news);
      HearKeeps(w, turns[0].news);
      if v.held.None? && v.queue == [] {
        ServeKeeps(v, turns[1..]);
      } else {
        if v.held.Some? {
          RetryKeeps(v, turns[0].answer);
        } else if turns[0].answer.Some? {
          FirstAnswered(v, turns[0].answer.value);
        } else {
          FirstUnanswered(v);
        }
        ServeKeeps(Asked(v, turns[0].answer), turns[1..]);
      }
    }
  }

  lemma {:induction false} WorkKeeps(w: Worker, children: seq<Child>)
    requires Inv(w)
    ensures Inv(Work(w, children))
    decreases |children|
  {
    if children != [] && w.alive {
      ServeKeeps(w, children[0].turns);
      var v := if children[0].ready then Serve(w, children[0].turns).0 else w;
      HearKeeps(v, children[0].failed);
      FetchedKeeps(Hear(v, children[0].failed));
      var u := Fetched(Hear(v, children[0].failed));
      HearKeeps(u, children[0].paused);
      CheckedKeeps(Hear(u, children[0].paused));
      WorkKeeps(Checked(Hear(u, children[0].paused)), children[1..]);
    }
  }

  // ------------------------------------------------------------------ what holds of every run

  lemma WorkInv(children: seq<Child>)
    ensures Inv(Work(NewWorker(), children))
  {
    WorkKeeps(NewWorker(), children);
  }

  /** The answered requests, the unfulfilled one and the queue are the submitted sequence, whatever the children do. */
  lemma NothingIsLost(children: seq<Child>)
    ensures var w := Work(NewWorker(), children);
      w.submitted == Answered(w.replies) + Held(w) + w.queue && Numbers(w.submitted)
  {
    WorkInv(children);
    var w := Work(NewWorker(), children);
    assert Answered(w.replies) + (Held(w) + w.queue) == Answered(w.replies) + Held(w) + w.queue;
  }

  /**
   A payload is written at most twice, and the request gets its failure reply after exactly
   the attempts it is allowed; before a reply there was at least one.
   */
  lemma AttemptsAreBounded(children: seq<Child>, r: Request)
    ensures var w := Work(NewWorker(), children);
      && Attempts(w, r) <= Allowed(w, r) <= 2
      && (Reply(r, None) in w.replies ==> Attempts(w, r) == Allowed(w, r))
      && (r in Answered(w.replies) ==> Attempts(w, r) >= 1)
  {
    WorkInv(children);
    var w := Work(NewWorker(), children);
    AllDifferent(w);
    if r in w.written {
      assert r in Answered(w.replies) + (Held(w) + w.queue);
    }
    if r in Answered(w.replies) {
      var i :| 0 <= i < |Answered(w.replies)| && Answered(w.replies)[i] == r;
      assert RightlyReplied(w, w.replies[i]);
    }
    if Reply(r, None) in w.replies {
      assert RightlyReplied(w, Reply(r, None));
    }
  }

  /** The request that is fetched between two children counts as retried: its first failed attempt is its last. */
  lemma FetchedGetsOneAttempt(payload: string)
    ensures var r := Request(0, payload);
      var first := Child(false, [], News([payload], false), News([], false));
      var second := Child(true, [Turn(News([], false), None)], News([], false), News([], false));
      var w := Work(NewWorker(), [first, second]);
      w.replies == [Reply(r, None)] && w.written == [r]
  {
    var r := Request(0, payload);
    var none := News([], false);
    var first := Child(false, [], News([payload], false), none);
    var second := Child(true, [Turn(none, None)], none, none);
    assert Numbered([payload], 0) == [r];
    var u := Fetched(Hear(NewWorker(), first.failed));
    assert u == NewWorker().(held := Some(r), submitted := [r], fetched := {r});
    HearNothing(u);
    var v := Asked(u, None);
    assert v == u.(held := None, replies := [Reply(r, None)], written := [r]);
    HearNothing(v);
    assert Serve(u, second.turns) == (v, Failed);
    assert Work(v, []) == v;
    assert [second][1..] == [];
    assert Work(u, [second]) == v;
    assert [first, second][1..] == [second];
  }

  lemma HearNothing(w: Worker)
    requires w.open
    ensures Hear(w, News([], false)) == w
  {
    assert Numbered([], |w.submitted|) == [];
    assert w.queue + [] == w.queue && w.submitted + [] == w.submitted;
  }

  lemma {:induction false} ServeKeepsAlive(w: Worker, turns: seq<Turn>)
    ensures Serve(w, turns).0.alive == w.alive
    decreases |turns|
  {
    if turns != [] {
      var v := Hear(w, turns[0].news);
      if v.held.None? && v.queue == [] {
        ServeKeepsAlive(v, turns[1..]);
      } else {
        ServeKeepsAlive(Asked(v, turns[0].answer), turns[1..]);
      }
    }
  }

  /** The worker stops only when nothing is held and no sender is left. */
  lemma {:induction false} StopsWithoutSenders(w: Worker, children: seq<Child>)
    requires w.alive && !Work(w, children).alive
    ensures !Work(w, children).open && Work(w, children).held.None?
    decreases |children|
  {
    if children != [] {
      var (v, ending) := if children[0].ready then Serve(w, children[0].turns) else (w, Failed);
      ServeKeepsAlive(w, children[0].turns);
      if ending.Failed? {
        var u := Fetched(Hear(v, children[0].failed));
        if u.alive {
          var c := Checked(Hear(u, children[0].paused));
          if c.alive {
            StopsWithoutSenders(c, children[1..]);
          }
        }
      }
    }
  }

  /**
   The worker stops with requests still queued exactly when they came, and the last sender
   went, during the pause after a child with nothing else to do.
   */
  lemma QueueIsDroppedIff(w: Worker, child: Child)
    requires w.alive && (!child.ready || Serve(w, child.turns).1.Failed?)
    ensures var v := if child.ready then Serve(w, child.turns).0 else w;
      var u := Fetched(Hear(v, child.failed));
      !Work(w, [child]).alive && Work(w, [child]).queue != []
      <==> u.held.None? && u.open && child.paused.closed && child.paused.payloads != []
  {
    ServeKeepsAlive(w, child.turns);
    assert [child][1..] == [];
    var v := if child.ready then Serve(w, child.turns).0 else w;
    var u := Fetched(Hear(v, child.failed));
    if u.held.None? && u.open {
      assert u.queue == [];
      assert |Numbered(child.paused.payloads, |u.submitted|)| == |child.paused.payloads|;
    }
  }
}
