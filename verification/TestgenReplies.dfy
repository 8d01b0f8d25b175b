/** What the requesters are told: the child's own answer to the last attempt. */
module TestgenReplies {
  import opened Prelude
  import opened Testgen
  import opened TestgenLaws

  /** A payload that was given to a child, and what the child made of it in that turn. */
  datatype Exchange = Exchange(request: Request, answer: Option<string>)

  // ------------------------------------------------------------------ the transcript

  /** The request that is due next. */
  function Due(w: Worker): Option<Request> {
    if w.held.Some? then w.held else if w.queue != [] then Some(w.queue[0]) else None
  }

  /** What is said to one child, read off its turns. */
  function Spoken(w: Worker, turns: seq<Turn>): seq<Exchange>
    decreases |turns|
  {
    if turns == [] then []
    else
      var v := Hear(w, turns[0].news);
      match Due(v)
      case None => if v.open then Spoken(v, turns[1..]) else []
      case Some(r) =>
        [Exchange(r, turns[0].answer)] +
        if turns[0].answer.Some? then Spoken(Serve(w, turns[..1]).0, turns[1..]) else []
  }

  /** What is said to all children. */
  function Transcript(w: Worker, children: seq<Child>): seq<Exchange>
    decreases |children|
  {
    if children == [] || !w.alive then []
    else
      var child := children[0];
      var said := if child.ready then Spoken(w, child.turns) else [];
      if child.ready && Serve(w, child.turns).1.Unfinished? then said
      else said + Transcript(Work(w, children[..1]), children[1..])
  }

  /** What the last exchange about the request came to, if there was one. */
  function LastWord(said: seq<Exchange>, r: Request): Option<Option<string>> {
    if said == [] then None
    else if said[|said| - 1].request == r then Some(said[|said| - 1].answer)
    else LastWord(said[..|said| - 1], r)
  }

  lemma LastWordOfMore(said: seq<Exchange>, x: Exchange, r: Request)
    ensures LastWord(said + [x], r) == if x.request == r then Some(x.answer) else LastWord(said, r)
  {
    assert (said + [x])[..|said|] == said;
  }

  // ------------------------------------------------------------------ replies and the transcript

  /** Replies repeat the last exchange; requests that are waiting have had none, or a failed one. */
  predicate Told(w: Worker, said: seq<Exchange>) {
    && (forall reply <- w.replies :: LastWord(said, reply.request) == Some(reply.answer))
    && (forall r <- Held(w) + w.queue :: LastWord(said, r) == None || LastWord(said, r) == Some(None))
    && (forall x <- said :: x.request in w.submitted)
  }

  lemma {:induction false} UnknownIsUnspoken(said: seq<Exchange>, r: Request)
    requires forall x <- said :: x.request != r
    ensures LastWord(said, r) == None
  {
    if said != [] {
      UnknownIsUnspoken(said[..|said| - 1], r);
    }
  }

  lemma HearKeepsTold(w: Worker, news: News, said: seq<Exchange>)
    requires Inv(w) && Told(w, said)
    ensures Told(Hear(w, news), said)
  {
    var v := Hear(w, news);
    if w.open {
      AllDifferent(w);
      var more := Numbered(news.payloads, |w.submitted|);
      forall r <- more
        ensures LastWord(said, r) == None
      {
        assert r.number >= |w.submitted|;
        UnknownIsUnspoken(said, r);
      }
      assert forall r <- Held(v) + v.queue :: r in Held(w) + w.queue || r in more;
    }
  }

  /** The request that is due is not among the answered ones, nor again in the queue behind it. */
  lemma DueIsNew(w: Worker, r: Request)
    requires Inv(w) && Due(w) == Some(r)
    ensures forall reply <- w.replies :: reply.request != r
    ensures r in w.submitted && (w.held.None? ==> r !in w.queue[1..]) && (w.held.Some? ==> r !in w.queue)
  {
    AllDifferent(w);
    assert r in Held(w) + w.queue;
    assert forall reply <- w.replies :: reply.request.number < |w.replies|;
  }

  lemma AskKeepsTold(w: Worker, answer: Option<string>, r: Request, said: seq<Exchange>)
    requires Inv(w) && Told(w, said) && Due(w) == Some(r)
    ensures Told(Asked(w, answer), said + [Exchange(r, answer)])
  {
    var v, x := Asked(w, answer), Exchange(r, answer);
    DueIsNew(w, r);
    forall reply <- v.replies
      ensures LastWord(said + [x], reply.request) == Some(reply.answer)
    {
      LastWordOfMore(said, x, reply.request);
      assert reply in w.replies || reply.request == r;
    }
    forall o <- Held(v) + v.queue
      ensures LastWord(said + [x], o) == None || LastWord(said + [x], o) == Some(None)
    {
      LastWordOfMore(said, x, o);
      assert o in Held(w) + w.queue;
    }
  }

  lemma OneTurn(w: Worker, turn: Turn)
    ensures Serve(w, [turn]).0 == var v := Hear(w, turn.news); if Due(v).Some? then Asked(v, turn.answer) else v
  {
    assert [turn][1..] == [];
  }

  lemma AskKeepsInv(w: Worker, answer: Option<string>)
    requires Inv(w) && Due(w).Some?
    ensures Inv(Asked(w, answer))
  {
    if w.held.Some? {
      RetryKeeps(w, answer);
    } else if answer.Some? {
      FirstAnswered(w, answer.value);
    } else {
      FirstUnanswered(w);
    }
  }

  /** A turn in which a request is given to the child, and those after it. */
  lemma TurnAsks(w: Worker, turns: seq<Turn>, v: Worker, u: Worker, x: Exchange)
    requires turns != [] && v == Hear(w, turns[0].news) && Due(v) == Some(x.request)
    requires x.answer == turns[0].answer && u == Asked(v, x.answer)
    ensures Serve(w, turns).0 == if x.answer.Some? then Serve(u, turns[1..]).0 else u
    ensures Spoken(w, turns) == [x] + if x.answer.Some? then Spoken(u, turns[1..]) else []
  {
    assert turns[..1] == [turns[0]];
    OneTurn(w, turns[0]);
  }

  lemma TurnIsIdle(w: Worker, turns: seq<Turn>, v: Worker)
    requires turns != [] && v == Hear(w, turns[0].news) && Due(v) == None
    ensures Serve(w, turns).0 == if v.open then Serve(v, turns[1..]).0 else v
    ensures Spoken(w, turns) == if v.open then Spoken(v, turns[1..]) else []
  {
  }

  lemma {:induction false} ServeTells(w: Worker, turns: seq<Turn>, said: seq<Exchange>)
    requires Inv(w) && Told(w, said)
    ensures Told(Serve(w, turns).0, said + Spoken(w, turns))
    decreases |turns|, 0
  {
    if turns == [] {
      assert said + [] == said;
    } else {
      var v := Hear(w, turns[0].news);
      HearKeeps(w, turns[0].news);
      HearKeepsTold(w, turns[0].news, said);
      match Due(v)
      case None =>
        TurnIsIdle(w, turns, v);
        assert said + [] == said;
        if v.open {
          ServeTells(v, turns[1..], said);
        }
      case Some(r) =>
        var x, u := Exchange(r, turns[0].answer), Asked(v, turns[0].answer);
        TurnAsks(w, turns, v, u, x);
        AskKeepsInv(v, x.answer);
        AskKeepsTold(v, x.answer, r, said);
        RestTells(u, turns[1..], x, said);
    }
  }

  lemma {:induction false} RestTells(u: Worker, rest: seq<Turn>, x: Exchange, said: seq<Exchange>)
    requires Inv(u) && Told(u, said + [x])
    ensures Told(if x.answer.Some? then Serve(u, rest).0 else u,
                 said + ([x] + if x.answer.Some? then Spoken(u, rest) else []))
    decreases |rest|, 1
  {
    if x.answer.Some? {
      ServeTells(u, rest, said + [x]);
      assert said + [x] + Spoken(u, rest) == said + ([x] + Spoken(u, rest));
    } else {
      assert [x] + [] == [x];
    }
  }

  lemma FetchTellsNothing(v: Worker, said: seq<Exchange>)
    requires Told(v, said)
    ensures Told(Fetched(v), said)
  {
    var u := Fetched(v);
    assert forall r <- Held(u) + u.queue :: r in Held(v) + v.queue;
  }

  /** Between two runs nothing is said, and nobody is told anything. */
  lemma BetweenTellsNothing(w: Worker, child: Child, said: seq<Exchange>)
    requires Inv(w) && Told(w, said)
    ensures var u := Fetched(Hear(w, child.failed)); Inv(u) && Told(u, said)
  {
    HearKeeps(w, child.failed);
    HearKeepsTold(w, child.failed, said);
    FetchedKeeps(Hear(w, child.failed));
    FetchTellsNothing(Hear(w, child.failed), said);
  }

  lemma PauseTellsNothing(u: Worker, news: News, said: seq<Exchange>)
    requires Inv(u) && Told(u, said)
    ensures Inv(Checked(Hear(u, news))) && Told(Checked(Hear(u, news)), said)
  {
    HearKeeps(u, news);
    HearKeepsTold(u, news, said);
    CheckedKeeps(Hear(u, news));
  }

  lemma OneChild(w: Worker, child: Child)
    requires w.alive && !(child.ready && Serve(w, child.turns).1.Unfinished?)
    ensures var v := if child.ready then Serve(w, child.turns).0 else w;
      var u := Fetched(Hear(v, child.failed));
      Work(w, [child]) == if u.alive then Checked(Hear(u, child.paused)) else u
  {
    assert [child][1..] == [];
    var v := if child.ready then Serve(w, child.turns).0 else w;
    var u := Fetched(Hear(v, child.failed));
    assert Work(Checked(Hear(u, child.paused)), []) == Checked(Hear(u, child.paused));
  }

  lemma {:induction false} WorkTells(w: Worker, children: seq<Child>, said: seq<Exchange>)
    requires Inv(w) && Told(w, said)
    ensures Told(Work(w, children), said + Transcript(w, children))
    decreases |children|
  {
    if children == [] || !w.alive {
      assert said + [] == said;
    } else {
      var child := children[0];
      var v := if child.ready then Serve(w, child.turns).0 else w;
      var told := if child.ready then Spoken(w, child.turns) else [];
      if child.ready {
        ServeTells(w, child.turns, said);
        ServeKeeps(w, child.turns);
      } else {
        assert said + [] == said;
      }
      if !(child.ready && Serve(w, child.turns).1.Unfinished?) {
        OneChildTells(w, children, v, said + told);
        assert said + told + Transcript(Work(w, children[..1]), children[1..])
            == said + (told + Transcript(Work(w, children[..1]), children[1..]));
      }
    }
  }

  lemma {:induction false} OneChildTells(w: Worker, children: seq<Child>, v: Worker, said: seq<Exchange>)
    requires children != [] && w.alive && Inv(v) && Told(v, said)
    requires !(children[0].ready && Serve(w, children[0].turns).1.Unfinished?)
    requires v == if children[0].ready then Serve(w, children[0].turns).0 else w
    ensures Told(Work(w, children), said + Transcript(Work(w, children[..1]), children[1..]))
    decreases |children|, 0
  {
    var child := children[0];
    assert children[..1] == [child];
    OneChild(w, child);
    BetweenTellsNothing(v, child, said);
    var u := Fetched(Hear(v, child.failed));
    if u.alive {
      PauseTellsNothing(u, child.paused, said);
      WorkTells(Checked(Hear(u, child.paused)), children[1..], said);
    } else {
      assert said + [] == said;
    }
  }

  /**
   Whatever the children do: every requester is told what the child made of the last attempt at its request,
   word for word, or that it failed.
   */
  lemma RepliesRepeatTheChild(children: seq<Child>, reply: Reply)
    requires reply in Work(NewWorker(), children).replies
    ensures LastWord(Transcript(NewWorker(), children), reply.request) == Some(reply.answer)
  {
    WorkTells(NewWorker(), children, []);
    assert [] + Transcript(NewWorker(), children) == Transcript(NewWorker(), children);
  }

  /** A request that is still waiting has not been answered by any child so far. */
  lemma WaitingIsUnanswered(children: seq<Child>, r: Request)
    requires var w := Work(NewWorker(), children); r in Held(w) + w.queue
    ensures var last := LastWord(Transcript(NewWorker(), children), r); last == None || last == Some(None)
  {
    WorkTells(NewWorker(), children, []);
    assert [] + Transcript(NewWorker(), children) == Transcript(NewWorker(), children);
  }
}
