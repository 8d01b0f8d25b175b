/**
 The worker behind a `testgen-hs` child process: it restarts the child whenever
 it fails, and retries the request that the child left unanswered.
 */
module Testgen {
  import opened Prelude

  /** Requests are numbered in the order of their submission. */
  datatype Request = Request(number: nat, payload: string)

  /** `None` is the reply "repeated internal failure". */
  datatype Reply = Reply(request: Request, answer: Option<string>)

  /** What reached the request channel since the worker last looked, and whether the last sender is gone. */
  datatype News = News(payloads: seq<string>, closed: bool)

  /** One look at the channel, and what the child makes of a payload if it is given one. */
  datatype Turn = Turn(news: News, answer: Option<string>)

  /**
   One child: does it start and accept its first payload, what it is asked, and the news after it failed
   and after the pause.
   */
  datatype Child = Child(ready: bool, turns: seq<Turn>, failed: News, paused: News)

  /** A run of the child ends in an error, or the observation ends first. */
  datatype Ending = Failed | Unfinished

  /**
   `held` is the unfulfilled request. Ghostly, `submitted` are all requests, `written` the
   attempts, and `fetched` the requests taken between two runs of the child.
   */
  datatype Worker = Worker(
    queue: seq<Request>,
    held: Option<Request>,
    open: bool,
    alive: bool,
    replies: seq<Reply>,
    submitted: seq<Request>,
    written: seq<Request>,
    fetched: set<Request>)

  function NewWorker(): Worker {
    Worker([], None, true, true, [], [], [], {})
  }

  // ------------------------------------------------------------------ specification

  function Numbered(payloads: seq<string>, from: nat): seq<Request> {
    seq(|payloads|, i requires 0 <= i < |payloads| => Request(from + i, payloads[i]))
  }

  function Hear(w: Worker, news: News): Worker {
    if !w.open then w
    else
      var more := Numbered(news.payloads, |w.submitted|);
      w.(queue := w.queue + more, submitted := w.submitted + more, open := !news.closed)
  }

  /** The held request goes first; otherwise the oldest one in the queue becomes the held one. */
  function Taken(w: Worker): Worker
    requires w.held.Some? || w.queue != []
  {
    if w.held.Some? then w else w.(held := Some(w.queue[0]), queue := w.queue[1..])
  }

  function Replied(w: Worker, answer: Option<string>): Worker
    requires w.held.Some?
  {
    w.(held := None, replies := w.replies + [Reply(w.held.value, answer)])
  }

  /** One attempt; a failed first attempt is kept for the next child. */
  function Asked(w: Worker, answer: Option<string>): Worker
    requires w.held.Some? || w.queue != []
  {
    var v := Taken(w);
    var u := v.(written := v.written + [v.held.value]);
    if w.held.Some? || answer.Some? then Replied(u, answer) else u
  }

  function Serve(w: Worker, turns: seq<Turn>): (Worker, Ending)
    decreases |turns|
  {
    if turns == [] then (w, Unfinished)
    else
      var v := Hear(w, turns[0].news);
      if v.held.None? && v.queue == [] then
        if v.open then Serve(v, turns[1..]) else (v, Failed)
      else
        var u := Asked(v, turns[0].answer);
        if turns[0].answer.Some? then Serve(u, turns[1..]) else (u, Failed)
  }

  /** After a run: with nothing held, look for the next request; stop if no more can come. */
  function Fetched(w: Worker): Worker {
    if w.held.Some? then w
    else if w.queue != [] then w.(held := Some(w.queue[0]), queue := w.queue[1..], fetched := w.fetched + {w.queue[0]})
    else if w.open then w
    else w.(alive := false)
  }

  /** After the pause: with nothing held, stop if all senders are gone. */
  function Checked(w: Worker): Worker {
    if w.held.None? && !w.open then w.(alive := false) else w
  }

  function Work(w: Worker, children: seq<Child>): Worker
    decreases |children|
  {
    if children == [] || !w.alive then w
    else
      var (v, ending) := if children[0].ready then Serve(w, children[0].turns) else (w, Failed);
      if ending.Unfinished? then v
      else
        var u := Fetched(Hear(v, children[0].failed));
        if !u.alive then u else Work(Checked(Hear(u, children[0].paused)), children[1..])
  }

  // ------------------------------------------------------------------ the worker thread

  class WorkerThread {
    var queue: seq<Request>
    var lastUnfulfilled: Option<Request>
    var open: bool
    var alive: bool
    var replies: seq<Reply>
    ghost var submitted: seq<Request>
    ghost var written: seq<Request>
    ghost var fetched: set<Request>
    var count: nat

    ghost predicate Valid()
      reads this
    {
      count == |submitted|
    }

    ghost function View(): Worker
      reads this
    {
      Worker(queue, lastUnfulfilled, open, alive, replies, submitted, written, fetched)
    }

    constructor ()
      ensures Valid() && View() == NewWorker()
    {
      queue, lastUnfulfilled, open, alive, replies, count := [], None, true, true, [], 0;
      submitted, written, fetched := [], [], {};
    }

    method Receive(news: News)
      requires Valid()
      modifies this`queue, this`submitted, this`count, this`open
      ensures Valid() && View() == Hear(old(View()), news)
    {
      if open {
        var more := Numbered(news.payloads, count);
        queue := queue + more;
        submitted := submitted + more;
        count := count + |news.payloads|;
        open := !news.closed;
      }
    }

    /** The oldest request of the channel. */
    method Pop() returns (r: Request)
      requires queue != []
      modifies this`queue
      ensures r == old(queue[0]) && queue == old(queue[1..])
    {
      r := queue[0];
      queue := queue[1..];
    }

    method ProcessRequests(turns: seq<Turn>) returns (ending: Ending)
      requires Valid()
      modifies this
      ensures Valid() && (View(), ending) == Serve(old(View()), turns)
      ensures alive == old(alive)
    {
      var k := 0;
      while k < |turns|
        invariant 0 <= k <= |turns| && Valid() && alive == old(alive)
        invariant Serve(View(), turns[k..]) == Serve(old(View()), turns)
      {
        Receive(turns[k].news);
        var isARetry := lastUnfulfilled.Some?;
        if !isARetry && queue == [] {
          if !open {
            return Failed;
          }
        } else {
          if !isARetry {
            var request := Pop();
            lastUnfulfilled := Some(request);
          }
          var request := lastUnfulfilled.value;
          written := written + [request];
          var answer := turns[k].answer;
          if isARetry || answer.Some? {
            lastUnfulfilled := None;
            replies := replies + [Reply(request, answer)];
          }
          if answer.None? {
            return Failed;
          }
        }
        k := k + 1;
      }
      return Unfinished;
    }

    method Fetch()
      requires Valid()
      modifies this`queue, this`lastUnfulfilled, this`alive, this`fetched
      ensures Valid() && View() == Fetched(old(View()))
    {
      if lastUnfulfilled.None? {
        if queue != [] {
          var request := Pop();
          lastUnfulfilled := Some(request);
          fetched := fetched + {request};
        } else if !open {
          alive := false;
        }
      }
    }

    method SpawnInner(children: seq<Child>)
      requires Valid() && alive
      modifies this
      ensures Valid() && View() == Work(old(View()), children)
    {
      var k := 0;
      while k < |children|
        invariant 0 <= k <= |children| && Valid() && alive
        invariant Work(View(), children[k..]) == Work(old(View()), children)
      {
        var ending := Failed;
        if children[k].ready {
          ending := ProcessRequests(children[k].turns);
        }
        if ending.Unfinished? {
          return;
        }
        Receive(children[k].failed);
        Fetch();
        if !alive {
          return;
        }
        Receive(children[k].paused);
        if lastUnfulfilled.None? && !open {
          alive := false;
          return;
        }
        k := k + 1;
      }
    }
  }
}
