/** The credit monitor goes on as long as a session is on, and ends it once. */
module CreditMonitor {
  import opened Prelude
  import opened HydraConfig
  import opened Credits

  /** `polls` and `closes` are the pending events of the monitor and of the closing of the head. */
  datatype Watch = Watch(meter: Meter, polls: nat, closes: nat)

  /** A restart leaves the events that are past the generation check. */
  datatype Event =
    | Opened(balance: Option<U64>)
    | Polled(balance: Option<U64>)
    | CloseStarted
    | WentIdle
    | Restarted(polls: nat, closes: nat)

  predicate Can(w: Watch, e: Event) {
    match e
    case Opened(_) => !w.meter.closing
    case Polled(_) => w.polls > 0
    case CloseStarted => w.closes > 0
    case WentIdle => !w.meter.headOpen && w.closes == 0
    case Restarted(polls, closes) => polls <= w.polls && closes <= w.closes
  }

  function One(b: bool): nat {
    if b then 1 else 0
  }

  function Next(cfg: Config, w: Watch, e: Event): Watch
    requires Can(w, e)
  {
    match e
    case Opened(balance) => w.(meter := OnOpen(w.meter, balance), polls := w.polls + 1)
    case Polled(balance) =>
      var (meter, timers) := OnMonitor(cfg, w.meter, balance);
      Watch(meter, w.polls - 1 + One(timers.again), w.closes + One(timers.close))
    case CloseStarted => w.(meter := OnClose(w.meter), closes := w.closes - 1)
    case WentIdle => w.(meter := OnIdle(w.meter))
    case Restarted(polls, closes) => Watch(OnRestart(), polls, closes)
  }

  predicate Possible(cfg: Config, w: Watch, events: seq<Event>)
    decreases |events|
  {
    events == [] || (Can(w, events[0]) && Possible(cfg, Next(cfg, w, events[0]), events[1..]))
  }

  function Run(cfg: Config, w: Watch, events: seq<Event>): Watch
    requires Possible(cfg, w, events)
    decreases |events|
  {
    if events == [] then w else Run(cfg, Next(cfg, w, events[0]), events[1..])
  }

  const START: Watch := Watch(Meter(0, 0, 0, false, false), 0, 0)

  /** No restart leaves an event behind. */
  predicate Clean(events: seq<Event>) {
    forall e <- events :: e.Restarted? ==> e.polls == 0 && e.closes == 0
  }

  /** An open session is watched; a session that is over is closed exactly once. */
  predicate Watched(w: Watch) {
    && (w.meter.headOpen && !w.meter.closing ==> w.polls >= 1)
    && (w.meter.headOpen && w.meter.closing ==> w.closes == 1)
    && (!w.meter.closing ==> w.closes == 0)
    && w.closes <= 1
  }

  lemma StepKeepsWatched(cfg: Config, w: Watch, e: Event)
    requires Can(w, e) && Watched(w) && (e.Restarted? ==> e.polls == 0 && e.closes == 0)
    ensures Watched(Next(cfg, w, e))
  {
  }

  lemma {:induction false} RunKeepsWatched(cfg: Config, w: Watch, events: seq<Event>)
    requires Possible(cfg, w, events) && Watched(w) && Clean(events)
    ensures Watched(Run(cfg, w, events))
    decreases |events|
  {
    if events != [] {
      assert events[0] in events;
      StepKeepsWatched(cfg, w, events[0]);
      RunKeepsWatched(cfg, Next(cfg, w, events[0]), events[1..]);
    }
  }

  /**
   In every run that leaves no event behind a restart: as long as the head is open and the session not over the
   balance is polled for, whether or not it can be read, and when the session is over one close is on its way.
   */
  lemma MonitorGoesOn(cfg: Config, events: seq<Event>)
    requires Possible(cfg, START, events) && Clean(events)
    ensures Watched(Run(cfg, START, events))
  {
    RunKeepsWatched(cfg, START, events);
  }

  /**
   A poll that reads the balance ends the session iff the payments received have reached the fanout count;
   either way, and also when it cannot read, it is followed by another one.
   */
  lemma PollEndsSessionIff(cfg: Config, m: Meter, balance: U64)
    requires m.headOpen && !m.closing
    ensures var (n, timers) := OnMonitor(cfg, m, Some(balance));
      && n.last == balance && n.available == Observe(cfg, m, balance).available
      && (n.closing <==> n.received >= cfg.microtransactionsPerFanout) && (timers.close <==> n.closing)
      && timers.again && OnMonitor(cfg, m, None) == (m, Timers(false, true))
  {
  }

  /** Only the credits outlast a session: whatever came before, an opened or idle meter is the same otherwise. */
  lemma SessionsShareOnlyCredits(m: Meter, other: Meter, balance: Option<U64>)
    ensures OnOpen(m, balance).(available := 0, closing := false)
         == OnOpen(other, balance).(available := 0, closing := false)
    ensures OnOpen(m, balance).available == m.available && OnOpen(m, balance).closing == m.closing
    ensures OnIdle(OnClose(m)).(available := 0) == OnRestart() && OnIdle(OnClose(m)).available == m.available
  {
  }
}
