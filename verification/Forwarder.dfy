/**
 Forwards messages to a destination that may change, be absent, or be closed at
 any moment. The destinations are published through a watch channel, whose
 receiver remembers the last version it was told about.
 */
module Forwarder {
  import opened Prelude

  type Dest = nat

  /** Where the forwarding task is; it holds a message in all phases but the first and, sometimes, the last. */
  datatype Phase = Receiving | Borrowing | Sending(dest: Dest) | Waiting | Ended

  /** A message that the destination of a version has accepted. */
  datatype Delivery<A> = Delivery(version: nat, message: A)

  /**
   `versions` are all the destinations ever published, the last one being current. `seen` is
   the version that the watch receiver has been told about, `tried` the one borrowed last.
   */
  datatype World<A> = World(
    phase: Phase,
    source: seq<A>,
    sourceOpen: bool,
    hand: Option<A>,
    versions: seq<Option<Dest>>,
    watchOpen: bool,
    closed: set<Dest>,
    seen: nat,
    tried: nat,
    submitted: seq<A>,
    accepted: seq<Delivery<A>>)

  datatype Step<A> =
    | Submit(message: A)
    | CloseSource
    | Publish(dest: Option<Dest>)
    | CloseWatch
    | CloseDest(gone: Dest)
    | Forward

  function Start<A>(): World<A> {
    World(Receiving, [], true, None, [None], true, {}, 0, 0, [], [])
  }

  function Current<A>(w: World<A>): nat
    requires w.versions != []
  {
    |w.versions| - 1
  }

  // ------------------------------------------------------------------ steps

  predicate Enabled<A>(w: World<A>, step: Step<A>) {
    match step
    case Submit(_) | CloseSource => w.sourceOpen
    case Publish(_) | CloseWatch => w.watchOpen
    case CloseDest(_) | Forward => w.versions != []
  }

  /** `recv`: the next message, or the end of a closed source. */
  function Receive<A>(w: World<A>): World<A> {
    if w.source != [] then w.(phase := Borrowing, hand := Some(w.source[0]), source := w.source[1..])
    else if !w.sourceOpen then w.(phase := Ended)
    else w
  }

  /** `borrow` looks at the newest destination without marking it as seen. */
  function Borrow<A>(w: World<A>): World<A>
    requires w.versions != []
  {
    match w.versions[Current(w)]
    case None => w.(tried := Current(w), phase := Waiting)
    case Some(d) => w.(tried := Current(w), phase := Sending(d))
  }

  /** A closed destination gives the message back. */
  function Send<A>(w: World<A>): World<A>
    requires w.phase.Sending? && w.hand.Some?
  {
    if w.phase.dest in w.closed then w.(phase := Waiting)
    else w.(phase := Receiving, hand := None, accepted := w.accepted + [Delivery(w.tried, w.hand.value)])
  }

  /** `changed` returns at once if there is an unseen version, and fails if there will never be one. */
  function Changed<A>(w: World<A>): World<A>
    requires w.versions != []
  {
    if w.seen < Current(w) then w.(seen := Current(w), phase := Borrowing)
    else if !w.watchOpen then w.(phase := Ended)
    else w
  }

  function After<A>(w: World<A>, step: Step<A>): World<A>
    requires Enabled(w, step) && (w.phase.Sending? ==> w.hand.Some?)
  {
    match step
    case Submit(m) => w.(source := w.source + [m], submitted := w.submitted + [m])
    case CloseSource => w.(sourceOpen := false)
    case Publish(d) => w.(versions := w.versions + [d])
    case CloseWatch => w.(watchOpen := false)
    case CloseDest(d) => w.(closed := w.closed + {d})
    case Forward =>
      match w.phase
      case Receiving => Receive(w)
      case Borrowing => Borrow(w)
      case Sending(_) => Send(w)
      case Waiting => Changed(w)
      case Ended => w
  }

  /** A run: states that follow one from the other. */
  ghost predicate Follows<A(!new)>(w: World<A>, next: World<A>) {
    exists step :: Enabled(w, step) && (w.phase.Sending? ==> w.hand.Some?) && next == After(w, step)
  }

  ghost predicate Run<A(!new)>(run: seq<World<A>>) {
    && run != [] && run[0] == Start()
    && forall i :: 0 <= i < |run| - 1 ==> Follows(run[i], run[i + 1])
  }

  // ------------------------------------------------------------------ invariant

  function Messages<A>(accepted: seq<Delivery<A>>): seq<A> {
    seq(|accepted|, i requires 0 <= i < |accepted| => accepted[i].message)
  }

  function InHand<A>(w: World<A>): seq<A> {
    if w.hand.Some? then [w.hand.value] else []
  }

  /** The version has no destination, or a closed one. */
  predicate Unusable<A>(w: World<A>, version: nat) {
    version < |w.versions| && (w.versions[version].Some? ==> w.versions[version].value in w.closed)
  }

  predicate Kept<A(==)>(w: World<A>) {
    w.submitted == Messages(w.accepted) + (InHand(w) + w.source)
  }

  /** Deliveries went to destinations that were really published, never to an older one than the delivery before. */
  predicate Ordered<A>(w: World<A>) {
    && w.tried < |w.versions|
    && (forall i :: 0 <= i < |w.accepted| ==>
          w.accepted[i].version <= w.tried && w.versions[w.accepted[i].version].Some?)
    && (forall i, j :: 0 <= i < j < |w.accepted| ==> w.accepted[i].version <= w.accepted[j].version)
  }

  predicate Inv<A(==)>(w: World<A>) {
    && w.seen < |w.versions| && w.tried < |w.versions|
    && (w.phase.Borrowing? || w.phase.Sending? || w.phase.Waiting? ==> w.hand.Some?)
    && (w.phase.Receiving? ==> w.hand.None?)
    && (w.phase.Sending? || w.phase.Waiting? || (w.phase.Ended? && w.hand.Some?) ==> w.seen <= w.tried)
    && (w.phase.Sending? ==> w.versions[w.tried] == Some(w.phase.dest))
    && (w.phase.Waiting? ==> Unusable(w, w.tried))
    && (w.phase.Ended? && w.hand.Some? ==> !w.watchOpen && w.tried == Current(w) && Unusable(w, w.tried))
    && (w.phase.Ended? && w.hand.None? ==> !w.sourceOpen && w.source == [])
    && Kept(w) && Ordered(w)
  }

  // ------------------------------------------------------------------ preservation

  lemma SubmitKeeps<A>(w: World<A>, m: A)
    requires Inv(w) && w.sourceOpen
    ensures Inv(After(w, Submit(m)))
  {
    assert Messages(w.accepted) + (InHand(w) + w.source) + [m] == Messages(w.accepted) + (InHand(w) + (w.source + [m]));
  }

  lemma ReceiveKeeps<A>(w: World<A>)
    requires Inv(w) && w.phase.Receiving?
    ensures Inv(Receive(w))
  {
    if w.source != [] {
      assert [] + w.source == [w.source[0]] + w.source[1..];
    }
  }

  lemma SendKeeps<A>(w: World<A>)
    requires Inv(w) && w.phase.Sending?
    ensures Inv(Send(w))
  {
    var v := Send(w);
    if w.phase.dest !in w.closed {
      assert Messages(v.accepted) == Messages(w.accepted) + [w.hand.value];
      assert Messages(w.accepted) + ([w.hand.value] + w.source) == Messages(v.accepted) + ([] + w.source);
    }
  }

  lemma StepKeepsInv<A>(w: World<A>, step: Step<A>)
    requires Inv(w) && Enabled(w, step)
    ensures Inv(After(w, step))
  {
    match step
    case Submit(m) => SubmitKeeps(w, m);
    case CloseSource =>
    case Publish(d) =>
    case CloseWatch =>
    case CloseDest(d) =>
    case Forward =>
      match w.phase
      case Receiving => ReceiveKeeps(w);
      case Borrowing =>
      case Sending(_) => SendKeeps(w);
      case Waiting =>
      case Ended =>
  }

  lemma {:induction false} RunKeepsInv<A(!new)>(run: seq<World<A>>)
    requires Run(run)
    ensures Inv(run[|run| - 1])
    decreases |run|
  {
    var n := |run| - 1;
    if n > 0 {
      assert Run(run[..n]) by {
        forall i | 0 <= i < |run[..n]| - 1
          ensures Follows(run[..n][i], run[..n][i + 1])
        {
          assert Follows(run[i], run[i + 1]);
        }
      }
      RunKeepsInv(run[..n]);
      assert Follows(run[n - 1], run[n]);
      var step :| Enabled(run[n - 1], step) && run[n] == After(run[n - 1], step);
      StepKeepsInv(run[n - 1], step);
    }
  }

  // ------------------------------------------------------------------ what holds of every run

  /** The accepted messages, the one in hand and the rest of the source are the source stream. */
  lemma NothingIsLost<A(!new)>(run: seq<World<A>>)
    requires Run(run)
    ensures var w := run[|run| - 1]; w.submitted == Messages(w.accepted) + InHand(w) + w.source
    ensures Ordered(run[|run| - 1])
  {
    RunKeepsInv(run);
    var w := run[|run| - 1];
    assert Messages(w.accepted) + (InHand(w) + w.source) == Messages(w.accepted) + InHand(w) + w.source;
  }

  /**
   No lost wake-up: the forwarder is blocked waiting for a change exactly when it has tried the newest
   version in vain.
   */
  lemma BlockedIff<A(!new)>(run: seq<World<A>>)
    requires Run(run) && run[|run| - 1].phase.Waiting?
    ensures var w := run[|run| - 1];
      && Inv(w)
      && (After(w, Forward) == w <==> w.watchOpen && w.seen == Current(w))
      && (After(w, Forward) == w ==> w.tried == w.seen == Current(w) && Unusable(w, Current(w)))
  {
    RunKeepsInv(run);
  }

  /** The forwarder ends at the end of the source, or with a message that can never be delivered. */
  lemma EndsOnlyInVain<A(!new)>(run: seq<World<A>>)
    requires Run(run) && run[|run| - 1].phase.Ended?
    ensures var w := run[|run| - 1];
      Inv(w) && if w.hand.None? then !w.sourceOpen && w.source == []
      else !w.watchOpen && Unusable(w, Current(w))
  {
    RunKeepsInv(run);
  }

  function Forwards<A>(w: World<A>, n: nat): (v: World<A>)
    requires Inv(w)
    ensures Inv(v)
    decreases n
  {
    if n == 0 then w
    else
      StepKeepsInv(w, Forward);
      Forwards(After(w, Forward), n - 1)
  }

  /** The message in hand is the next one to be accepted, after `n` steps of the forwarder alone. */
  predicate Delivers<A(==)>(w: World<A>, n: nat)
    requires Inv(w) && w.hand.Some?
  {
    var v := Forwards(w, n);
    |v.accepted| == |w.accepted| + 1 && v.accepted[|w.accepted|].message == w.hand.value
  }

  lemma OneStepLater<A>(w: World<A>, n: nat)
    requires Inv(w) && w.hand.Some? && Inv(After(w, Forward))
    requires After(w, Forward).hand == w.hand && After(w, Forward).accepted == w.accepted
    requires Delivers(After(w, Forward), n)
    ensures Delivers(w, n + 1)
  {
  }

  lemma SendDelivers<A>(w: World<A>)
    requires Inv(w) && w.phase.Sending? && w.phase.dest !in w.closed
    ensures Delivers(w, 1)
  {
    StepKeepsInv(w, Forward);
    assert Forwards(After(w, Forward), 0) == After(w, Forward);
  }

  lemma BorrowDelivers<A>(w: World<A>)
    requires Inv(w) && w.phase.Borrowing? && !Unusable(w, Current(w))
    ensures Delivers(w, 2)
  {
    StepKeepsInv(w, Forward);
    SendDelivers(After(w, Forward));
    OneStepLater(w, 1);
  }

  lemma ChangeDelivers<A>(w: World<A>)
    requires Inv(w) && w.phase.Waiting? && !Unusable(w, Current(w))
    ensures Delivers(w, 3)
  {
    StepKeepsInv(w, Forward);
    BorrowDelivers(After(w, Forward));
    OneStepLater(w, 2);
  }

  /** Left alone with an open newest destination, the forwarder delivers the message in its hand within four steps. */
  lemma OpenDestinationIsFound<A>(w: World<A>) returns (n: nat)
    requires Inv(w) && w.hand.Some? && !w.phase.Ended? && !Unusable(w, Current(w))
    ensures n <= 4 && Delivers(w, n)
  {
    match w.phase
    case Borrowing =>
      BorrowDelivers(w);
      n := 2;
    case Waiting =>
      ChangeDelivers(w);
      n := 3;
    case Sending(d) =>
      if d !in w.closed {
        SendDelivers(w);
        n := 1;
      } else {
        StepKeepsInv(w, Forward);
        ChangeDelivers(After(w, Forward));
        OneStepLater(w, 3);
        n := 4;
      }
  }

  /** There is nothing the forwarder could do: no message, nothing new to try, or nothing more to do at all. */
  predicate AtRest<A>(w: World<A>)
    requires w.versions != []
  {
    || (w.phase.Receiving? && w.source == [] && w.sourceOpen)
    || (w.phase.Waiting? && w.watchOpen && w.seen >= Current(w))
    || w.phase.Ended?
  }

  /** It stands still only at rest: a message, a change, and the end of either channel wake it up. */
  lemma StandsStillIff<A(!new)>(run: seq<World<A>>)
    requires Run(run)
    ensures var w := run[|run| - 1]; Inv(w) && (After(w, Forward) == w <==> AtRest(w))
  {
    RunKeepsInv(run);
  }

  /** After `n` steps the forwarder still holds its message, delivers nothing, and rests. */
  predicate GivesUp<A(==)>(w: World<A>, n: nat)
    requires Inv(w)
  {
    var v := Forwards(w, n);
    && v.hand == w.hand && v.accepted == w.accepted && AtRest(v)
    && v.tried == Current(w) && (v.phase.Ended? <==> !w.watchOpen)
  }

  lemma GivesUpLater<A>(w: World<A>, n: nat)
    requires Inv(w) && Inv(After(w, Forward)) && GivesUp(After(w, Forward), n)
    requires var v := After(w, Forward);
      v.hand == w.hand && v.accepted == w.accepted && v.watchOpen == w.watchOpen && v.versions == w.versions
    ensures GivesUp(w, n + 1)
  {
  }

  /** With the newest version seen and useless, one more step ends the forwarder or leaves it blocked. */
  lemma SeenIsGivenUp<A>(w: World<A>)
    requires Inv(w) && w.phase.Waiting? && Unusable(w, Current(w)) && w.seen == Current(w)
    ensures GivesUp(w, 1)
  {
    StepKeepsInv(w, Forward);
    assert Forwards(After(w, Forward), 0) == After(w, Forward);
  }

  lemma BorrowedIsGivenUp<A>(w: World<A>)
    requires Inv(w) && w.phase.Borrowing? && Unusable(w, Current(w)) && w.seen == Current(w)
    ensures exists n :: 1 <= n <= 3 && GivesUp(w, n)
  {
    StepKeepsInv(w, Forward);
    var v := After(w, Forward);
    if v.phase.Waiting? {
      SeenIsGivenUp(v);
      GivesUpLater(w, 1);
    } else {
      StepKeepsInv(v, Forward);
      SeenIsGivenUp(After(v, Forward));
      GivesUpLater(v, 1);
      GivesUpLater(w, 2);
    }
  }

  lemma WaitingIsGivenUp<A>(w: World<A>)
    requires Inv(w) && w.phase.Waiting? && Unusable(w, Current(w))
    ensures exists n :: 1 <= n <= 4 && GivesUp(w, n)
  {
    if w.seen == Current(w) {
      SeenIsGivenUp(w);
    } else {
      StepKeepsInv(w, Forward);
      var v := After(w, Forward);
      BorrowedIsGivenUp(v);
      var n :| 1 <= n <= 3 && GivesUp(v, n);
      GivesUpLater(w, n);
    }
  }

  lemma SentInVainIsGivenUp<A>(w: World<A>)
    requires Inv(w) && w.phase.Sending? && w.phase.dest in w.closed && Unusable(w, Current(w))
    ensures exists n :: 1 <= n <= 5 && GivesUp(w, n)
  {
    StepKeepsInv(w, Forward);
    var v := After(w, Forward);
    WaitingIsGivenUp(v);
    var n :| 1 <= n <= 4 && GivesUp(v, n);
    GivesUpLater(w, n);
  }

  /**
   Left alone with a newest destination that is absent or closed, the forwarder tries it and rests within six
   steps, the message still in its hand: it neither spins nor ends while another destination may come.
   */
  lemma UselessDestinationIsGivenUp<A>(w: World<A>)
    requires Inv(w) && w.hand.Some? && !w.phase.Ended? && Unusable(w, Current(w))
    requires w.phase.Sending? ==> w.phase.dest in w.closed
    ensures exists n :: 1 <= n <= 6 && GivesUp(w, n)
  {
    match w.phase
    case Sending(_) => SentInVainIsGivenUp(w);
    case Waiting => WaitingIsGivenUp(w);
    case Borrowing =>
      StepKeepsInv(w, Forward);
      var v := After(w, Forward);
      if v.phase.Sending? {
        SentInVainIsGivenUp(v);
      } else {
        WaitingIsGivenUp(v);
      }
      var n :| 1 <= n <= 5 && GivesUp(v, n);
      GivesUpLater(w, n);
  }
}
