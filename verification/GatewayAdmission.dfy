/**
 How many `hydra-node`s a gateway runs at a time for platforms: every attempt to
 start one clones a shared counter first, and only then compares the count with
 the limit. Connections do this concurrently.
 */
module GatewayAdmission {
  import opened Prelude

  /** Where the key exchange of one connection is; all but `Absent` hold a clone of the counter. */
  datatype Phase = Absent | Cloned | Counted(count: nat) | Checked | Live

  /** `strong` is the reference count of the counter, one of which is the manager's own. */
  datatype World = World(strong: nat, phases: seq<Phase>)

  datatype Step =
    | Connect
    | Drop(c: nat)
    | Clone(c: nat)
    | Count(c: nat)
    | Decide(c: nat)
    | Spawn(c: nat, ok: bool)

  function Start(): World {
    World(1, [])
  }

  predicate Enabled(w: World, step: Step) {
    match step
    case Connect => true
    case Drop(c) => c < |w.phases| && w.phases[c] == Live
    case Clone(c) => c < |w.phases| && w.phases[c] == Absent
    case Count(c) => c < |w.phases| && w.phases[c] == Cloned
    case Decide(c) => c < |w.phases| && w.phases[c].Counted?
    case Spawn(c, _) => c < |w.phases| && w.phases[c] == Checked
  }

  /** `saturating_sub(1)` takes the manager's own reference away. */
  function OtherHolders(w: World): nat {
    if w.strong == 0 then 0 else w.strong - 1
  }

  function Released(w: World, c: nat): World
    requires c < |w.phases|
  {
    World(OtherHolders(w), w.phases[c := Absent])
  }

  function After(max: U64, w: World, step: Step): World
    requires Enabled(w, step)
  {
    match step
    case Connect => w.(phases := w.phases + [Absent])
    case Drop(c) => Released(w, c)
    case Clone(c) => World(w.strong + 1, w.phases[c := Cloned])
    case Count(c) => w.(phases := w.phases[c := Counted(OtherHolders(w))])
    case Decide(c) => if w.phases[c].count > max then Released(w, c) else w.(phases := w.phases[c := Checked])
    case Spawn(c, ok) => if ok then w.(phases := w.phases[c := Live]) else Released(w, c)
  }

  predicate Possible(max: U64, w: World, steps: seq<Step>)
    decreases |steps|
  {
    steps == [] || (Enabled(w, steps[0]) && Possible(max, After(max, w, steps[0]), steps[1..]))
  }

  function Run(max: U64, w: World, steps: seq<Step>): World
    requires Possible(max, w, steps)
    decreases |steps|
  {
    if steps == [] then w else Run(max, After(max, w, steps[0]), steps[1..])
  }

  // ------------------------------------------------------------------ counting

  function Holders(phases: seq<Phase>): nat {
    if phases == [] then 0
    else Holders(phases[..|phases| - 1]) + (if phases[|phases| - 1].Absent? then 0 else 1)
  }

  predicate Passes(max: U64, p: Phase) {
    p.Checked? || p.Live? || (p.Counted? && p.count <= max)
  }

  /** The connections that the limit has let through. */
  function Admitted(max: U64, phases: seq<Phase>): nat {
    if phases == [] then 0
    else Admitted(max, phases[..|phases| - 1]) + (if Passes(max, phases[|phases| - 1]) then 1 else 0)
  }

  lemma {:induction false} AdmittedHold(max: U64, phases: seq<Phase>)
    ensures Admitted(max, phases) <= Holders(phases)
  {
    if phases != [] {
      AdmittedHold(max, phases[..|phases| - 1]);
    }
  }

  /** Changing one connection changes the counts by what it counts for. */
  lemma {:induction false} Replaced(max: U64, phases: seq<Phase>, c: nat, p: Phase)
    requires c < |phases|
    ensures Holders(phases[c := p])
         == Holders(phases) - (if phases[c].Absent? then 0 else 1) + (if p.Absent? then 0 else 1)
    ensures Admitted(max, phases[c := p])
         == Admitted(max, phases) - (if Passes(max, phases[c]) then 1 else 0) + (if Passes(max, p) then 1 else 0)
    decreases |phases|
  {
    var n := |phases| - 1;
    if c < n {
      Replaced(max, phases[..n], c, p);
      assert phases[c := p][..n] == phases[..n][c := p];
    } else {
      assert phases[c := p][..n] == phases[..n];
    }
  }

  // ------------------------------------------------------------------ the limit

  predicate Inv(max: U64, w: World) {
    && w.strong == 1 + Holders(w.phases)
    && Admitted(max, w.phases) <= max
  }

  lemma StepKeepsInv(max: U64, w: World, step: Step)
    requires Inv(max, w) && Enabled(w, step)
    ensures Inv(max, After(max, w, step))
  {
    match step
    case Connect =>
      assert (w.phases + [Absent])[..|w.phases|] == w.phases;
    case Drop(c) => Replaced(max, w.phases, c, Absent);
    case Clone(c) => Replaced(max, w.phases, c, Cloned);
    case Count(c) =>
      var next := w.phases[c := Counted(OtherHolders(w))];
      Replaced(max, w.phases, c, Counted(OtherHolders(w)));
      AdmittedHold(max, next);
    case Decide(c) =>
      Replaced(max, w.phases, c, Absent);
      Replaced(max, w.phases, c, Checked);
    case Spawn(c, ok) =>
      Replaced(max, w.phases, c, Absent);
      Replaced(max, w.phases, c, Live);
  }

  lemma {:induction false} RunKeepsInv(max: U64, w: World, steps: seq<Step>)
    requires Inv(max, w) && Possible(max, w, steps)
    ensures Inv(max, Run(max, w, steps))
    decreases |steps|
  {
    if steps != [] {
      StepKeepsInv(max, w, steps[0]);
      RunKeepsInv(max, After(max, w, steps[0]), steps[1..]);
    }
  }

  /** In every interleaving of the connections, no more than `max` are past the check or running. */
  lemma AdmissionIsCapped(max: U64, steps: seq<Step>)
    requires Possible(max, Start(), steps)
    ensures Admitted(max, Run(max, Start(), steps).phases) <= max
    ensures Run(max, Start(), steps).strong == 1 + Holders(Run(max, Start(), steps).phases)
  {
    RunKeepsInv(max, Start(), steps);
  }

  /** An attempt is turned away exactly when, as it counted, the attempts under way exceeded the limit. */
  lemma TurnedAwayIff(max: U64, w: World, c: nat)
    requires Inv(max, w) && Enabled(w, Count(c))
    ensures Enabled(After(max, w, Count(c)), Decide(c))
    ensures After(max, After(max, w, Count(c)), Decide(c)).phases[c] == Absent <==> Holders(w.phases) > max
  {
  }

  lemma {:induction false} Extend(max: U64, w: World, steps: seq<Step>, step: Step)
    requires Possible(max, w, steps) && Enabled(Run(max, w, steps), step)
    ensures Possible(max, w, steps + [step]) && Run(max, w, steps + [step]) == After(max, Run(max, w, steps), step)
    decreases |steps|
  {
    if steps == [] {
      assert [] + [step] == [step] && [step][1..] == [];
    } else {
      assert (steps + [step])[1..] == steps[1..] + [step];
      Extend(max, After(max, w, steps[0]), steps[1..], step);
    }
  }

  /** The price of cloning first: two attempts at the only place can turn each other away. */
  lemma BothTurnedAway() returns (steps: seq<Step>)
    ensures Possible(1, Start(), steps)
    ensures Decide(0) in steps && Decide(1) in steps
    ensures Run(1, Start(), steps) == World(1, [Absent, Absent])
  {
    var w := Start();
    Extend(1, w, [], Connect);
    steps := [] + [Connect];
    Extend(1, w, steps, Connect);
    steps := steps + [Connect];
    assert Run(1, w, steps).phases == [Absent, Absent];
    Extend(1, w, steps, Clone(0));
    steps := steps + [Clone(0)];
    Extend(1, w, steps, Clone(1));
    steps := steps + [Clone(1)];
    Extend(1, w, steps, Count(0));
    steps := steps + [Count(0)];
    Extend(1, w, steps, Count(1));
    steps := steps + [Count(1)];
    assert Run(1, w, steps).phases == [Counted(2), Counted(2)];
    Extend(1, w, steps, Decide(0));
    steps := steps + [Decide(0)];
    Extend(1, w, steps, Decide(1));
    steps := steps + [Decide(1)];
    assert Run(1, w, steps).phases == [Absent, Absent];
  }
}
