/** What the supervisor's registrations come to, one by one and over a whole run. */
module SupervisorLaws {
  import opened Prelude
  import opened Supervisor

  /** Every active task was spawned for its gateway, and is neither aborted nor known to have finished. */
  predicate Inv(s: Sup, finished: set<Task>) {
    && (forall j :: 0 <= j < |s.spawned| ==> s.spawned[j].task == j)
    && (forall uri <- s.active ::
          s.active[uri] < |s.spawned| && s.spawned[s.active[uri]].uri == uri && s.active[uri] !in s.aborted)
    && (forall j :: 0 <= j < |s.spawned| ==>
          || (s.spawned[j].uri in s.active && s.active[s.spawned[j].uri] == j)
          || j in s.aborted || j in finished)
    && (forall j <- s.aborted :: j < |s.spawned|)
  }

  /** The new tasks are exactly for the configured gateways that had none, one each. */
  predicate Extends(s: Sup, t: Sup, configs: seq<Uri>) {
    && t.active.Keys == s.active.Keys + (set uri <- configs)
    && (forall uri <- s.active :: t.active[uri] == s.active[uri])
    && s.spawned <= t.spawned && t.aborted == s.aborted
    && (forall j :: |s.spawned| <= j < |t.spawned| ==>
          t.spawned[j].task == j && t.spawned[j].uri !in s.active
          && t.spawned[j].uri in t.active && t.active[t.spawned[j].uri] == j)
    && (forall uri <- t.active | uri !in s.active ::
          |s.spawned| <= t.active[uri] < |t.spawned| && t.spawned[t.active[uri]].uri == uri)
  }

  /** The endpoint goes to the first new task, and to no other. */
  predicate HandsOver(s: Sup, t: Sup, first: bool) {
    && t.kex == (s.kex && !first)
    && forall j :: |s.spawned| <= j < |t.spawned| ==> t.spawned[j].withKex == (s.kex && first && j == |s.spawned|)
  }

  lemma SpawnOneExtends(s: Sup, t: Sup, configs: seq<Uri>, uri: Uri, first: bool)
    requires Extends(s, t, configs)
    ensures Extends(s, SpawnOne(t, uri, first), configs + [uri])
  {
    assert (set u <- configs + [uri]) == (set u <- configs) + {uri};
    var v := SpawnOne(t, uri, first);
    forall j | |s.spawned| <= j < |t.spawned|
      ensures v.spawned[j] == t.spawned[j]
    {
    }
  }

  lemma {:induction false} SpawnAllExtends(s: Sup, configs: seq<Uri>, firstBatch: bool)
    ensures Extends(s, SpawnAll(s, configs, firstBatch), configs)
    decreases |configs|
  {
    if configs != [] {
      var n := |configs| - 1;
      SpawnAllExtends(s, configs[..n], firstBatch);
      SpawnOneExtends(s, SpawnAll(s, configs[..n], firstBatch), configs[..n], configs[n], firstBatch && n == 0);
      assert configs == configs[..n] + [configs[n]];
    }
  }

  lemma {:induction false} SpawnAllHandsOver(s: Sup, configs: seq<Uri>, firstBatch: bool)
    requires configs != [] && (firstBatch ==> s.active == map[])
    ensures HandsOver(s, SpawnAll(s, configs, firstBatch), firstBatch)
    decreases |configs|
  {
    var n := |configs| - 1;
    if n == 0 {
      assert SpawnAll(s, configs[..0], firstBatch) == s;
    } else {
      var t := SpawnAll(s, configs[..n], firstBatch);
      SpawnAllHandsOver(s, configs[..n], firstBatch);
      SpawnAllExtends(s, configs[..n], firstBatch);
      assert configs[..n][0] in t.active;
      assert firstBatch ==> |t.spawned| > |s.spawned|;
    }
  }

  // ------------------------------------------------------------------ one registration

  /** A task goes on, is aborted, or has finished. */
  lemma TaskFates(s: Sup, configs: seq<Uri>, finished: set<Task>)
    ensures var t := Surviving(s, configs, finished);
      && (forall uri <- s.active | s.active[uri] !in finished ::
            if uri in configs then uri in t.active && t.active[uri] == s.active[uri] else s.active[uri] in t.aborted)
      && (forall uri <- t.active :: uri in s.active && t.active[uri] == s.active[uri] && s.active[uri] !in finished)
      && (forall uri <- t.active :: uri in configs)
  {
    var running := Unfinished(s.active, finished);
    forall uri <- s.active | s.active[uri] !in finished && uri !in configs
      ensures s.active[uri] in Unwanted(running, configs)
    {
      assert running[uri] == s.active[uri];
    }
  }

  /**
   After a reconciliation there is one task for each configured gateway and no other. Tasks that were
   still running keep going, all others are new, and the dropped ones have been aborted.
   */
  lemma ReconcileMatchesConfigs(s: Sup, configs: seq<Uri>, finished: set<Task>)
    ensures var t := Reconcile(s, configs, finished);
      && t.active.Keys == (set uri <- configs)
      && (forall uri <- s.active | uri in configs && s.active[uri] !in finished :: t.active[uri] == s.active[uri])
      && (forall uri <- t.active | !(uri in s.active && s.active[uri] !in finished) ::
            |s.spawned| <= t.active[uri] < |t.spawned| && t.spawned[t.active[uri]].uri == uri)
      && (forall uri <- s.active | uri !in configs && s.active[uri] !in finished :: s.active[uri] in t.aborted)
  {
    var t := Surviving(s, configs, finished);
    TaskFates(s, configs, finished);
    SpawnAllExtends(t, configs, t.active == map[]);
  }

  /** Listing a gateway twice spawns it once: tasks spawned together are for different gateways. */
  lemma DuplicatesSpawnOnce(s: Sup, configs: seq<Uri>, finished: set<Task>, i: nat, j: nat)
    requires |s.spawned| <= i < j < |Reconcile(s, configs, finished).spawned|
    ensures Reconcile(s, configs, finished).spawned[i].uri != Reconcile(s, configs, finished).spawned[j].uri
  {
    var t := Surviving(s, configs, finished);
    SpawnAllExtends(t, configs, t.active == map[]);
  }

  lemma SurvivingKeeps(s: Sup, configs: seq<Uri>, finished: set<Task>, done: set<Task>)
    requires Inv(s, done)
    ensures Inv(Surviving(s, configs, finished), done + finished)
  {
    TaskFates(s, configs, finished);
  }

  lemma ExtendsKeeps(s: Sup, t: Sup, configs: seq<Uri>, done: set<Task>)
    requires Inv(s, done) && Extends(s, t, configs)
    ensures Inv(t, done)
  {
    forall j | 0 <= j < |s.spawned|
      ensures t.spawned[j] == s.spawned[j]
    {
    }
  }

  lemma RegisterKeeps(s: Sup, r: Registration, done: set<Task>)
    requires Inv(s, done)
    ensures Inv(Register(s, r), done + r.finished)
  {
    if !(r.configs.None? || r.configs.value == []) {
      var t := Surviving(s, r.configs.value, r.finished);
      SurvivingKeeps(s, r.configs.value, r.finished, done);
      SpawnAllExtends(t, r.configs.value, t.active == map[]);
      ExtendsKeeps(t, Register(s, r), r.configs.value, done + r.finished);
    }
  }

  // ------------------------------------------------------------------ whole runs

  function Finished(rs: seq<Registration>): set<Task> {
    if rs == [] then {} else Finished(rs[..|rs| - 1]) + rs[|rs| - 1].finished
  }

  predicate Lists(r: Registration) {
    r.configs.Some? && r.configs.value != []
  }

  predicate Listed(rs: seq<Registration>) {
    exists i :: 0 <= i < |rs| && Lists(rs[i])
  }

  /** No task is forgotten: each one spawned is active, was aborted, or was found finished. */
  lemma {:induction false} NoTaskIsForgotten(kex: bool, rs: seq<Registration>)
    ensures Inv(RunAll(Start(kex), rs), Finished(rs))
  {
    if rs != [] {
      NoTaskIsForgotten(kex, rs[..|rs| - 1]);
      RegisterKeeps(RunAll(Start(kex), rs[..|rs| - 1]), rs[|rs| - 1], Finished(rs[..|rs| - 1]));
    }
  }

  /**
   Up to the first registration that lists a gateway nothing happens. From then on there is always
   an active connection, and the very first task has the key-exchange endpoint, alone and for good.
   */
  lemma {:induction false} KexIsHandedOutOnce(kex: bool, rs: seq<Registration>)
    ensures var s := RunAll(Start(kex), rs);
      if !Listed(rs) then s == Start(kex)
      else
        && s.active != map[] && !s.kex && s.spawned != []
        && forall j :: 0 <= j < |s.spawned| ==> s.spawned[j].withKex == (kex && j == 0)
  {
    if rs != [] {
      var n := |rs| - 1;
      var before, r := rs[..n], rs[n];
      KexIsHandedOutOnce(kex, before);
      assert Listed(rs) <==> Listed(before) || Lists(r) by {
        if Listed(before) {
          var i :| 0 <= i < n && Lists(before[i]);
          assert Lists(rs[i]);
        }
        if Lists(r) {
          assert Lists(rs[n]);
        }
        if Listed(rs) && !Lists(r) {
          var i :| 0 <= i < |rs| && Lists(rs[i]);
          assert Lists(before[i]);
        }
      }
      if Lists(r) {
        var s := RunAll(Start(kex), before);
        var t := Surviving(s, r.configs.value, r.finished);
        SpawnAllExtends(t, r.configs.value, t.active == map[]);
        SpawnAllHandsOver(t, r.configs.value, t.active == map[]);
        assert r.configs.value[0] in Register(s, r).active;
      }
    }
  }
}
