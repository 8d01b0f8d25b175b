/**
 Keeps one connection task per gateway of the latest registration, and hands the
 one key-exchange endpoint of the platform to a single one of them.
 */
module Supervisor {
  import opened Prelude

  type Uri = string

  /** Tasks are numbered as they are spawned. */
  type Task = nat

  datatype Spawn = Spawn(uri: Uri, task: Task, withKex: bool)

  /** `kex` tells whether the endpoint is still here; `spawned` and `aborted` record what was done. */
  datatype Sup = Sup(active: map<Uri, Task>, kex: bool, spawned: seq<Spawn>, aborted: set<Task>)

  // ------------------------------------------------------------------ specification

  function Unfinished(active: map<Uri, Task>, finished: set<Task>): map<Uri, Task> {
    map uri | uri in active && active[uri] !in finished :: active[uri]
  }

  function Wanted(active: map<Uri, Task>, configs: seq<Uri>): map<Uri, Task> {
    map uri | uri in active && uri in configs :: active[uri]
  }

  function Tasks(active: map<Uri, Task>, uris: set<Uri>): set<Task>
    requires uris <= active.Keys
  {
    set uri <- uris :: active[uri]
  }

  function Unwanted(active: map<Uri, Task>, configs: seq<Uri>): set<Task> {
    Tasks(active, set uri | uri in active && uri !in configs)
  }

  lemma OneMoreTask(active: map<Uri, Task>, uris: set<Uri>, uri: Uri)
    requires uris + {uri} <= active.Keys
    ensures Tasks(active, uris + {uri}) == Tasks(active, uris) + {active[uri]}
  {
  }

  /** A configured gateway without a task gets one; the first of the first batch takes the endpoint. */
  function SpawnOne(s: Sup, uri: Uri, first: bool): Sup {
    if uri in s.active then s
    else
      var task := |s.spawned|;
      Sup(s.active[uri := task], s.kex && !first, s.spawned + [Spawn(uri, task, s.kex && first)], s.aborted)
  }

  function SpawnAll(s: Sup, configs: seq<Uri>, firstBatch: bool): Sup {
    if configs == [] then s
    else
      var n := |configs| - 1;
      SpawnOne(SpawnAll(s, configs[..n], firstBatch), configs[n], firstBatch && n == 0)
  }

  /** Only the connections that go on. */
  function Surviving(s: Sup, configs: seq<Uri>, finished: set<Task>): Sup {
    var running := Unfinished(s.active, finished);
    s.(active := Wanted(running, configs), aborted := s.aborted + Unwanted(running, configs))
  }

  function Reconcile(s: Sup, configs: seq<Uri>, finished: set<Task>): Sup {
    var t := Surviving(s, configs, finished);
    SpawnAll(t, configs, t.active == map[])
  }

  /** A registration fails, or lists gateways; an empty list changes nothing. */
  datatype Registration = Registration(configs: Option<seq<Uri>>, finished: set<Task>)

  function Register(s: Sup, r: Registration): Sup {
    if r.configs.None? || r.configs.value == [] then s else Reconcile(s, r.configs.value, r.finished)
  }

  function RunAll(s: Sup, rs: seq<Registration>): Sup {
    if rs == [] then s else Register(RunAll(s, rs[..|rs| - 1]), rs[|rs| - 1])
  }

  function Start(kex: bool): Sup {
    Sup(map[], kex, [], {})
  }

  // ------------------------------------------------------------------ the supervisor

  class ConnectionSupervisor {
    var active: map<Uri, Task>
    var hydraKex: bool
    var nextTask: Task
    ghost var spawned: seq<Spawn>
    ghost var aborted: set<Task>

    ghost predicate Valid()
      reads this
    {
      nextTask == |spawned|
    }

    ghost function View(): Sup
      reads this
    {
      Sup(active, hydraKex, spawned, aborted)
    }

    constructor (hydraKex: bool)
      ensures Valid() && View() == Start(hydraKex)
    {
      active, this.hydraKex, nextTask, spawned, aborted := map[], hydraKex, 0, [], {};
    }

    method RemoveFinished(finished: set<Task>)
      modifies this`active
      ensures active == Unfinished(old(active), finished)
    {
      var keys := active.Keys;
      while keys != {}
        invariant keys <= active.Keys <= old(active).Keys
        invariant forall uri <- active :: active[uri] == old(active)[uri]
        invariant forall uri <- old(active) ::
          uri in active <==> uri in keys || old(active)[uri] !in finished
        decreases |keys|
        modifies this`active
      {
        var uri :| uri in keys;
        keys := keys - {uri};
        if active[uri] in finished {
          active := active - {uri};
        }
      }
    }

    method AbortUnwanted(configs: seq<Uri>)
      modifies this`active, this`aborted
      ensures active == Wanted(old(active), configs)
      ensures aborted == old(aborted) + Unwanted(old(active), configs)
    {
      var removed := set uri | uri in active && uri !in configs;
      ghost var was, out := active, removed;
      while removed != {}
        invariant removed <= out && out <= was.Keys
        invariant active == was - (out - removed)
        invariant aborted == old(aborted) + Tasks(was, out - removed)
        decreases |removed|
        modifies this`active, this`aborted
      {
        var uri :| uri in removed;
        OneMoreTask(was, out - removed, uri);
        assert out - removed + {uri} == out - (removed - {uri});
        removed := removed - {uri};
        aborted := aborted + {active[uri]};
        active := active - {uri};
      }
      assert out - removed == out;
    }

    method ReconcileConnections(configs: seq<Uri>, finished: set<Task>)
      requires Valid()
      modifies this
      ensures Valid() && View() == Reconcile(old(View()), configs, finished)
    {
      RemoveFinished(finished);
      AbortUnwanted(configs);
      ghost var start := View();
      var firstBatch := active == map[];
      for i := 0 to |configs|
        invariant Valid() && View() == SpawnAll(start, configs[..i], firstBatch)
      {
        var uri := configs[i];
        if uri !in active {
          var withKex := firstBatch && i == 0 && hydraKex;
          if withKex {
            hydraKex := false;
          }
          spawned := spawned + [Spawn(uri, nextTask, withKex)];
          active := active[uri := nextTask];
          nextTask := nextTask + 1;
        }
        assert configs[..i + 1][..i] == configs[..i];
      }
      assert configs[..|configs|] == configs;
    }

    /** One turn of the loop of `run_all`. */
    method OnRegistration(r: Registration)
      requires Valid()
      modifies this
      ensures Valid() && View() == Register(old(View()), r)
    {
      if r.configs.Some? && r.configs.value != [] {
        ReconcileConnections(r.configs.value, r.finished);
      }
    }
  }
}
