/** The asset cache as a protocol: fetches, uses and evictions on the foreground thread, worker
    completions at any time, and the foreground task that publishes a result later. */
module AssetCache {
  import opened Basics

  type View = nat
  type Value = nat

  /** An asset is cached per type and hash of its source. */
  datatype Key = Key(assetType: nat, hash: nat)

  datatype Cell = Loading(views: set<View>) | Loaded(result: Value)

  function CellUse(c: Cell, view: View): Cell {
    match c case Loading(views) => Loading(views + {view}) case Loaded(_) => c
  }

  /** The foreground task of a load: waiting for its worker, run to its end, or cancelled. */
  datatype Task = Pending | Finished | Cancelled

  /** One load: what it is for, its shared cell with the number of strong references to it, its
      worker's result once there is one, its task, which has only a weak reference to the cell,
      and (as history) which views used it while loading. */
  datatype Load = Load(key: Key, cell: Cell, strong: nat, worker: Option<Value>, task: Task, users: set<View>)

  /** `completedTwice` is set where the code would panic: a task found its cell loaded. */
  datatype State = State(entries: map<Key, nat>, loads: seq<Load>, notified: seq<(nat, View)>, completedTwice: bool)

  const INITIAL := State(map[], [], [], false)

  /** An eviction drops the load's reference to its cell and its task.  Whether the executor
      still polls the task afterwards is left open.  A task is polled at any time, of any load;
      a set of views is notified in some order. */
  datatype Action =
    | Fetch(key: Key)
    | Use(key: Key, view: View)
    | Evict(key: Key, cancels: bool)
    | WorkerDone(load: nat, result: Value)
    | Poll(load: nat, order: seq<View>)

  /** The cache holds this load. */
  predicate Held(s: State, id: nat) {
    id < |s.loads| && s.loads[id].key in s.entries && s.entries[s.loads[id].key] == id
  }

  /** The entry of a key, started now if there is none. */
  function AssetEntry(s: State, key: Key): State {
    if key in s.entries then s
    else s.(entries := s.entries[key := |s.loads|],
            loads := s.loads + [Load(key, Loading({}), 1, None, Pending, {})])
  }

  predicate Enumerates(order: seq<View>, views: set<View>) {
    && (forall v | v in order :: v in views)
    && (forall v | v in views :: v in order)
    && (forall i, j :: 0 <= i < j < |order| ==> order[i] != order[j])
  }

  function Notes(id: nat, order: seq<View>): seq<(nat, View)> {
    seq(|order|, i requires 0 <= i < |order| => (id, order[i]))
  }

  function UseEntry(s: State, id: nat, view: View): State
    requires id < |s.loads|
  {
    var load := s.loads[id];
    s.(loads := s.loads[id := load.(cell := CellUse(load.cell, view),
                                    users := if load.cell.Loading? then load.users + {view} else load.users)])
  }

  /** Dropping a cached load: one strong reference less, and possibly a cancelled task. */
  function DropLoad(load: Load, cancels: bool): Load
    requires load.strong > 0
  {
    load.(strong := load.strong - 1, task := if cancels && load.task == Pending then Cancelled else load.task)
  }

  /** The task runs: without an upgrade it ends at once; otherwise it stores the result, and
      then notifies the views it found, or panics if it found a result. */
  function RunTask(s: State, id: nat, order: seq<View>): State
    requires id < |s.loads| && s.loads[id].worker.Some?
  {
    var load := s.loads[id];
    if load.strong == 0 then s.(loads := s.loads[id := load.(task := Finished)])
    else
      var stored := s.(loads := s.loads[id := load.(cell := Loaded(load.worker.value), task := Finished)]);
      match load.cell
      case Loading(_) => stored.(notified := s.notified + Notes(id, order))
      case Loaded(_) => stored.(completedTwice := true)
  }

  /** Polling makes progress once the worker is done; an order of notification is possible
      only for exactly the views there are. */
  predicate Ready(s: State, id: nat, order: seq<View>) {
    && id < |s.loads| && s.loads[id].task == Pending && s.loads[id].worker.Some?
    && (s.loads[id].cell.Loading? ==> Enumerates(order, s.loads[id].cell.views))
  }

  function Step(s: State, a: Action): State {
    match a
    case Fetch(key) => AssetEntry(s, key)
    case Use(key, view) =>
      var s1 := AssetEntry(s, key);
      if s1.entries[key] < |s1.loads| then UseEntry(s1, s1.entries[key], view) else s1
    case Evict(key, cancels) =>
      var fewer := s.(entries := s.entries - {key});
      if key in s.entries && s.entries[key] < |s.loads| && s.loads[s.entries[key]].strong > 0
      then fewer.(loads := s.loads[s.entries[key] := DropLoad(s.loads[s.entries[key]], cancels)]) else fewer
    case WorkerDone(id, result) =>
      if id < |s.loads| && s.loads[id].worker == None
        then s.(loads := s.loads[id := s.loads[id].(worker := Some(result))]) else s
    case Poll(id, order) => if Ready(s, id, order) then RunTask(s, id, order) else s
  }

  function Run(actions: seq<Action>): State {
    if actions == [] then INITIAL else Step(Run(actions[..|actions| - 1]), actions[|actions| - 1])
  }

  // ---- The invariant ----

  function Count(log: seq<(nat, View)>, id: nat, view: View): nat {
    if log == [] then 0
    else Count(log[..|log| - 1], id, view) + if log[|log| - 1] == (id, view) then 1 else 0
  }

  ghost predicate LoadOk(s: State, id: nat)
    requires id < |s.loads|
  {
    var load := s.loads[id];
    match load.cell
    case Loading(views) =>
      && (load.task == Finished ==> load.strong == 0)
      && views == load.users && forall v :: Count(s.notified, id, v) == 0
    case Loaded(r) =>
      && load.task == Finished && load.worker == Some(r)
      && forall v :: Count(s.notified, id, v) == if v in load.users then 1 else 0
  }

  /** The map's reference is the only strong one, and while it is there the task is not cancelled. */
  ghost predicate StrongOk(s: State, id: nat)
    requires id < |s.loads|
  {
    if Held(s, id) then s.loads[id].strong == 1 && s.loads[id].task != Cancelled else s.loads[id].strong == 0
  }

  ghost predicate Inv(s: State) {
    && !s.completedTwice
    && (forall id :: 0 <= id < |s.loads| ==> StrongOk(s, id))
    && (forall k | k in s.entries :: s.entries[k] < |s.loads| && s.loads[s.entries[k]].key == k)
    && (forall id :: 0 <= id < |s.loads| ==> LoadOk(s, id))
    && (forall i :: 0 <= i < |s.notified| ==> s.notified[i].0 < |s.loads|)
  }

  lemma {:induction false} CountAppend(log: seq<(nat, View)>, more: seq<(nat, View)>, id: nat, view: View)
    ensures Count(log + more, id, view) == Count(log, id, view) + Count(more, id, view)
    decreases |more|
  {
    if more == [] {
      assert log + more == log;
    } else {
      assert (log + more)[..|log + more| - 1] == log + more[..|more| - 1];
      CountAppend(log, more[..|more| - 1], id, view);
    }
  }

  lemma {:induction false} CountNotes(id: nat, order: seq<View>, other: nat, view: View)
    requires forall i, j :: 0 <= i < j < |order| ==> order[i] != order[j]
    ensures Count(Notes(id, order), other, view) == if other == id && view in order then 1 else 0
  {
    if order != [] {
      var init := order[..|order| - 1];
      assert Notes(id, order)[..|order| - 1] == Notes(id, init);
      CountNotes(id, init, other, view);
      assert order == init + [order[|order| - 1]];
      assert view == order[|order| - 1] ==> view !in init;
    }
  }

  lemma {:induction false} CountNone(log: seq<(nat, View)>, id: nat, view: View)
    requires forall i :: 0 <= i < |log| ==> log[i].0 != id
    ensures Count(log, id, view) == 0
  {
    if log != [] {
      CountNone(log[..|log| - 1], id, view);
    }
  }

  lemma EntryKeepsInv(s: State, key: Key)
    requires Inv(s)
    ensures Inv(AssetEntry(s, key)) && key in AssetEntry(s, key).entries
  {
    var s' := AssetEntry(s, key);
    forall id | 0 <= id < |s'.loads| ensures LoadOk(s', id) && StrongOk(s', id) {
      if id < |s.loads| {
        assert LoadOk(s, id) && StrongOk(s, id);
      } else {
        forall v ensures Count(s.notified, id, v) == 0 { CountNone(s.notified, id, v); }
      }
    }
  }

  lemma PollKeepsInv(s: State, id: nat, order: seq<View>)
    requires Inv(s) && Ready(s, id, order)
    ensures Inv(RunTask(s, id, order))
  {
    hide Held;
    var s' := RunTask(s, id, order);
    assert LoadOk(s, id);
    forall i | 0 <= i < |s'.loads| ensures LoadOk(s', i) {
      assert LoadOk(s, i);
      if s.loads[id].strong > 0 {
        forall v ensures Count(s'.notified, i, v) == Count(s.notified, i, v) + if i == id && v in order then 1 else 0 {
          CountAppend(s.notified, Notes(id, order), i, v);
          CountNotes(id, order, i, v);
        }
      }
    }
    forall i | 0 <= i < |s'.loads| ensures StrongOk(s', i) { SameHeld(s, s', i); assert StrongOk(s, i); }
  }

  lemma SameHeld(s: State, s': State, i: nat)
    requires i < |s.loads| == |s'.loads| && s'.entries == s.entries && s'.loads[i].key == s.loads[i].key
    ensures Held(s', i) == Held(s, i)
  {
  }

  lemma EvictKeepsInv(s: State, key: Key, cancels: bool)
    requires Inv(s)
    ensures Inv(Step(s, Evict(key, cancels)))
  {
    var s' := Step(s, Evict(key, cancels));
    if key in s.entries { assert StrongOk(s, s.entries[key]); }
    forall i | 0 <= i < |s'.loads| ensures LoadOk(s', i) && StrongOk(s', i) {
      assert LoadOk(s, i) && StrongOk(s, i);
    }
  }

  lemma StepKeepsInv(s: State, a: Action)
    requires Inv(s)
    ensures Inv(Step(s, a))
  {
    match a {
      case Fetch(key) => EntryKeepsInv(s, key);
      case Use(key, view) =>
        EntryKeepsInv(s, key);
        UseKeepsInv(AssetEntry(s, key), key, view);
      case Evict(key, cancels) => EvictKeepsInv(s, key, cancels);
      case Poll(id, order) =>
        if Ready(s, id, order) { PollKeepsInv(s, id, order); }
      case WorkerDone(id, result) =>
        var s' := Step(s, a);
        forall i | 0 <= i < |s'.loads| ensures LoadOk(s', i) && StrongOk(s', i) {
          assert LoadOk(s, i) && StrongOk(s, i);
        }
    }
  }

  lemma UseKeepsInv(s: State, key: Key, view: View)
    requires Inv(s) && key in s.entries
    ensures Inv(UseEntry(s, s.entries[key], view))
  {
    var s' := UseEntry(s, s.entries[key], view);
    assert StrongOk(s, s.entries[key]);
    forall i | 0 <= i < |s'.loads| ensures LoadOk(s', i) && StrongOk(s', i) {
      assert LoadOk(s, i) && StrongOk(s, i);
    }
  }

  lemma {:induction false} RunKeepsInv(actions: seq<Action>)
    ensures Inv(Run(actions))
  {
    if actions != [] {
      RunKeepsInv(actions[..|actions| - 1]);
      StepKeepsInv(Run(actions[..|actions| - 1]), actions[|actions| - 1]);
    }
  }

  // ---- What the protocol guarantees ----

  /** A loaded entry holds its own worker's result, and each view that used it while it was
      loading has been notified of it exactly once; nobody is notified before. */
  lemma PublishedOwnResult(actions: seq<Action>, id: nat, view: View)
    requires id < |Run(actions).loads|
    ensures var s := Run(actions);
            match s.loads[id].cell
            case Loaded(r) =>
              && s.loads[id].worker == Some(r)
              && Count(s.notified, id, view) == if view in s.loads[id].users then 1 else 0
            case Loading(_) => Count(s.notified, id, view) == 0
  {
    RunKeepsInv(actions);
    assert LoadOk(Run(actions), id);
  }

  /** Action `i` of the run uses the load `id` for the view while it is loading. */
  ghost predicate UsesWhileLoading(actions: seq<Action>, i: nat, id: nat, view: View)
    requires i < |actions|
  {
    && actions[i].Use? && actions[i].view == view
    && var s := AssetEntry(Run(actions[..i]), actions[i].key);
       s.entries[actions[i].key] == id && id < |s.loads| && s.loads[id].cell.Loading?
  }

  ghost predicate UsedWhileLoading(actions: seq<Action>, id: nat, view: View) {
    exists i: nat :: i < |actions| && UsesWhileLoading(actions, i, id, view)
  }

  lemma UsesSnoc(actions: seq<Action>, id: nat, view: View)
    requires actions != []
    ensures var n := |actions| - 1;
            UsedWhileLoading(actions, id, view) <==>
              UsedWhileLoading(actions[..n], id, view) || UsesWhileLoading(actions, n, id, view)
  {
    hide Run, AssetEntry;
    var n := |actions| - 1;
    forall i: nat | i < n
      ensures UsesWhileLoading(actions, i, id, view) <==> UsesWhileLoading(actions[..n], i, id, view)
    {
      assert actions[..n][..i] == actions[..i];
    }
    if UsedWhileLoading(actions[..n], id, view) {
      var i: nat :| i < n && UsesWhileLoading(actions[..n], i, id, view);
      assert UsesWhileLoading(actions, i, id, view);
    }
  }

  /** The views of a load are exactly those that a step of the run used it for while loading. */
  lemma {:induction false} UsersFromRun(actions: seq<Action>, id: nat, view: View)
    requires id < |Run(actions).loads|
    ensures view in Run(actions).loads[id].users <==> UsedWhileLoading(actions, id, view)
  {
    var n := |actions| - 1;
    var init, a := actions[..n], actions[n];
    RunKeepsInv(init);
    hide Inv, Run, UsedWhileLoading, Step;
    RunSnoc(actions);
    UsesSnoc(actions, id, view);
    StepUsers(Run(init), a, id, view);
    if id < |Run(init).loads| {
      UsersFromRun(init, id, view);
    } else {
      NeverUsed(init, id, view);
    }
  }

  lemma NeverUsed(actions: seq<Action>, id: nat, view: View)
    requires id >= |Run(actions).loads|
    ensures !UsedWhileLoading(actions, id, view)
  {
    hide Run, UsesWhileLoading;
    forall i: nat | i < |actions| ensures !UsesWhileLoading(actions, i, id, view) { NotYetUsed(actions, i, id, view); }
  }

  lemma RunSnoc(actions: seq<Action>)
    requires actions != []
    ensures Run(actions) == Step(Run(actions[..|actions| - 1]), actions[|actions| - 1])
  {
  }

  /** What one step adds to the views of a load. */
  lemma StepUsers(s: State, a: Action, id: nat, view: View)
    requires Inv(s) && id < |Step(s, a).loads|
    ensures var uses := a.Use? && a.view == view &&
              var s1 := AssetEntry(s, a.key);
              s1.entries[a.key] == id && id < |s1.loads| && s1.loads[id].cell.Loading?;
            view in Step(s, a).loads[id].users <==> (id < |s.loads| && view in s.loads[id].users) || uses
  {
    hide LoadOk, StrongOk, Held, Notes, Enumerates;
  }

  /** Loads are never taken off the list. */
  lemma {:induction false} LoadsGrow(actions: seq<Action>, i: nat)
    requires i <= |actions|
    ensures |Run(actions[..i]).loads| <= |Run(actions).loads|
    decreases |actions|
  {
    if i == |actions| {
      assert actions[..i] == actions;
    } else {
      var init := actions[..|actions| - 1];
      assert init[..i] == actions[..i];
      LoadsGrow(init, i);
      RunKeepsInv(init);
      StepKeys(Run(init), actions[|actions| - 1]);
    }
  }

  lemma NotYetUsed(actions: seq<Action>, i: nat, id: nat, view: View)
    requires i < |actions| && id >= |Run(actions).loads|
    ensures !UsesWhileLoading(actions, i, id, view)
  {
    if UsesWhileLoading(actions, i, id, view) {
      assert actions[..i + 1][..i] == actions[..i];
      RunKeepsInv(actions[..i]);
      RunSnoc(actions[..i + 1]);
      StepKeys(Run(actions[..i]), actions[i]);
      LoadsGrow(actions, i + 1);
    }
  }

  /** The result of a load's worker is one that a worker step of the run gave for this load. */
  lemma {:induction false} WorkerFromRun(actions: seq<Action>, id: nat)
    requires id < |Run(actions).loads| && Run(actions).loads[id].worker.Some?
    ensures WorkerDone(id, Run(actions).loads[id].worker.value) in actions
  {
    var n := |actions| - 1;
    var init, a := actions[..n], actions[n];
    assert actions == init + [a];
    RunKeepsInv(init);
    RunSnoc(actions);
    hide Inv, Run;
    StepWorker(Run(init), a, id);
    if a != WorkerDone(id, Run(actions).loads[id].worker.value) {
      WorkerFromRun(init, id);
    }
  }

  lemma StepWorker(s: State, a: Action, id: nat)
    requires Inv(s) && id < |Step(s, a).loads| && Step(s, a).loads[id].worker.Some?
    ensures || a == WorkerDone(id, Step(s, a).loads[id].worker.value)
            || (id < |s.loads| && s.loads[id].worker == Step(s, a).loads[id].worker)
  {
    hide LoadOk, StrongOk, Held, Notes, Enumerates;
  }

  /** A load's cell has a strong reference exactly as long as the cache holds the load, and a
      task that gets one never finds a result: the panic is never reached. */
  lemma NeverCompletesTwice(actions: seq<Action>, id: nat)
    requires id < |Run(actions).loads|
    ensures var s := Run(actions);
            && !s.completedTwice
            && (s.loads[id].strong > 0 <==> Held(s, id))
            && (Held(s, id) ==> (s.loads[id].task == Pending <==> s.loads[id].cell.Loading?))
  {
    RunKeepsInv(actions);
    assert LoadOk(Run(actions), id) && StrongOk(Run(actions), id);
  }

  /** Later states extend earlier ones: a load keeps its key, a result never changes. */
  ghost predicate Evolves(s: State, s': State, id: nat) {
    && id < |s.loads| <= |s'.loads|
    && s'.loads[id].key == s.loads[id].key
    && (s.loads[id].worker.Some? ==> s'.loads[id].worker == s.loads[id].worker)
    && (s.loads[id].cell.Loaded? ==> s'.loads[id].cell == s.loads[id].cell)
    && (!Held(s, id) ==>
          !Held(s', id) && s'.loads[id].cell == s.loads[id].cell && s'.loads[id].users == s.loads[id].users)
  }

  lemma StepEvolves(s: State, a: Action, id: nat)
    requires Inv(s) && id < |s.loads|
    ensures Evolves(s, Step(s, a), id)
  {
    assert LoadOk(s, id) && StrongOk(s, id);
    if a.Use? || a.Fetch? {
      EntryKeepsInv(s, a.key);
      hide Inv, LoadOk, Notes;
    } else {
      hide LoadOk, Notes, Enumerates;
    }
  }

  lemma EvolvesTransitive(a: State, b: State, c: State, id: nat)
    requires Evolves(a, b, id) && Evolves(b, c, id)
    ensures Evolves(a, c, id)
  {
  }

  /** From any point of a run on: a load that is loaded stays as it is, and a load that the
      cache has let go is never published, neither into its own cell nor into a replacement. */
  lemma {:induction false} RunEvolves(actions: seq<Action>, i: nat, id: nat)
    requires i <= |actions| && id < |Run(actions[..i]).loads|
    ensures Evolves(Run(actions[..i]), Run(actions), id)
    decreases |actions|
  {
    if i == |actions| {
      assert actions[..i] == actions;
    } else {
      var init := actions[..|actions| - 1];
      assert init[..i] == actions[..i];
      RunEvolves(init, i, id);
      RunKeepsInv(init);
      StepEvolves(Run(init), actions[|actions| - 1], id);
      EvolvesTransitive(Run(actions[..i]), Run(init), Run(actions), id);
    }
  }

  function LoadsFor(loads: seq<Load>, key: Key): nat {
    if loads == [] then 0 else LoadsFor(loads[..|loads| - 1], key) + if loads[|loads| - 1].key == key then 1 else 0
  }

  /** How often a run asked for a key that was not cached. */
  function Misses(actions: seq<Action>, key: Key): nat {
    if actions == [] then 0
    else
      var init, a := actions[..|actions| - 1], actions[|actions| - 1];
      Misses(init, key) + if (a.Fetch? || a.Use?) && a.key == key && key !in Run(init).entries then 1 else 0
  }

  lemma {:induction false} SameKeysSameLoads(a: seq<Load>, b: seq<Load>, key: Key)
    requires |a| == |b| && forall i :: 0 <= i < |a| ==> a[i].key == b[i].key
    ensures LoadsFor(a, key) == LoadsFor(b, key)
  {
    if a != [] {
      SameKeysSameLoads(a[..|a| - 1], b[..|b| - 1], key);
    }
  }

  /** Only a request that finds no entry adds a load; no step changes what a load is for. */
  lemma StepKeys(s: State, a: Action)
    requires Inv(s)
    ensures var loads := if a.Fetch? || a.Use? then AssetEntry(s, a.key).loads else s.loads;
            && |Step(s, a).loads| == |loads|
            && forall i :: 0 <= i < |loads| ==> Step(s, a).loads[i].key == loads[i].key
  {
    hide LoadOk, StrongOk, Held, Notes, Enumerates;
  }

  lemma StepCounts(s: State, a: Action, key: Key)
    requires Inv(s)
    ensures LoadsFor(Step(s, a).loads, key) ==
            LoadsFor(s.loads, key) + if (a.Fetch? || a.Use?) && a.key == key && key !in s.entries then 1 else 0
  {
    hide Inv, Step, LoadsFor, AssetEntry;
    StepKeys(s, a);
    if a.Fetch? || a.Use? {
      EntryCounts(s, a.key, key);
      SameKeysSameLoads(AssetEntry(s, a.key).loads, Step(s, a).loads, key);
    } else {
      SameKeysSameLoads(s.loads, Step(s, a).loads, key);
    }
  }

  lemma EntryCounts(s: State, requested: Key, key: Key)
    ensures LoadsFor(AssetEntry(s, requested).loads, key) ==
            LoadsFor(s.loads, key) + if requested == key && key !in s.entries then 1 else 0
  {
    var loads := AssetEntry(s, requested).loads;
    if requested !in s.entries {
      assert loads[..|loads| - 1] == s.loads;
    }
  }

  /** Loads started equal requests that found no entry, for every key. */
  lemma {:induction false} OneLoadPerMiss(actions: seq<Action>, key: Key)
    ensures LoadsFor(Run(actions).loads, key) == Misses(actions, key)
  {
    hide Inv, Step;
    if actions != [] {
      var init := actions[..|actions| - 1];
      OneLoadPerMiss(init, key);
      RunKeepsInv(init);
      StepCounts(Run(init), actions[|actions| - 1], key);
    }
  }

  // ---- The cache itself ----

  /** The application's map of assets and the loads it started, updated in place. */
  class Assets {
    var loadingAssets: map<Key, nat>
    var loads: seq<Load>
    var notified: seq<(nat, View)>
    var completedTwice: bool

    ghost function View(): State
      reads this
    {
      State(loadingAssets, loads, notified, completedTwice)
    }

    ghost predicate Valid()
      reads this
    {
      Inv(View())
    }

    constructor ()
      ensures Valid() && View() == INITIAL
    {
      loadingAssets, loads, notified, completedTwice := map[], [], [], false;
    }

    /** The load of a key, started if there is none; no other load is touched. */
    method Entry(key: Key) returns (id: nat)
      requires Valid()
      modifies this`loadingAssets, this`loads
      ensures Valid() && View() == AssetEntry(old(View()), key)
      ensures Held(View(), id) && loads[id].key == key
      ensures id < |old(loads)| <==> key in old(loadingAssets)
    {
      EntryKeepsInv(View(), key);
      if key !in loadingAssets {
        loadingAssets := loadingAssets[key := |loads|];
        loads := loads + [Load(key, Loading({}), 1, None, Pending, {})];
      }
      id := loadingAssets[key];
    }

    /** The result of a key's own worker, once its task has run. */
    method FetchAsset(key: Key) returns (r: Option<Value>)
      requires Valid()
      modifies this`loadingAssets, this`loads
      ensures Valid() && View() == Step(old(View()), Fetch(key))
      ensures key in loadingAssets && loadingAssets[key] < |loads|
      ensures var load := loads[loadingAssets[key]];
              r == if load.task == Pending then None else load.worker
    {
      var id := Entry(key);
      assert LoadOk(View(), id) && StrongOk(View(), id);
      match loads[id].cell {
        case Loading(_) => r := None;
        case Loaded(result) => r := Some(result);
      }
    }

    /** The same for a view; if there is no result yet, the view is down for a notification. */
    method UseBy(key: Key, view: View) returns (r: Option<Value>)
      requires Valid()
      modifies this`loadingAssets, this`loads
      ensures Valid() && View() == Step(old(View()), Use(key, view))
      ensures key in loadingAssets && loadingAssets[key] < |loads|
      ensures var load := loads[loadingAssets[key]];
              r == if load.task == Pending then None else load.worker
      ensures r == None ==> view in loads[loadingAssets[key]].users
    {
      var id := Entry(key);
      assert LoadOk(View(), id) && StrongOk(View(), id);
      UseKeepsInv(View(), key, view);
      match loads[id].cell {
        case Loading(views) =>
          loads := loads[id := loads[id].(cell := Loading(views + {view}), users := loads[id].users + {view})];
          r := None;
        case Loaded(result) =>
          r := Some(result);
          assert loads[id := loads[id]] == loads;
      }
    }

    /** Forgets a key; its load keeps no strong reference, whatever its task does later. */
    method RemoveAsset(key: Key, cancels: bool)
      requires Valid()
      modifies this`loadingAssets, this`loads
      ensures Valid() && View() == Step(old(View()), Evict(key, cancels))
      ensures key !in loadingAssets && forall id | 0 <= id < |loads| && loads[id].key == key :: loads[id].strong == 0
    {
      EvictKeepsInv(View(), key, cancels);
      if key in loadingAssets {
        var id := loadingAssets[key];
        assert StrongOk(View(), id);
        loads := loads[id := DropLoad(loads[id], cancels)];
      }
      loadingAssets := loadingAssets - {key};
      forall id | 0 <= id < |loads| && loads[id].key == key ensures loads[id].strong == 0 {
        assert StrongOk(View(), id);
      }
    }

    /** The foreground task of a load is polled: a held load gets its worker's result, and
        each view down for it is notified once; a load let go stays as it is. */
    method PollTask(id: nat, order: seq<View>)
      requires Valid() && Ready(View(), id, order)
      modifies this`loads, this`notified
      ensures Valid() && View() == Step(old(View()), Poll(id, order))
      ensures loads[id].task == Finished
      ensures loads[id].cell == if old(Held(View(), id)) then Loaded(loads[id].worker.value) else old(loads)[id].cell
      ensures if old(Held(View(), id)) then forall v :: Count(notified, id, v) == if v in loads[id].users then 1 else 0
              else notified == old(notified)
    {
      assert LoadOk(View(), id) && StrongOk(View(), id);
      PollKeepsInv(View(), id, order);
      var load := loads[id];
      if load.strong == 0 {
        loads := loads[id := load.(task := Finished)];
        return;
      }
      loads := loads[id := load.(cell := Loaded(load.worker.value), task := Finished)];
      match load.cell {
        case Loading(_) => notified := notified + Notes(id, order);
        case Loaded(_) => assert false;
      }
      assert LoadOk(View(), id);
    }
  }
}
