/** Two runs, from the start, in which a dropped subscription is not honoured as documented. */
module DropExamples {
  import opened Basics
  import opened Effects
  import opened EffectsProof
  import opened EffectRuns
  import opened DropRuns

  const EMITTER := ListenersOf(7)
  const EVENT := EmitEffect(7, 0, 5)

  /** Two listeners of entity 7, the first with the given callback, and one event for them. */
  function Scenario(first: seq<Op>): seq<Op> {
    [Subscribe(EMITTER, 0, [Response(first, true)]), Subscribe(EMITTER, 0, []), Emit(7, 0, 5)]
  }

  function First(first: seq<Op>, active: bool): Sub { Sub(EMITTER, 0, [Response(first, true)], active) }

  function Second(active: bool): Sub { Sub(EMITTER, 0, [], active) }

  function Owed(delivered: seq<Event>): Ledger { Ledger(EMITTER, 0, [5], delivered) }

  /** A run goes on with the step that its last state takes. */
  lemma Extend(states: seq<State>, next: State) returns (more: seq<State>)
    requires IsRun(states)
    requires var s := states[|states| - 1];
             s.stack != [] && s.updates > 0 && (s.stack[|s.stack| - 1].Dispatching? ==> s.out.Some?) && Step(s) == next
    ensures IsRun(more) && more == states + [next]
  {
    hide Step;
    more := states + [next];
    assert forall i :: 0 < i < |more| ==> Next(more[i - 1], more[i]);
  }

  // ---- Setting the scene ----

  function Begun(first: seq<Op>): State { Begin(INITIAL, Scenario(first)) }

  function OneSubscribed(first: seq<Op>): State {
    Begun(first).(
      queue := [DeferEffect(Activate(0))], subs := map[0 := First(first, false)], nextId := 1,
        handles := map[0 := EMITTER],
      ledger := map[0 := Ledger(EMITTER, 0, [], [])], stack := [Finish, Run([Scenario(first)[1], Scenario(first)[2]])])
  }

  function BothSubscribed(first: seq<Op>): State {
    Begun(first).(
      queue := [DeferEffect(Activate(0)), DeferEffect(Activate(1))], nextId := 2,
      subs := map[0 := First(first, false), 1 := Second(false)], handles := map[0 := EMITTER, 1 := EMITTER],
      ledger := map[0 := Ledger(EMITTER, 0, [], []), 1 := Ledger(EMITTER, 0, [], [])],
      stack := [Finish, Run([Scenario(first)[2]])])
  }

  function EventQueued(first: seq<Op>): State {
    BothSubscribed(first).(
      queue := [DeferEffect(Activate(0)), DeferEffect(Activate(1)), EVENT], stack := [Finish, Run([])],
      ledger := map[0 := Owed([]), 1 := Owed([])])
  }

  function Flushing(first: seq<Op>): State {
    EventQueued(first).(stack := [Flush], flushing := true)
  }

  function OneActive(first: seq<Op>): State {
    Flushing(first).(queue := [DeferEffect(Activate(1)), EVENT],
      subs := map[0 := First(first, true), 1 := Second(false)])
  }

  function BothActive(first: seq<Op>): State {
    Flushing(first).(queue := [EVENT], subs := map[0 := First(first, true), 1 := Second(true)])
  }

  function InFull(zero: Sub, rest: seq<SubId>, current: Option<SubId>): Dispatch {
    Dispatch(EVENT, EMITTER, map[0 := zero, 1 := Second(true)], rest, current, true)
  }

  function Started(first: seq<Op>): State {
    BothActive(first).(queue := [], subs := map[], stack := [Flush, Dispatching],
      out := Some(InFull(First(first, true), [0, 1], None)))
  }

  /** The first listener is being called. */
  function FirstCalled(first: seq<Op>): State {
    Started(first).(
      stack := [Flush, Dispatching, Run(first)], out := Some(InFull(First(first, true), [1], Some(0))),
      ledger := map[0 := Owed([5]), 1 := Owed([])])
  }

  lemma FirstSubscribes(first: seq<Op>)
    ensures Step(Begun(first)) == OneSubscribed(first)
  {
    assert Scenario(first)[1..] == [Scenario(first)[1], Scenario(first)[2]];
  }

  lemma SecondSubscribes(first: seq<Op>)
    ensures Step(OneSubscribed(first)) == BothSubscribed(first)
  {
    assert [Scenario(first)[1], Scenario(first)[2]][1..] == [Scenario(first)[2]];
  }

  lemma UpdateEnds(first: seq<Op>)
    ensures Step(EventQueued(first)) == EventQueued(first).(stack := [Finish])
    ensures Step(EventQueued(first).(stack := [Finish])) == Flushing(first)
  {
  }

  lemma Activations(first: seq<Op>)
    ensures Step(Flushing(first)) == OneActive(first)
    ensures Step(OneActive(first)) == BothActive(first)
  {
    assert Flushing(first).queue[1..] == OneActive(first).queue;
    assert OneActive(first).queue[1..] == BothActive(first).queue;
  }

  lemma EmitStep(first: seq<Op>)
    ensures Step(BothSubscribed(first)) == EventQueued(first)
  {
    var s, s' := BothSubscribed(first), EventQueued(first);
    assert [Scenario(first)[2]][1..] == [];
    var due := WithDue(s.ledger, 7, 0, 5);
    assert due[0] == Owed([]) && due[1] == Owed([]) && due.Keys == s'.ledger.Keys;
    assert due == s'.ledger;
  }

  lemma StartStep(first: seq<Op>)
    ensures Step(BothActive(first)) == Started(first)
  {
    var subs := BothActive(first).subs;
    assert IdsFor(subs, EMITTER, 0) == [];
    assert IdsFor(subs, EMITTER, 1) == [0];
    assert IdsFor(subs, EMITTER, 2) == [0, 1];
    assert (map i | i in subs && subs[i].key == EMITTER :: subs[i]) == subs;
    assert (map i | i in subs && subs[i].key != EMITTER :: subs[i]) == map[];
  }

  lemma CallStep(first: seq<Op>)
    ensures Step(Started(first)) == FirstCalled(first)
  {
    var s, s' := Started(first), FirstCalled(first);
    VisitFrame(s, s.out.value);
    assert s.out.value.rest[1..] == [1] && [] + [5] == [5];
    assert WithDelivered(s.ledger, 0, EVENT) == s'.ledger;
  }

  lemma Setup(first: seq<Op>) returns (states: seq<State>)
    ensures IsRun(states) && |states| == 7 && states[6] == Flushing(first)
    ensures forall i :: 0 <= i < 7 ==> states[i].out == None
  {
    states := [INITIAL, Begun(first)];
    assert Next(states[0], states[1]);
    hide IsRun, Step;
    FirstSubscribes(first);
    SecondSubscribes(first);
    EmitStep(first);
    UpdateEnds(first);
    states := Extend(states, OneSubscribed(first));
    states := Extend(states, BothSubscribed(first));
    states := Extend(states, EventQueued(first));
    states := Extend(states, EventQueued(first).(stack := [Finish]));
    states := Extend(states, Flushing(first));
  }

  lemma Scene(first: seq<Op>) returns (states: seq<State>)
    ensures IsRun(states) && |states| == 11 && states[10] == FirstCalled(first)
    ensures (forall i :: 0 <= i < 9 ==> states[i].out == None) && states[9] == Started(first)
  {
    hide IsRun, Step;
    Activations(first);
    StartStep(first);
    CallStep(first);
    states := Setup(first);
    states := Extend(states, OneActive(first));
    states := Extend(states, BothActive(first));
    states := Extend(states, Started(first));
    states := Extend(states, FirstCalled(first));
  }

  /** The step in which a callback that returns true goes back among the others. */
  lemma SettleStep(s: State, i: SubId, held: map<SubId, Sub>)
    requires s.stack == [Flush, Dispatching] && s.updates > 0 && s.out.Some? && s.out.value.current == Some(i)
    requires i in s.out.value.held && s.out.value.held[i].Next().keep
    requires held == s.out.value.held[i := s.out.value.held[i].Called()]
    ensures Step(s) == s.(out := Some(s.out.value.(current := None, held := held)))
  {
  }

  lemma FirstIsBack(first: seq<Op>, s: State)
    requires s.stack == [Flush, Dispatching] && s.updates > 0 && s.out == Some(InFull(First(first, true), [1], Some(0)))
    ensures Step(s) == s.(out := Some(InFull(Second(true), [1], None)))
  {
    var d := InFull(First(first, true), [1], Some(0));
    assert [Response(first, true)][1..] == [];
    assert d.held[0].Called() == Second(true);
    assert d.held[0 := d.held[0].Called()] == InFull(Second(true), [1], None).held;
    SettleStep(s, 0, InFull(Second(true), [1], None).held);
  }

  // ---- Called although dropped ----

  const DROP_SECOND: seq<Op> := [Unsubscribe(1)]

  function Dropped(): State {
    FirstCalled(DROP_SECOND).(dropped := {1}, handles := map[0 := EMITTER], stack := [Flush, Dispatching, Run([])])
  }

  lemma DropStep()
    ensures Step(FirstCalled(DROP_SECOND)) == Dropped()
  {
    var s := FirstCalled(DROP_SECOND);
    assert DROP_SECOND[1..] == [];
    assert s.handles - {1} == map[0 := EMITTER];
  }

  lemma FirstReturns()
    ensures Step(Dropped()) == Dropped().(stack := [Flush, Dispatching])
    ensures Step(Dropped().(stack := [Flush, Dispatching])) ==
            Dropped().(stack := [Flush, Dispatching], out := Some(InFull(Second(true), [1], None)))
  {
    FirstIsBack(DROP_SECOND, Dropped().(stack := [Flush, Dispatching]));
  }

  /** A listener drops the one behind it; nobody is subscribed meanwhile and the drop is noted,
      yet the dropped listener is called in the same dispatch. */
  lemma CalledAfterDrop() returns (states: seq<State>, m: nat, k: nat)
    ensures IsRun(states) && 8 < m < k < |states| && InDispatch(states, 8, k) && !Added(states, 8, k)
    ensures Drops(states[m], 1) && Calls(states[k], 1)
  {
    hide IsRun, Step;
    DropStep();
    FirstReturns();
    states := Scene(DROP_SECOND);
    states := Extend(states, Dropped());
    states := Extend(states, Dropped().(stack := [Flush, Dispatching]));
    states := Extend(states, Dropped().(stack := [Flush, Dispatching], out := Some(InFull(Second(true), [1], None))));
    m, k := 10, 13;
  }

  // ---- Still subscribed although dropped ----

  const ADD_AND_DROP: seq<Op> := [Subscribe(EMITTER, 0, []), Unsubscribe(1)]

  function ThirdAdded(): State {
    FirstCalled(ADD_AND_DROP).(
      queue := [DeferEffect(Activate(2))], subs := map[2 := Second(false)], nextId := 3,
      handles := map[0 := EMITTER, 1 := EMITTER, 2 := EMITTER], stack := [Flush, Dispatching, Run([Unsubscribe(1)])],
      ledger := map[0 := Owed([5]), 1 := Owed([]), 2 := Ledger(EMITTER, 0, [], [])])
  }

  function DropIgnored(): State {
    ThirdAdded().(handles := map[0 := EMITTER, 2 := EMITTER], stack := [Flush, Dispatching, Run([])])
  }

  function FirstBack(): State {
    DropIgnored().(stack := [Flush, Dispatching], out := Some(InFull(Second(true), [1], None)))
  }

  function SecondCalled(): State {
    DropIgnored().(out := Some(InFull(Second(true), [], Some(1))),
                   ledger := map[0 := Owed([5]), 1 := Owed([5]), 2 := Ledger(EMITTER, 0, [], [])])
  }

  function SecondBack(): State {
    SecondCalled().(stack := [Flush, Dispatching], out := Some(InFull(Second(true), [], None)))
  }

  function Ended(): State {
    SecondBack().(stack := [Flush], out := None,
                  subs := map[0 := Second(true), 1 := Second(true), 2 := Second(false)])
  }

  lemma AddStep()
    ensures Step(FirstCalled(ADD_AND_DROP)) == ThirdAdded()
  {
    assert ADD_AND_DROP[1..] == [Unsubscribe(1)];
  }

  lemma IgnoredStep()
    ensures Step(ThirdAdded()) == DropIgnored()
  {
    assert [Unsubscribe(1)][1..] == [];
    assert ThirdAdded().subs[2].key == EMITTER;
    assert ThirdAdded().handles - {1} == DropIgnored().handles;
  }

  lemma FirstReturnsToo()
    ensures Step(DropIgnored()) == DropIgnored().(stack := [Flush, Dispatching])
    ensures Step(DropIgnored().(stack := [Flush, Dispatching])) == FirstBack()
  {
    FirstIsBack(ADD_AND_DROP, DropIgnored().(stack := [Flush, Dispatching]));
  }

  lemma SecondCallStep()
    ensures Step(FirstBack()) == SecondCalled()
  {
    var s := FirstBack();
    assert Callable(s, s.out.value) && s.stack[1] == Dispatching;
    hide Visit, Callable, LetGo;
    VisitFrame(s, s.out.value);
    assert s.out.value.rest[1..] == [] && [] + [5] == [5];
    assert WithDelivered(s.ledger, 1, EVENT) == SecondCalled().ledger;
  }

  lemma EndSteps()
    ensures Step(SecondCalled()) == SecondCalled().(stack := [Flush, Dispatching])
    ensures Step(SecondCalled().(stack := [Flush, Dispatching])) == SecondBack()
  {
    var s, held := SecondCalled().(stack := [Flush, Dispatching]), SecondBack().out.value.held;
    assert s.out.value.held[1].Called() == Second(true);
    assert s.out.value.held[1 := Second(true)] == held;
    SettleStep(s, 1, held);
  }

  lemma LastStep()
    ensures Step(SecondBack()) == Ended()
  {
    var e := SecondBack();
    assert (e.subs + e.out.value.held) - e.dropped == Ended().subs;
  }

  /** A listener subscribes a third one, then drops the one behind it: the drop leaves no trace,
      and the dropped listener is in the set, active, when the dispatch has ended. */
  lemma DropLost() returns (states: seq<State>, m: nat, b: nat)
    ensures IsRun(states) && 8 < m < b && Dispatched(states, 8, b) && Drops(states[m], 1)
    ensures 1 in states[b].subs && states[b].subs[1].active
  {
    hide IsRun, Step;
    AddStep();
    IgnoredStep();
    FirstReturnsToo();
    SecondCallStep();
    EndSteps();
    LastStep();
    states := Scene(ADD_AND_DROP);
    states := Extend(states, ThirdAdded());
    states := Extend(states, DropIgnored());
    states := Extend(states, DropIgnored().(stack := [Flush, Dispatching]));
    states := Extend(states, FirstBack());
    states := Extend(states, SecondCalled());
    states := Extend(states, SecondCalled().(stack := [Flush, Dispatching]));
    states := Extend(states, SecondBack());
    states := Extend(states, Ended());
    m, b := 11, 18;
  }
}
