/** What a call does, over every run: the n-th call of a subscriber carries out its n-th response,
    and a subscriber is active once the update that registered it has been flushed. */
module CallRuns {
  import opened Basics
  import opened Effects
  import opened EffectsProof
  import opened EffectRuns
  import opened DropRuns

  /** The callback of `id` is running. */
  predicate UnderWay(s: State, id: SubId) {
    s.out.Some? && s.out.value.current == Some(id)
  }

  /** The response to the n-th call, counted from 0; behind the last one there is nothing to do. */
  function Nth(responses: seq<Response>, n: nat): Response {
    if n < |responses| then responses[n] else Response([], true)
  }

  function Behind(responses: seq<Response>, n: nat): seq<Response> {
    if n <= |responses| then responses[n..] else []
  }

  // ---- One step ----

  /** A subscriber that is found after a step was found before it, registered for the same thing;
      it has lost a response if its callback returned, and it waits for its activation unless
      it is active. */
  ghost predicate Kept(s: State, s': State, id: SubId) {
    && (UnderWay(s', id) <==> Calls(s, id) || (UnderWay(s, id) && !Returns(s, id)))
    && (Find(s', id).Some? ==>
          && Find(s, id).Some?
          && var a, b := Find(s, id).value, Find(s', id).value;
             && b.responses == (if Returns(s, id) then Behind(a.responses, 1) else a.responses)
             && ((a.active || DeferEffect(Activate(id)) in s.queue) ==>
                   (b.active || DeferEffect(Activate(id)) in s'.queue)))
  }

  lemma StepKept(s: State, id: SubId)
    requires Inv(s) && s.stack != [] && s.updates > 0 && (s.stack[|s.stack| - 1].Dispatching? ==> s.out.Some?)
    requires id < s.nextId
    ensures Kept(s, Step(s), id)
  {
    assert s.stack[|s.stack| - 1].Flush? ==> s.out == None;
    assert SubsOk(s);
    hide Inv, SubsOk, Exec, FlushTurn, DispatchTurn, Kept;
    match s.stack[|s.stack| - 1] {
      case Run(ops) =>
        if ops != [] {
          StepIsExec(s);
          OpKept(s, id);
        } else {
          SameKept(s, Step(s), id);
        }
      case Finish => SameKept(s, Step(s), id);
      case Flush => FlushKept(s, id);
      case Dispatching => DispatchKept(s, id);
    }
  }

  lemma SameKept(s: State, s': State, id: SubId)
    requires s'.subs == s.subs && s'.out == s.out && s.queue <= s'.queue
    requires s.stack != [] && !s.stack[|s.stack| - 1].Dispatching?
    ensures Kept(s, s', id)
  {
  }

  lemma OpKept(s: State, id: SubId)
    requires SubsOk(s) && OpAt(s).Some? && s.updates > 0 && id < s.nextId
    ensures Kept(s, Exec(Shortened(s), OpAt(s).value), id)
  {
    hide SubsOk, Kept;
    var op, s1 := OpAt(s).value, Shortened(s);
    match op {
      case Subscribe(key, t, responses) =>
        hide AddSub;
        AddFrame(s1, Sub(key, t, responses, false));
        AddedKept(s, AddSub(s1, Sub(key, t, responses, false)), Sub(key, t, responses, false), id);
      case Unsubscribe(other) =>
        hide DropHandle;
        DropFrame(s1, other);
        DropOut(s1, other);
        SameDispatchOk(s, s1);
        DropFinds(s1, other, id);
        FoundKept(s, DropHandle(s1, other), id);
      case _ =>
        hide WithDue;
        SameKept(s, Exec(s1, op), id);
    }
  }

  lemma AddedKept(s: State, s': State, sub: Sub, id: SubId)
    requires s'.out == s.out && s.queue <= s'.queue && id < s.nextId && s'.subs == s.subs[s.nextId := sub]
    requires s.stack != [] && !s.stack[|s.stack| - 1].Dispatching?
    ensures Kept(s, s', id)
  {
  }

  lemma DropFinds(s: State, other: SubId, id: SubId)
    requires s.out.Some? ==> DispatchOk(s, s.out.value)
    ensures Find(DropHandle(s, other), id) in {None, Find(s, id)}
  {
    hide HasSubs;
  }

  lemma SameDispatchOk(s: State, s': State)
    requires SubsOk(s) && s' == s.(stack := s'.stack)
    ensures s'.out.Some? ==> DispatchOk(s', s'.out.value)
  {
  }

  lemma FoundKept(s: State, s': State, id: SubId)
    requires Find(s', id) in {None, Find(s, id)} && s'.queue == s.queue
    requires UnderWay(s', id) <==> UnderWay(s, id)
    requires s.stack != [] && !s.stack[|s.stack| - 1].Dispatching?
    ensures Kept(s, s', id)
  {
    hide Find;
  }

  lemma FlushKept(s: State, id: SubId)
    requires s.stack != [] && s.stack[|s.stack| - 1].Flush? && s.updates > 0 && s.out == None
    ensures Kept(s, FlushTurn(s), id)
  {
    hide StartDispatch;
    if s.toRelease == [] && s.queue != [] {
      assert s.queue == [s.queue[0]] + s.queue[1..];
      var rest := s.(queue := s.queue[1..]);
      match s.queue[0] {
        case NotifyEffect(e) =>
          StartKept(s, rest.(notifications := s.notifications - {e}), ObserversOf(e), id);
        case EmitEffect(e, _, _) => StartKept(s, rest, ListenersOf(e), id);
        case NotifyGlobalEffect(t) =>
          StartKept(s, rest.(globalNotifications := s.globalNotifications - {t}), GlobalObservers(t), id);
        case _ =>
      }
    }
  }

  lemma StartKept(s: State, rest: State, key: SetKey, id: SubId)
    requires s.stack != [] && s.stack[|s.stack| - 1].Flush? && s.out == None
    requires s.queue != [] && rest.queue == s.queue[1..] && s.queue[0] != DeferEffect(Activate(id))
    requires rest.subs == s.subs && rest.out == s.out && rest.nextId == s.nextId
    ensures Kept(s, StartDispatch(rest, s.queue[0], key), id)
  {
    assert s.queue == [s.queue[0]] + s.queue[1..];
    StartFinds(rest, s.queue[0], key, id);
    assert Find(rest, id) == Find(s, id);
    hide Find, IdsFor;
  }

  lemma DispatchKept(s: State, id: SubId)
    requires SubsOk(s) && s.stack != [] && s.stack[|s.stack| - 1].Dispatching? && s.out.Some?
    ensures Kept(s, DispatchTurn(s), id)
  {
    hide SubsOk, Settle, EndDispatch, Visit, Kept;
    OutOk(s);
    var d := s.out.value;
    if d.current.Some? {
      SettleKept(s, d, id);
    } else if d.rest == [] {
      EndKept(s, d, id);
    } else {
      VisitKept(s, d, id);
    }
  }

  lemma SettleKept(s: State, d: Dispatch, id: SubId)
    requires DispatchOk(s, d) && s.out == Some(d) && d.current.Some?
    requires s.stack != [] && s.stack[|s.stack| - 1].Dispatching?
    ensures Kept(s, Settle(s, d), id)
  {
    hide Callable;
  }

  lemma EndKept(s: State, d: Dispatch, id: SubId)
    requires DispatchOk(s, d) && s.out == Some(d) && d.current == None && d.rest == [] && s.stack != []
    ensures Kept(s, EndDispatch(s, d), id)
  {
    hide Callable;
  }

  lemma VisitKept(s: State, d: Dispatch, id: SubId)
    requires DispatchOk(s, d) && s.out == Some(d) && d.current == None && d.rest != []
    requires s.stack != [] && s.stack[|s.stack| - 1].Dispatching?
    ensures Kept(s, Visit(s, d), id)
  {
    assert d.rest[0] in d.held;
    hide DispatchOk, Visit, Callable, LetGo;
    VisitFrame(s, d);
  }

  // ---- Whole runs ----

  /** How often `id` was called in these steps. */
  function CallCount(states: seq<State>, id: SubId, from: nat, to: nat): nat
    requires to <= |states|
  {
    if to <= from then 0 else CallCount(states, id, from, to - 1) + if Calls(states[to - 1], id) then 1 else 0
  }

  /** Where a subscriber stands that was registered with these responses and has been called
      `count` times, if it is still to be found. */
  ghost predicate Stands(s: State, id: SubId, responses: seq<Response>, count: nat) {
    && id < s.nextId
    && (Find(s, id).Some? ==>
          && (UnderWay(s, id) ==> count > 0)
          && Find(s, id).value.responses == Behind(responses, if UnderWay(s, id) then count - 1 else count)
          && (Find(s, id).value.active || DeferEffect(Activate(id)) in s.queue))
  }

  /** The operation of a step registers `id`. */
  predicate Adds(s: State, id: SubId, key: SetKey, t: TypeId, responses: seq<Response>) {
    OpAt(s) == Some(Subscribe(key, t, responses)) && s.nextId == id
  }

  lemma {:induction false} StandsInRun(
    states: seq<State>, a: nat, i: nat, id: SubId, key: SetKey, t: TypeId, responses: seq<Response>)
    requires IsRun(states) && a < i < |states| && Adds(states[a], id, key, t, responses)
    ensures Stands(states[i], id, responses, CallCount(states, id, a + 1, i))
  {
    hide IsRun, Inv, Step, Begin, Stands, Calls, Adds, Next, OpAt;
    if i == a + 1 {
      FirstStands(states, a, id, key, t, responses);
    } else {
      RunStep(states, i - 1);
      StandsInRun(states, a, i - 1, id, key, t, responses);
      NextStands(states[i - 1], states[i], id, responses, CallCount(states, id, a + 1, i - 1));
    }
  }

  lemma FirstStands(states: seq<State>, a: nat, id: SubId, key: SetKey, t: TypeId, responses: seq<Response>)
    requires IsRun(states) && a + 1 < |states| && Adds(states[a], id, key, t, responses)
    ensures Stands(states[a + 1], id, responses, 0)
  {
    assert states[a].stack != [];
    hide IsRun, Inv, Step, Begin, Stands, Adds, Next;
    RunStep(states, a);
    AddedStands(states[a], id, key, t, responses);
  }

  lemma NextStands(s: State, s': State, id: SubId, responses: seq<Response>, count: nat)
    requires Inv(s) && Next(s, s') && Stands(s, id, responses, count)
    ensures Stands(s', id, responses, count + if Calls(s, id) then 1 else 0)
  {
    hide Inv, Step, Begin, Stands, Calls;
    if s.stack == [] {
      IdleStands(s, s', id, responses, count);
    } else {
      StepStands(s, id, responses, count);
    }
  }

  lemma AddedStands(s: State, id: SubId, key: SetKey, t: TypeId, responses: seq<Response>)
    requires Inv(s) && s.updates > 0 && Adds(s, id, key, t, responses)
    ensures Stands(Step(s), id, responses, 0)
  {
    assert SubsOk(s);
    assert s.out.Some? && s.out.value.current.Some? ==> s.out.value.current.value < s.nextId;
    hide Inv, SubsOk, Step, AddSub;
    StepIsExec(s);
    AddFrame(Shortened(s), Sub(key, t, responses, false));
  }

  lemma IdleStands(s: State, s': State, id: SubId, responses: seq<Response>, count: nat)
    requires s.stack == [] && Stands(s, id, responses, count) && exists script :: s' == Begin(s, script)
    ensures Stands(s', id, responses, count) && !Calls(s, id)
  {
  }

  lemma StepStands(s: State, id: SubId, responses: seq<Response>, count: nat)
    requires Inv(s) && s.stack != [] && s.updates > 0 && (s.stack[|s.stack| - 1].Dispatching? ==> s.out.Some?)
    requires Stands(s, id, responses, count)
    ensures Stands(Step(s), id, responses, count + if Calls(s, id) then 1 else 0)
  {
    StepKept(s, id);
    IdsGrow(s);
    hide Inv, Step, Find;
  }

  lemma IdsGrow(s: State)
    requires s.stack != [] && s.updates > 0 && (s.stack[|s.stack| - 1].Dispatching? ==> s.out.Some?)
    ensures s.nextId <= Step(s).nextId
  {
    hide Exec, FlushTurn, DispatchTurn;
    match s.stack[|s.stack| - 1] {
      case Run(ops) => if ops != [] { OpIdsGrow(Shortened(s), ops[0]); }
      case Finish =>
      case Flush => FlushTurnFrame(s);
      case Dispatching => DispatchTurnFrame(s);
    }
  }

  lemma OpIdsGrow(s: State, op: Op)
    ensures s.nextId <= Exec(s, op).nextId
  {
    hide AddSub, DropHandle, WithDue;
    match op {
      case Subscribe(key, t, responses) => AddFrame(s, Sub(key, t, responses, false));
      case Unsubscribe(other) => DropFrame(s, other);
      case _ =>
    }
  }

  /** The n-th call of a subscriber runs the script of its n-th response, and nothing else. */
  lemma NthCallRunsNthResponse(
    states: seq<State>, a: nat, p: nat, id: SubId, key: SetKey, t: TypeId, responses: seq<Response>)
    requires IsRun(states) && a < p && p + 1 < |states| && Adds(states[a], id, key, t, responses)
    requires Calls(states[p], id)
    ensures var n := CallCount(states, id, a + 1, p);
            && states[p + 1].stack == states[p].stack + [Run(Nth(responses, n).script)]
            && states[p + 1].queue == states[p].queue && states[p + 1].subs == states[p].subs
            && UnderWay(states[p + 1], id)
  {
    assert states[p].stack != [];
    hide IsRun, Inv, Step, Calls, Adds, Stands;
    RunStep(states, p);
    StandsInRun(states, a, p, id, key, t, responses);
    CallRuns(states[p], id, responses, CallCount(states, id, a + 1, p));
  }

  lemma CallRuns(s: State, id: SubId, responses: seq<Response>, n: nat)
    requires Inv(s) && s.updates > 0 && Calls(s, id) && Stands(s, id, responses, n)
    ensures Step(s).stack == s.stack + [Run(Nth(responses, n).script)]
    ensures Step(s).queue == s.queue && Step(s).subs == s.subs && UnderWay(Step(s), id)
  {
    assert DispatchOk(s, s.out.value);
    hide Inv, DispatchOk;
    VisitFrame(s, s.out.value);
    hide Callable, Visit;
  }

  /** Once the outermost update has returned, every subscriber that is found is active. */
  lemma ActiveWhenQuiet(
    states: seq<State>, a: nat, i: nat, id: SubId, key: SetKey, t: TypeId, responses: seq<Response>)
    requires IsRun(states) && a < i < |states| && Adds(states[a], id, key, t, responses)
    requires states[i].stack == [] && Find(states[i], id).Some?
    ensures id in states[i].subs && states[i].subs[id].active
  {
    hide IsRun, Adds, Queued, SubsOk, Ledgers;
    RunKeepsInv(states, i);
    StandsInRun(states, a, i, id, key, t, responses);
  }
}
