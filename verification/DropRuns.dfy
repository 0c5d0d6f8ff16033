/** What dropping a subscription does, over whole runs.  Outside a dispatch of its emitter the
    subscriber is gone at once and never called again.  During one, it is still called if its
    turn is yet to come, and it is back in the set afterwards if somebody was subscribed to the
    same emitter earlier in that dispatch. */
module DropRuns {
  import opened Basics
  import opened Effects
  import opened EffectsProof
  import opened EffectRuns

  // ---- A subscriber that is not there stays away ----

  lemma StepFinds(s: State, id: SubId)
    requires Inv(s) && s.stack != [] && s.updates > 0 && (s.stack[|s.stack| - 1].Dispatching? ==> s.out.Some?)
    requires id < s.nextId && Find(s, id) == None
    ensures id < Step(s).nextId && Find(Step(s), id) == None
  {
    assert s.stack[|s.stack| - 1].Flush? ==> s.out == None;
    hide Inv, Exec, FlushTurn, DispatchTurn;
    match s.stack[|s.stack| - 1] {
      case Run(ops) =>
        if ops != [] { OpFinds(Shortened(s), OpAt(s).value, id); }
      case Finish =>
      case Flush =>
        FlushTurnFrame(s);
        TurnFinds(s, id);
      case Dispatching =>
        DispatchTurnFrame(s);
        TurnFinds(s, id);
    }
  }

  lemma OpFinds(s: State, op: Op, id: SubId)
    requires id < s.nextId && Find(s, id) == None
    ensures id < Exec(s, op).nextId && Find(Exec(s, op), id) == None
  {
    hide DropHandle, AddSub;
    match op {
      case Subscribe(key, t, responses) => AddFrame(s, Sub(key, t, responses, false));
      case Unsubscribe(other) =>
        DropFrame(s, other);
        DropFinds(s, other, id);
      case _ =>
        hide Exec;
        PlainOpFrame(s, op);
    }
  }

  lemma DropFinds(s: State, other: SubId, id: SubId)
    requires Find(s, id) == None
    ensures Find(DropHandle(s, other), id) == None
  {
    hide HasSubs;
  }

  /** Once a subscriber is gone it is never found, and so never called, again. */
  lemma {:induction false} AbsentForever(states: seq<State>, i: nat, j: nat, id: SubId)
    requires IsRun(states) && i <= j < |states| && id < states[i].nextId && Find(states[i], id) == None
    ensures id < states[j].nextId && Find(states[j], id) == None && !Calls(states[j], id)
  {
    hide IsRun, Inv, Step, Begin, Find;
    if i < j {
      AbsentForever(states, i, j - 1, id);
      RunStep(states, j - 1);
      if states[j - 1].stack == [] {
        IdleFinds(states[j - 1], states[j], id);
      } else {
        StepFinds(states[j - 1], id);
      }
    }
    AbsentNotCalled(states[j], id);
  }

  lemma IdleFinds(s: State, s': State, id: SubId)
    requires exists script :: s' == Begin(s, script)
    ensures Find(s', id) == Find(s, id) && s'.nextId == s.nextId && s'.out == s.out
  {
  }

  lemma AbsentNotCalled(s: State, id: SubId)
    requires Find(s, id) == None
    ensures !Calls(s, id)
  {
  }

  /** Dropping a subscription outside a dispatch of its emitter ends it for good. */
  lemma DroppedForGood(states: seq<State>, m: nat, j: nat, id: SubId)
    requires IsRun(states) && m < j < |states| && OpAt(states[m]) == Some(Unsubscribe(id))
    requires id in states[m].handles && id in states[m].subs
    ensures Find(states[j], id) == None && !Calls(states[j], id)
  {
    RunStep(states, m);
    var s := states[m];
    assert id !in Step(s).subs && (s.out.Some? ==> id !in s.out.value.held) && id < s.nextId by {
      hide Control, Queued, Ledgers, Step;
      StepIsExec(s);
      DropRemoves(Shortened(s), id);
    }
    hide Inv, IsRun;
    StepIsExec(s);
    DropFrame(Shortened(s), id);
    DropOut(Shortened(s), id);
    AbsentForever(states, m + 1, j, id);
  }

  lemma DropRemoves(s: State, id: SubId)
    requires id in s.handles && id in s.subs && s.subs[id].key == s.handles[id]
    ensures id !in DropHandle(s, id).subs
  {
    assert HasSubs(s.subs, s.handles[id]);
  }

  lemma DropOut(s: State, id: SubId)
    ensures var s' := DropHandle(s, id);
            && (s'.out.Some? <==> s.out.Some?)
            && (s.out.Some? ==> s'.out.value == s.out.value.(marked := s'.out.value.marked))
  {
    hide HasSubs;
  }

  // ---- One step of a dispatch ----

  predicate Subscribes(s: State, key: SetKey) {
    OpAt(s).Some? && OpAt(s).value.Subscribe? && OpAt(s).value.key == key
  }

  /** The next step drops the subscription `id` to the emitter being dispatched. */
  predicate Drops(s: State, id: SubId) {
    OpAt(s) == Some(Unsubscribe(id)) && s.out.Some? && id in s.handles && s.handles[id] == s.out.value.key
  }

  /** The entry of the emitter is no longer the emptied one that marks the dispatch. */
  ghost predicate Touched(s: State) {
    s.out.Some? && (HasSubs(s.subs, s.out.value.key) || !s.out.value.marked)
  }

  /** The next step returns from the callback of `id`. */
  predicate Returns(s: State, id: SubId) {
    && s.stack != [] && s.stack[|s.stack| - 1].Dispatching? && s.out.Some? && s.out.value.current == Some(id)
  }

  /** A step in the middle of a dispatch leaves emitter and effect alone, and touches the entry
      of the emitter exactly by subscribing to it. */
  ghost predicate SetStep(s: State, s': State)
    requires s.out.Some? && s'.out.Some?
  {
    && s'.out.value.key == s.out.value.key && s'.out.value.effect == s.out.value.effect
    && (Touched(s') <==> Touched(s) || Subscribes(s, s.out.value.key))
  }

  /** What it means for a subscriber taken out of the set. */
  ghost predicate TakenStep(s: State, s': State, id: SubId)
    requires s.out.Some? && s'.out.Some? && id in s.out.value.held
  {
    var d, d' := s.out.value, s'.out.value;
    && id !in s'.subs
    && (id in s'.dropped <==> id in s.dropped || (Drops(s, id) && !Touched(s)))
    && (id in d'.rest <==> id in d.rest && !Turn(s, id))
    && (d'.current == Some(id) <==> Calls(s, id) || (d.current == Some(id) && !Returns(s, id)))
    && (id in d'.held <==>
          && !(Turn(s, id) && Wants(d.held[id], d.effect) && Released(d.key, s.released))
          && !(Returns(s, id) && !d.held[id].Next().keep))
    && (id in d'.held ==> d'.held[id] == if Returns(s, id) then d.held[id].Called() else d.held[id])
  }

  lemma Within(s: State)
    requires Inv(s) && s.out.Some?
    ensures s.stack != [] && s.updates > 0 && !s.stack[|s.stack| - 1].Flush?
    ensures DispatchOk(s, s.out.value) && s.nextId !in s.subs
  {
    StepEnabled(s);
  }

  lemma SetInDispatch(s: State)
    requires Inv(s) && s.out.Some? && s.stack != [] && s.updates > 0 && Step(s).out.Some?
    ensures SetStep(s, Step(s))
  {
    hide Inv, DispatchOk, Exec, DispatchTurn, Touched;
    Within(s);
    match s.stack[|s.stack| - 1] {
      case Run(ops) =>
        if ops != [] {
          StepIsExec(s);
          hide Step, SetStep;
          OpInSet(s);
        } else {
          SameTouched(s, Step(s));
        }
      case Finish => SameTouched(s, Step(s));
      case Dispatching => TurnInSet(s);
    }
  }

  lemma TurnInSet(s: State)
    requires s.out.Some? && s.stack != [] && s.stack[|s.stack| - 1].Dispatching? && DispatchTurn(s).out.Some?
    ensures SetStep(s, DispatchTurn(s))
  {
    hide HasSubs, Visit, Callable, LetGo;
    var d := s.out.value;
    if d.current == None && d.rest != [] {
      VisitFrame(s, d);
    }
  }

  lemma OpInSet(s: State)
    requires s.out.Some? && OpAt(s).Some? && s.updates > 0 && s.nextId !in s.subs
    requires Exec(Shortened(s), OpAt(s).value).out.Some?
    ensures SetStep(s, Exec(Shortened(s), OpAt(s).value))
  {
    hide Touched, DropHandle, AddSub;
    var op, s1 := OpAt(s).value, Shortened(s);
    SameTouched(s, s1);
    match op {
      case Subscribe(key, t, responses) =>
        AddFrame(s1, Sub(key, t, responses, false));
        AddTouches(s1, Sub(key, t, responses, false));
      case Unsubscribe(other) =>
        DropOut(s1, other);
        DropTouches(s1, other);
      case _ =>
        hide Exec;
        PlainOpFrame(s1, op);
        SameTouched(s1, Exec(s1, op));
    }
  }

  lemma SameTouched(s: State, s': State)
    requires s'.out == s.out && s'.subs == s.subs
    ensures Touched(s') == Touched(s)
  {
  }

  lemma TakenInDispatch(s: State, id: SubId)
    requires Inv(s) && s.out.Some? && s.stack != [] && s.updates > 0 && Step(s).out.Some? && id in s.out.value.held
    ensures TakenStep(s, Step(s), id)
  {
    Within(s);
    assert id !in s.subs && id < s.nextId;
    hide Inv, DispatchOk, Exec, TakenStep, DispatchTurn;
    match s.stack[|s.stack| - 1] {
      case Run(ops) =>
        if ops != [] {
          StepIsExec(s);
          OpTaken(s, id);
        } else {
          NothingHappens(s, Step(s), id);
        }
      case Finish => NothingHappens(s, Step(s), id);
      case Dispatching => TurnTaken(s, id);
    }
  }

  lemma NothingHappens(s: State, s': State, id: SubId)
    requires s.out.Some? && s'.out == s.out && s'.subs == s.subs && s'.dropped == s.dropped && id in s.out.value.held
    requires s.stack != [] && !s.stack[|s.stack| - 1].Dispatching? && OpAt(s) == None && id !in s.subs
    ensures TakenStep(s, s', id)
  {
    hide Touched;
  }

  lemma TurnTaken(s: State, id: SubId)
    requires s.out.Some? && DispatchOk(s, s.out.value) && id in s.out.value.held && id !in s.subs
    requires s.stack != [] && s.stack[|s.stack| - 1].Dispatching? && DispatchTurn(s).out.Some?
    ensures TakenStep(s, DispatchTurn(s), id)
  {
    hide TakenStep, Settle, Visit, DispatchOk;
    var d := s.out.value;
    if d.current.Some? {
      SettledTaken(s, d, id);
    } else {
      RestShrinks(s, d);
      VisitedTaken(s, d, id);
    }
  }

  lemma SettledTaken(s: State, d: Dispatch, id: SubId)
    requires s.out == Some(d) && d.current.Some? && id in d.held && id !in s.subs
    requires s.stack != [] && s.stack[|s.stack| - 1].Dispatching?
    ensures Settle(s, d).out.Some? && TakenStep(s, Settle(s, d), id)
  {
    hide Touched, Callable;
  }

  lemma VisitedTaken(s: State, d: Dispatch, id: SubId)
    requires s.out == Some(d) && d.current == None && d.rest != [] && d.rest[0] in d.held && d.rest[0] !in d.rest[1..]
    requires s.stack != [] && s.stack[|s.stack| - 1].Dispatching? && id in d.held && id !in s.subs
    ensures Visit(s, d).out.Some? && TakenStep(s, Visit(s, d), id)
  {
    hide Touched, Visit, Wants, Released;
    VisitFrame(s, d);
    assert d.rest == [d.rest[0]] + d.rest[1..];
  }

  lemma OpTaken(s: State, id: SubId)
    requires s.out.Some? && OpAt(s).Some? && s.updates > 0
    requires id in s.out.value.held && id !in s.subs && id < s.nextId && Exec(Shortened(s), OpAt(s).value).out.Some?
    ensures TakenStep(s, Exec(Shortened(s), OpAt(s).value), id)
  {
    hide Touched, DropHandle, AddSub;
    var op, s1 := OpAt(s).value, Shortened(s);
    SameTouched(s, s1);
    match op {
      case Subscribe(key, t, responses) =>
        AddFrame(s1, Sub(key, t, responses, false));
      case Unsubscribe(other) =>
        DropOut(s1, other);
        DropNotes(s1, other, id);
      case _ =>
        hide Exec;
        PlainOpFrame(s1, op);
    }
  }

  lemma AddTouches(s: State, sub: Sub)
    requires s.out.Some? && s.nextId !in s.subs
    ensures Touched(AddSub(s, sub)) <==> Touched(s) || sub.key == s.out.value.key
  {
    AddFrame(s, sub);
    hide AddSub;
    var s' := AddSub(s, sub);
    if sub.key == s.out.value.key {
      assert s'.subs[s.nextId].key == s.out.value.key;
    }
    forall i | i in s.subs ensures i in s'.subs && s'.subs[i] == s.subs[i] {}
  }

  lemma DropTouches(s: State, other: SubId)
    requires s.out.Some?
    ensures Touched(DropHandle(s, other)) <==> Touched(s)
  {
    if other in s.handles && s.handles[other] != s.out.value.key && other in s.subs &&
      s.subs[other].key == s.handles[other] {
      OtherKey(s.subs, other, s.out.value.key);
    }
  }

  /** The drop of a subscriber taken out is noted while the emptied entry is in place. */
  lemma DropNotes(s: State, other: SubId, id: SubId)
    requires s.out.Some? && id !in s.subs
    ensures var s' := DropHandle(s, other);
            && id !in s'.subs
            && (id in s'.dropped <==>
                  || id in s.dropped
                  || (other == id && id in s.handles && s.handles[id] == s.out.value.key && !Touched(s)))
  {
  }

  lemma OtherKey(subs: map<SubId, Sub>, other: SubId, key: SetKey)
    requires other in subs && subs[other].key != key
    ensures HasSubs(subs - {other}, key) <==> HasSubs(subs, key)
  {
    if HasSubs(subs, key) {
      var i :| i in subs && subs[i].key == key;
      assert (subs - {other})[i].key == key;
    }
  }

  // ---- A whole dispatch ----

  /** The dispatch that the step at `a` began is still in progress at `j`. */
  ghost predicate InDispatch(states: seq<State>, a: nat, j: nat) {
    a < j < |states| && states[a].out == None && forall k | a < k <= j :: states[k].out.Some?
  }

  /** It began at `a` and the step into `b` ended it. */
  ghost predicate Dispatched(states: seq<State>, a: nat, b: nat) {
    a + 1 < b < |states| && InDispatch(states, a, b - 1) && states[b].out == None
  }

  function KeyAt(states: seq<State>, a: nat): SetKey
    requires a + 1 < |states| && states[a + 1].out.Some?
  {
    states[a + 1].out.value.key
  }

  /** Somebody was subscribed to the emitter between the start at `a` and `j`. */
  ghost predicate Added(states: seq<State>, a: nat, j: nat)
    requires a + 1 < |states| && j <= |states| && states[a + 1].out.Some?
  {
    exists k | a < k < j :: Subscribes(states[k], KeyAt(states, a))
  }

  /** The drop of `id` was noted: nobody had been subscribed to the emitter before it. */
  ghost predicate Noted(states: seq<State>, a: nat, j: nat, id: SubId)
    requires a + 1 < |states| && j <= |states| && states[a + 1].out.Some?
  {
    exists k | a < k < j :: Drops(states[k], id) && !Added(states, a, k)
  }

  ghost predicate HadTurn(states: seq<State>, a: nat, j: nat, id: SubId)
    requires j <= |states|
  {
    exists k | a < k < j :: Turn(states[k], id)
  }

  ghost predicate Called(states: seq<State>, a: nat, j: nat, id: SubId)
    requires j <= |states|
  {
    exists k | a < k < j :: Calls(states[k], id)
  }

  ghost predicate Returned(states: seq<State>, a: nat, j: nat, id: SubId)
    requires j <= |states|
  {
    exists k | a < k < j :: Returns(states[k], id)
  }

  /** At its turn the entity of the subscriber had been released. */
  ghost predicate Orphaned(states: seq<State>, a: nat, j: nat, id: SubId, sub: Sub)
    requires a + 1 < |states| && j <= |states| && states[a + 1].out.Some?
  {
    exists k | a < k < j ::
      Turn(states[k], id) && Wants(sub, states[a + 1].out.value.effect) &&
        Released(KeyAt(states, a), states[k].released)
  }

  lemma StartOfDispatch(s: State, s': State)
    requires Inv(s) && Next(s, s') && s.out == None && s'.out.Some?
    ensures var d := s'.out.value;
            && d.current == None && s'.dropped == {} && !Touched(s') && s'.released == s.released
            && (forall id :: id in d.held <==> id in s.subs && s.subs[id].key == d.key)
            && (forall id | id in d.held :: d.held[id] == s.subs[id])
            && (forall id :: id in d.rest <==> id in d.held)
  {
    assert s.dropped == {} && forall i | i in s.subs :: i < s.nextId;
    hide Inv, Exec, StartDispatch;
    if s.stack != [] {
      match s.stack[|s.stack| - 1] {
        case Run(ops) =>
          if ops != [] { OpStartsNothing(Shortened(s), ops[0]); }
        case Finish =>
        case Flush =>
          if s.toRelease == [] && s.queue != [] {
            var rest := s.(queue := s.queue[1..]);
            match s.queue[0] {
              case NotifyEffect(e) =>
                StartTakes(rest.(notifications := s.notifications - {e}), s.queue[0], ObserversOf(e));
              case EmitEffect(e, _, _) => StartTakes(rest, s.queue[0], ListenersOf(e));
              case NotifyGlobalEffect(t) =>
                StartTakes(rest.(globalNotifications := s.globalNotifications - {t}), s.queue[0], GlobalObservers(t));
              case _ =>
            }
          }
        case Dispatching =>
      }
    }
  }

  lemma OpStartsNothing(s: State, op: Op)
    requires s.out == None
    ensures Exec(s, op).out == None
  {
    hide AddSub, DropHandle;
    match op {
      case Subscribe(key, t, responses) => AddFrame(s, Sub(key, t, responses, false));
      case Unsubscribe(other) => DropOut(s, other);
      case _ =>
        hide Exec;
        PlainOpFrame(s, op);
    }
  }

  lemma StartTakes(s: State, effect: Effect, key: SetKey)
    requires s.out == None && forall i | i in s.subs :: i < s.nextId
    ensures var s' := StartDispatch(s, effect, key);
            s'.out.Some? ==>
              var d := s'.out.value;
              && d.current == None && s'.dropped == s.dropped && !Touched(s') && s'.released == s.released
              && (forall id :: id in d.held <==> id in s.subs && s.subs[id].key == d.key)
              && (forall id | id in d.held :: d.held[id] == s.subs[id])
              && (forall id :: id in d.rest <==> id in d.held)
  {
    IdsForMembers(s.subs, key, s.nextId);
  }

  /** During a dispatch the entry of its emitter is touched exactly if somebody was subscribed
      to that emitter since it began. */
  lemma {:induction false} TouchedMeansAdded(states: seq<State>, a: nat, j: nat)
    requires IsRun(states) && InDispatch(states, a, j)
    ensures states[j].out.value.key == KeyAt(states, a) && states[j].out.value.effect == states[a + 1].out.value.effect
    ensures Touched(states[j]) <==> Added(states, a, j)
  {
    hide IsRun, Inv, Step, Begin, Touched, Subscribes, Next;
    RunStep(states, j - 1);
    if j == a + 1 {
      StartOfDispatch(states[a], states[j]);
    } else {
      TouchedMeansAdded(states, a, j - 1);
      Within(states[j - 1]);
      SetInDispatch(states[j - 1]);
      assert Added(states, a, j) <==> Added(states, a, j - 1) || Subscribes(states[j - 1], KeyAt(states, a));
    }
  }

  /** Where a subscriber `sub` taken out by a dispatch stands at `j`. */
  ghost predicate Status(states: seq<State>, a: nat, j: nat, id: SubId, sub: Sub)
    requires InDispatch(states, a, j)
  {
    var s, d := states[j], states[j].out.value;
    if id in d.held then
      && d.held[id] == (if Returned(states, a, j, id) then sub.Called() else sub) && id !in s.subs
      && (id in d.rest <==> !HadTurn(states, a, j, id))
      && (id in s.dropped <==> Noted(states, a, j, id))
      && (Called(states, a, j, id) <==> d.current == Some(id) || Returned(states, a, j, id))
      && (d.current == Some(id) ==> !Returned(states, a, j, id))
      && (Returned(states, a, j, id) ==> sub.Next().keep)
      && !Orphaned(states, a, j, id, sub)
    else
      && id < s.nextId && Find(s, id) == None && HadTurn(states, a, j, id)
      && (Orphaned(states, a, j, id, sub) || (Called(states, a, j, id) && !sub.Next().keep))
  }

  /** The histories grow by what the last step did. */
  lemma HistoriesGrow(states: seq<State>, a: nat, j: nat, id: SubId, sub: Sub)
    requires a < j < |states| && a + 1 < |states| && states[a + 1].out.Some?
    ensures HadTurn(states, a, j + 1, id) <==> HadTurn(states, a, j, id) || Turn(states[j], id)
    ensures Called(states, a, j + 1, id) <==> Called(states, a, j, id) || Calls(states[j], id)
    ensures Returned(states, a, j + 1, id) <==> Returned(states, a, j, id) || Returns(states[j], id)
    ensures Noted(states, a, j + 1, id) <==> Noted(states, a, j, id) || (Drops(states[j], id) && !Added(states, a, j))
    ensures Orphaned(states, a, j + 1, id, sub) <==>
              || Orphaned(states, a, j, id, sub)
              || (Turn(states[j], id) && Wants(sub, states[a + 1].out.value.effect) &&
                  Released(KeyAt(states, a), states[j].released))
  {
    hide Turn, Calls, Returns, Drops, Wants, Released, Added;
  }

  lemma StatusStep(states: seq<State>, a: nat, j: nat, id: SubId, sub: Sub)
    requires InDispatch(states, a, j + 1) && InDispatch(states, a, j) && Status(states, a, j, id, sub)
    requires states[j].out.value.key == KeyAt(states, a) && states[j].out.value.effect == states[a + 1].out.value.effect
    requires Touched(states[j]) <==> Added(states, a, j)
    requires id in states[j].out.value.held && TakenStep(states[j], states[j + 1], id)
    requires id < states[j + 1].nextId
    requires Calls(states[j], id) ==> Turn(states[j], id)
    ensures Status(states, a, j + 1, id, sub)
  {
    hide HadTurn, Called, Returned, Noted, Orphaned, Added, Touched, Turn, Calls, Drops, Wants, Released;
    HistoriesGrow(states, a, j, id, sub);
    CalledAtTurn(states, a, j, id);
    TurnIsNext(states[j], id);
  }

  lemma TurnIsNext(s: State, id: SubId)
    ensures Turn(s, id) ==> s.out.Some? && s.out.value.current == None && id in s.out.value.rest
  {
  }

  lemma CalledAtTurn(states: seq<State>, a: nat, j: nat, id: SubId)
    requires j <= |states|
    ensures Called(states, a, j, id) ==> HadTurn(states, a, j, id)
  {
    hide Turn, Callable;
    if Called(states, a, j, id) {
      var k :| a < k < j && Calls(states[k], id);
      assert Turn(states[k], id);
    }
  }

  lemma StatusAtStart(states: seq<State>, a: nat, id: SubId)
    requires IsRun(states) && InDispatch(states, a, a + 1)
    requires id in states[a].subs && states[a].subs[id].key == KeyAt(states, a)
    ensures Status(states, a, a + 1, id, states[a].subs[id])
  {
    hide IsRun, Inv, Step, Begin, Next, Touched;
    RunStep(states, a);
    StartOfDispatch(states[a], states[a + 1]);
    Within(states[a + 1]);
  }

  lemma {:induction false} StatusInDispatch(states: seq<State>, a: nat, j: nat, id: SubId)
    requires IsRun(states) && InDispatch(states, a, j)
    requires id in states[a].subs && states[a].subs[id].key == KeyAt(states, a)
    ensures Status(states, a, j, id, states[a].subs[id])
  {
    hide IsRun, Status;
    if j == a + 1 {
      StatusAtStart(states, a, id);
    } else {
      StatusInDispatch(states, a, j - 1, id);
      if id in states[j - 1].out.value.held {
        HeldStatus(states, a, j - 1, id, states[a].subs[id]);
      } else {
        GoneStatus(states, a, j - 1, id, states[a].subs[id]);
      }
    }
  }

  lemma HeldStatus(states: seq<State>, a: nat, j: nat, id: SubId, sub: Sub)
    requires IsRun(states) && InDispatch(states, a, j + 1) && InDispatch(states, a, j)
    requires Status(states, a, j, id, sub) && id in states[j].out.value.held
    ensures Status(states, a, j + 1, id, sub)
  {
    hide IsRun, Inv, Step, Begin, Next, Touched, Added, Status, TakenStep, Callable;
    RunStep(states, j);
    TouchedMeansAdded(states, a, j);
    Within(states[j]);
    assert id < states[j].nextId;
    hide DispatchOk;
    TakenBounded(states[j], id);
    TakenInDispatch(states[j], id);
    StatusStep(states, a, j, id, sub);
  }

  lemma TakenBounded(s: State, id: SubId)
    requires Inv(s) && s.stack != [] && s.updates > 0 && (s.stack[|s.stack| - 1].Dispatching? ==> s.out.Some?)
    requires id < s.nextId
    ensures id < Step(s).nextId
  {
    hide Inv, Exec, FlushTurn, DispatchTurn;
    match s.stack[|s.stack| - 1] {
      case Run(ops) => if ops != [] { IdsGrow(Shortened(s), ops[0]); }
      case Finish =>
      case Flush => FlushTurnFrame(s);
      case Dispatching => DispatchTurnFrame(s);
    }
  }

  lemma IdsGrow(s: State, op: Op)
    ensures s.nextId <= Exec(s, op).nextId
  {
    hide AddSub, DropHandle;
    match op {
      case Subscribe(key, t, responses) => AddFrame(s, Sub(key, t, responses, false));
      case Unsubscribe(other) => DropFrame(s, other);
      case _ =>
        hide Exec;
        PlainOpFrame(s, op);
    }
  }

  /** A subscriber that left the dispatch has no further part in it. */
  lemma GoneStatus(states: seq<State>, a: nat, j: nat, id: SubId, sub: Sub)
    requires IsRun(states) && InDispatch(states, a, j + 1) && InDispatch(states, a, j)
    requires Status(states, a, j, id, sub) && id !in states[j].out.value.held
    ensures Status(states, a, j + 1, id, sub)
  {
    hide IsRun, HadTurn, Called, Returned, Noted, Orphaned, Added;
    HistoriesGrow(states, a, j, id, sub);
    AbsentForever(states, j, j + 1, id);
  }

  lemma EndOfDispatch(s: State, s': State)
    requires Inv(s) && Next(s, s') && s.out.Some? && s'.out == None
    ensures var d := s.out.value;
            && d.current == None && d.rest == [] && DispatchOk(s, d)
            && s'.subs == (s.subs + d.held) - s.dropped && s'.nextId == s.nextId
  {
    Within(s);
    hide Inv, Exec, DispatchOk, Visit;
    match s.stack[|s.stack| - 1] {
      case Run(ops) =>
        if ops != [] {
          if ops[0].Update? { PlainOpFrame(Shortened(s), ops[0]); } else { ExecFrame(Shortened(s), ops[0]); }
        }
      case Finish =>
      case Dispatching =>
        if s.out.value.current == None && s.out.value.rest != [] { VisitFrame(s, s.out.value); }
    }
  }

  /** Where the subscriber stands, and what that means for its turn, in one state. */
  lemma TurnsSoFar(states: seq<State>, a: nat, k: nat, id: SubId)
    requires IsRun(states) && InDispatch(states, a, k)
    requires id in states[a].subs && states[a].subs[id].key == KeyAt(states, a)
    ensures id in states[k].out.value.rest <==> !HadTurn(states, a, k, id)
    ensures Calls(states[k], id) <==>
              && Turn(states[k], id) && Wants(states[a].subs[id], states[a + 1].out.value.effect)
              && !Released(KeyAt(states, a), states[k].released)
  {
    hide IsRun, Inv, HadTurn, Called, Returned, Noted, Orphaned, Added, Touched, Wants, Released;
    StatusInDispatch(states, a, k, id);
    TouchedMeansAdded(states, a, k);
    RunKeepsInv(states, k);
    Within(states[k]);
    CalledAtTurn(states, a, k, id);
    TurnIsNext(states[k], id);
  }

  /** In a dispatch that ends, every subscriber taken out has exactly one turn, and is called
      then if it is active, waits for this type of event and its entity lives: whether or not
      it was dropped before. */
  lemma OneTurn(states: seq<State>, a: nat, b: nat, id: SubId) returns (turn: nat)
    requires IsRun(states) && Dispatched(states, a, b)
    requires id in states[a].subs && states[a].subs[id].key == KeyAt(states, a)
    ensures a < turn < b
    ensures forall k | a < k < b :: Turn(states[k], id) <==> k == turn
    ensures forall k | a < k < b :: id in states[k].out.value.rest <==> k <= turn
    ensures forall k | a < k < b ::
              Calls(states[k], id) <==>
                && k == turn && Wants(states[a].subs[id], states[a + 1].out.value.effect)
                && !Released(KeyAt(states, a), states[turn].released)
  {
    hide IsRun, Calls, Wants, Released, Turn;
    TurnExists(states, a, b, id);
    turn :| a < turn < b - 1 && Turn(states[turn], id);
    forall k | a < k < b
      ensures Turn(states[k], id) ==> id in states[k].out.value.rest
      ensures id in states[k].out.value.rest <==> !HadTurn(states, a, k, id)
      ensures Calls(states[k], id) <==>
                && Turn(states[k], id) && Wants(states[a].subs[id], states[a + 1].out.value.effect)
                && !Released(KeyAt(states, a), states[k].released)
    {
      TurnsSoFar(states, a, k, id);
      TurnIsNext(states[k], id);
    }
    forall k | a < k < b ensures Turn(states[k], id) <==> k == turn {
      if turn < k {
        assert HadTurn(states, a, k, id);
      }
    }
  }

  /** A dispatch ends only when everybody has had a turn. */
  lemma TurnExists(states: seq<State>, a: nat, b: nat, id: SubId)
    requires IsRun(states) && Dispatched(states, a, b)
    requires id in states[a].subs && states[a].subs[id].key == KeyAt(states, a)
    ensures HadTurn(states, a, b - 1, id)
  {
    hide IsRun, Inv, Next, Calls, Wants, Released, HadTurn, Turn;
    RunStep(states, b - 1);
    EndOfDispatch(states[b - 1], states[b]);
    TurnsSoFar(states, a, b - 1, id);
  }

  /** Exactly which subscribers taken out by a dispatch are in the set when it ends. */
  lemma SurvivesDispatch(states: seq<State>, a: nat, b: nat, id: SubId) returns (turn: nat)
    requires IsRun(states) && Dispatched(states, a, b)
    requires id in states[a].subs && states[a].subs[id].key == KeyAt(states, a)
    ensures a < turn < b && Turn(states[turn], id)
    ensures id in states[b].subs <==>
              && !Noted(states, a, b, id)
              && (Wants(states[a].subs[id], states[a + 1].out.value.effect) ==>
                    states[a].subs[id].Next().keep && !Released(KeyAt(states, a), states[turn].released))
  {
    hide IsRun, Inv, Next, Turn, Wants, Released, Drops, Returns, Added, Calls;
    turn := OneTurn(states, a, b, id);
    RunStep(states, b - 1);
    EndOfDispatch(states[b - 1], states[b]);
    StatusInDispatch(states, a, b - 1, id);
    EndIsNoOp(states, a, b, id, states[a].subs[id]);
    if id in states[b - 1].out.value.held {
      if Wants(states[a].subs[id], states[a + 1].out.value.effect) {
        assert !Released(KeyAt(states, a), states[turn].released);
        assert Calls(states[turn], id);
        assert Called(states, a, b - 1, id);
      }
    } else {
      AbsentForever(states, b - 1, b, id);
    }
  }

  lemma EndIsNoOp(states: seq<State>, a: nat, b: nat, id: SubId, sub: Sub)
    requires IsRun(states) && Dispatched(states, a, b)
    ensures Noted(states, a, b, id) <==> Noted(states, a, b - 1, id)
    ensures !Turn(states[b - 1], id)
  {
    hide IsRun, Inv, Next, Added, Noted, HadTurn, Called, Returned, Orphaned;
    RunStep(states, b - 1);
    EndIsTurn(states[b - 1], states[b]);
    EndedWithoutTurn(states[b - 1], states[b], id);
    HistoriesGrow(states, a, b - 1, id, sub);
  }

  lemma EndedWithoutTurn(s: State, s': State, id: SubId)
    requires Inv(s) && Next(s, s') && s.out.Some? && s'.out == None
    ensures !Turn(s, id)
  {
    hide Inv, Next;
    EndOfDispatch(s, s');
  }

  lemma EndIsTurn(s: State, s': State)
    requires Inv(s) && Next(s, s') && s.out.Some? && s'.out == None
    ensures OpAt(s) == None
  {
    hide Inv, Exec;
    if OpAt(s).Some? {
      var op := OpAt(s).value;
      if op.Update? { PlainOpFrame(Shortened(s), op); } else { ExecFrame(Shortened(s), op); }
    }
  }

  // ---- Dropping during a dispatch ----

  /** A subscription is dropped only once. */
  lemma {:induction false} HandleGone(states: seq<State>, m: nat, j: nat, id: SubId)
    requires IsRun(states) && m < j < |states| && OpAt(states[m]) == Some(Unsubscribe(id)) && id < states[m].nextId
    ensures id !in states[j].handles && id < states[j].nextId
  {
    hide IsRun, Inv, Step, Begin;
    RunStep(states, j - 1);
    if j > m + 1 {
      HandleGone(states, m, j - 1, id);
    }
    if states[j - 1].stack == [] {
      IdleHandles(states[j - 1], states[j]);
    } else {
      StepHandles(states[j - 1], id);
    }
  }

  lemma IdleHandles(s: State, s': State)
    requires exists script :: s' == Begin(s, script)
    ensures s'.handles == s.handles && s'.nextId == s.nextId
  {
  }

  lemma StepHandles(s: State, id: SubId)
    requires Inv(s) && s.stack != [] && s.updates > 0 && (s.stack[|s.stack| - 1].Dispatching? ==> s.out.Some?)
    requires id < s.nextId && (id !in s.handles || OpAt(s) == Some(Unsubscribe(id)))
    ensures id !in Step(s).handles && id < Step(s).nextId
  {
    hide Inv, Exec, FlushTurn, DispatchTurn;
    match s.stack[|s.stack| - 1] {
      case Run(ops) => if ops != [] { OpHandles(Shortened(s), ops[0], id); }
      case Finish =>
      case Flush => FlushTurnFrame(s);
      case Dispatching => DispatchTurnFrame(s);
    }
  }

  lemma OpHandles(s: State, op: Op, id: SubId)
    requires id < s.nextId && (id !in s.handles || op == Unsubscribe(id))
    ensures id !in Exec(s, op).handles && id < Exec(s, op).nextId
  {
    match op {
      case Subscribe(key, t, responses) =>
        hide AddSub;
        AddFrame(s, Sub(key, t, responses, false));
      case Unsubscribe(other) => hide HasSubs;
      case _ =>
        hide Exec;
        PlainOpFrame(s, op);
    }
  }

  /** A subscription dropped while its emitter is dispatched.  Its callback is still called in
      that dispatch exactly if its turn is yet to come, it is active and waits for this type of
      event, and its entity lives at its turn.  It is back in the set afterwards exactly if
      somebody was subscribed to the emitter earlier in that dispatch, unless it went anyway. */
  lemma DroppedDuringDispatch(states: seq<State>, a: nat, m: nat, b: nat, id: SubId) returns (turn: nat)
    requires IsRun(states) && Dispatched(states, a, b) && a < m < b && Drops(states[m], id)
    requires id in states[a].subs && states[a].subs[id].key == KeyAt(states, a)
    ensures a < turn < b && Turn(states[turn], id)
    ensures (exists k | m < k < b :: Calls(states[k], id)) <==>
              && id in states[m].out.value.rest && Wants(states[a].subs[id], states[a + 1].out.value.effect)
              && !Released(KeyAt(states, a), states[turn].released)
    ensures id in states[b].subs <==>
              && Added(states, a, m)
              && (Wants(states[a].subs[id], states[a + 1].out.value.effect) ==>
                    states[a].subs[id].Next().keep && !Released(KeyAt(states, a), states[turn].released))
  {
    hide IsRun, Turn, Wants, Released, Calls, Added;
    turn := OneTurn(states, a, b, id);
    var turn' := SurvivesDispatch(states, a, b, id);
    assert turn' == turn;
    assert Noted(states, a, b, id) <==> !Added(states, a, m) by { OneDrop(states, a, m, b, id); }
    assert OpAt(states[m]) != None && m != turn by { hide InDispatch; NoOpAtTurn(states[m], id); }
    if id in states[m].out.value.rest && Wants(states[a].subs[id], states[a + 1].out.value.effect) &&
       !Released(KeyAt(states, a), states[turn].released) {
      assert m < turn < b && Calls(states[turn], id);
    }
  }

  lemma NoOpAtTurn(s: State, id: SubId)
    ensures OpAt(s).Some? ==> !Turn(s, id)
  {
  }

  lemma OneDrop(states: seq<State>, a: nat, m: nat, b: nat, id: SubId)
    requires IsRun(states) && Dispatched(states, a, b) && a < m < b && Drops(states[m], id)
    ensures Noted(states, a, b, id) <==> !Added(states, a, m)
  {
    hide IsRun, Inv, Added;
    assert forall k | a < k < b && Drops(states[k], id) :: k == m by {
      forall k | a < k < b && Drops(states[k], id) ensures k == m {
        if k < m {
          HandleBounded(states, k, id);
          HandleGone(states, k, m, id);
        } else if m < k {
          HandleBounded(states, m, id);
          HandleGone(states, m, k, id);
        }
      }
    }
  }

  lemma HandleBounded(states: seq<State>, k: nat, id: SubId)
    requires IsRun(states) && k < |states| && id in states[k].handles
    ensures id < states[k].nextId
  {
    RunKeepsInv(states, k);
  }

  /** The documented promise, that the callback is no longer invoked, is kept for the rest of
      the run if nobody was subscribed to the emitter earlier in the dispatch and the turn of
      the subscriber is over, or not for it. */
  lemma DropHonoured(states: seq<State>, a: nat, m: nat, b: nat, id: SubId, j: nat)
    requires IsRun(states) && Dispatched(states, a, b) && a < m < b && Drops(states[m], id) && m < j < |states|
    requires id in states[a].subs && states[a].subs[id].key == KeyAt(states, a)
    requires !Added(states, a, m)
    requires id !in states[m].out.value.rest || !Wants(states[a].subs[id], states[a + 1].out.value.effect)
    ensures !Calls(states[j], id)
  {
    hide IsRun, Wants, Released, Calls, Added, Find;
    var turn := DroppedDuringDispatch(states, a, m, b, id);
    if j >= b {
      assert states[b].out == None && id < states[b].nextId by {
        hide Drops;
        HandleBounded(states, m, id);
        HandleGone(states, m, b, id);
      }
      NotInSet(states[b], id);
      AbsentForever(states, b, j, id);
    }
  }

  lemma NotInSet(s: State, id: SubId)
    requires s.out == None && id !in s.subs
    ensures Find(s, id) == None
  {
  }

  // ---- The outcome, read off the state in which the subscription is dropped ----

  lemma {:induction false} ReleasedLater(states: seq<State>, i: nat, j: nat)
    requires IsRun(states) && i <= j < |states|
    ensures states[i].released <= states[j].released
  {
    hide IsRun, Inv, Next;
    if i < j {
      ReleasedLater(states, i, j - 1);
      RunStep(states, j - 1);
      ReleasedGrows(states[j - 1], states[j]);
    }
  }

  /** Whether a dropped subscriber that nobody's release concerns will still be called. */
  predicate StillCalled(s: State, id: SubId) {
    && s.out.Some? && id in s.out.value.rest && id in s.out.value.held
    && Wants(s.out.value.held[id], s.out.value.effect) && !Released(s.out.value.key, s.released)
  }

  /** Whether its drop will leave it in the set: the entry of the emitter was touched, and the
      subscriber neither has left nor is going to leave on its own account. */
  ghost predicate StillThere(s: State, id: SubId) {
    && s.out.Some? && Touched(s) && id in s.out.value.held
    && var d, sub := s.out.value, s.out.value.held[id];
       && (id in d.rest && Wants(sub, d.effect) ==> sub.Next().keep && !Released(d.key, s.released))
       && (d.current == Some(id) ==> sub.Next().keep)
  }

  /** If the entity is not released between the drop and the end of the dispatch, the state in
      which the subscription is dropped tells both outcomes exactly. */
  lemma DropOutcome(states: seq<State>, a: nat, m: nat, b: nat, id: SubId)
    requires IsRun(states) && Dispatched(states, a, b) && a < m < b && Drops(states[m], id)
    requires id in states[a].subs && states[a].subs[id].key == KeyAt(states, a)
    requires Released(KeyAt(states, a), states[b].released) ==> Released(KeyAt(states, a), states[m].released)
    ensures (exists k | m < k < b :: Calls(states[k], id)) <==> StillCalled(states[m], id)
    ensures id in states[b].subs <==> StillThere(states[m], id)
  {
    hide IsRun, Inv, Drops, Wants, Released, Calls, Turn, Added, Noted, Returned, Touched, HadTurn, Find;
    var turn := DroppedDuringDispatch(states, a, m, b, id);
    var turn' := OneTurn(states, a, b, id);
    assert turn' == turn;
    TouchedMeansAdded(states, a, m);
    RunKeepsInv(states, m);
    Within(states[m]);
    if turn < m {
      TurnOver(states, a, m, b, id, turn);
    } else {
      ReleasedThrough(states, m, turn, b, KeyAt(states, a));
      TurnAhead(states, a, m, id);
    }
  }

  /** A subscriber whose turn is to come is in the dispatch as it was taken out. */
  lemma TurnAhead(states: seq<State>, a: nat, m: nat, id: SubId)
    requires IsRun(states) && InDispatch(states, a, m) && id in states[m].out.value.rest
    requires id in states[a].subs && states[a].subs[id].key == KeyAt(states, a)
    ensures var d := states[m].out.value;
            id in d.held && d.held[id] == states[a].subs[id] && d.current != Some(id)
  {
    hide IsRun, Inv, HadTurn, Called, Returned, Noted, Orphaned, Touched, Find;
    StatusInDispatch(states, a, m, id);
    RunKeepsInv(states, m);
    Within(states[m]);
    CalledAtTurn(states, a, m, id);
  }

  /** One whose turn is over has left, or was called if there was something for it. */
  lemma TurnOver(states: seq<State>, a: nat, m: nat, b: nat, id: SubId, turn: nat)
    requires IsRun(states) && Dispatched(states, a, b) && a < turn < m < b
    requires id in states[a].subs && states[a].subs[id].key == KeyAt(states, a)
    requires id !in states[m].out.value.rest && forall k | a < k < b :: Turn(states[k], id) <==> k == turn
    requires forall k | a < k < b :: Calls(states[k], id) <==>
               && k == turn && Wants(states[a].subs[id], states[a + 1].out.value.effect)
               && !Released(KeyAt(states, a), states[turn].released)
    ensures var d, sub := states[m].out.value, states[a].subs[id];
            (id in d.held && (d.current == Some(id) ==> d.held[id].Next().keep)) <==>
            (Wants(sub, states[a + 1].out.value.effect) ==>
               sub.Next().keep && !Released(KeyAt(states, a), states[turn].released))
  {
    hide IsRun, Inv, HadTurn, Noted, Touched, Find, Turn, Calls, Wants, Released;
    StatusInDispatch(states, a, m, id);
    var sub := states[a].subs[id];
    if Wants(sub, states[a + 1].out.value.effect) {
      if Released(KeyAt(states, a), states[turn].released) {
        assert Orphaned(states, a, m, id, sub);
      } else {
        assert Calls(states[turn], id);
        assert Called(states, a, m, id);
      }
    }
  }

  lemma ReleasedThrough(states: seq<State>, m: nat, turn: nat, b: nat, key: SetKey)
    requires IsRun(states) && m <= turn < b < |states|
    requires Released(key, states[b].released) ==> Released(key, states[m].released)
    ensures Released(key, states[turn].released) <==> Released(key, states[m].released)
  {
    hide IsRun;
    ReleasedLater(states, m, turn);
    ReleasedLater(states, turn, b);
  }

  // ---- The promise, over a later dispatch as well ----

  /** Dropped, yet still subscribed as `sub` was, and not being called. */
  ghost predicate Lingers(s: State, id: SubId, sub: Sub) {
    && id < s.nextId && id !in s.handles && id !in s.dropped && Find(s, id).Some?
    && Find(s, id).value.key == sub.key && Find(s, id).value.eventType == sub.eventType && Find(s, id).value.active
    && (s.out.Some? ==> s.out.value.current != Some(id))
  }

  lemma StepLingers(s: State, id: SubId, sub: Sub)
    requires Inv(s) && s.stack != [] && s.updates > 0 && (s.stack[|s.stack| - 1].Dispatching? ==> s.out.Some?)
    requires Lingers(s, id, sub) && !Calls(s, id) && !Released(sub.key, s.released)
    ensures Lingers(Step(s), id, sub)
  {
    assert s.stack[|s.stack| - 1].Flush? ==> s.out == None;
    assert SubsOk(s);
    hide Inv, SubsOk, Exec, FlushTurn, DispatchTurn, Calls, Released;
    match s.stack[|s.stack| - 1] {
      case Run(ops) => if ops != [] { OpLingers(Shortened(s), ops[0], id, sub); }
      case Finish =>
      case Flush => FlushLingers(s, id, sub);
      case Dispatching => DispatchLingers(s, id, sub);
    }
  }

  lemma OpLingers(s: State, op: Op, id: SubId, sub: Sub)
    requires Lingers(s, id, sub)
    ensures Lingers(Exec(s, op), id, sub)
  {
    match op {
      case Subscribe(key, t, responses) =>
        hide AddSub;
        AddFrame(s, Sub(key, t, responses, false));
      case Unsubscribe(other) => hide HasSubs;
      case _ =>
        hide Exec;
        PlainOpFrame(s, op);
    }
  }

  lemma FlushLingers(s: State, id: SubId, sub: Sub)
    requires SubsOk(s) && s.stack != [] && s.updates > 0 && s.out == None
    requires Lingers(s, id, sub) && !Released(sub.key, s.released)
    ensures Lingers(FlushTurn(s), id, sub)
  {
    hide StartDispatch;
    if s.toRelease == [] && s.queue != [] {
      var rest := s.(queue := s.queue[1..]);
      match s.queue[0] {
        case NotifyEffect(e) =>
          StartLingers(rest.(notifications := s.notifications - {e}), s.queue[0], ObserversOf(e), id, sub);
        case EmitEffect(e, _, _) => StartLingers(rest, s.queue[0], ListenersOf(e), id, sub);
        case NotifyGlobalEffect(t) =>
          var s1 := rest.(globalNotifications := s.globalNotifications - {t});
          StartLingers(s1, s.queue[0], GlobalObservers(t), id, sub);
        case _ =>
      }
    }
  }

  lemma StartLingers(s: State, effect: Effect, key: SetKey, id: SubId, sub: Sub)
    requires s.out == None && Lingers(s, id, sub)
    ensures Lingers(StartDispatch(s, effect, key), id, sub)
  {
    StartFinds(s, effect, key, id);
    hide Find, IdsFor;
  }

  lemma DispatchLingers(s: State, id: SubId, sub: Sub)
    requires SubsOk(s) && s.stack != [] && s.stack[|s.stack| - 1].Dispatching? && s.out.Some?
    requires Lingers(s, id, sub) && !Calls(s, id) && !Released(sub.key, s.released)
    ensures Lingers(DispatchTurn(s), id, sub)
  {
    hide SubsOk, Settle, EndDispatch, Visit, Wants, Released, Lingers;
    OutOk(s);
    var d := s.out.value;
    if d.current.Some? {
      SettleLingers(s, d, id, sub);
    } else if d.rest == [] {
      EndLingers(s, d, id, sub);
    } else {
      VisitLingers(s, d, id, sub);
    }
  }

  lemma SettleLingers(s: State, d: Dispatch, id: SubId, sub: Sub)
    requires s.out == Some(d) && d.current.Some? && Lingers(s, id, sub)
    ensures Lingers(Settle(s, d), id, sub)
  {
  }

  lemma EndLingers(s: State, d: Dispatch, id: SubId, sub: Sub)
    requires DispatchOk(s, d) && s.out == Some(d) && s.stack != [] && Lingers(s, id, sub)
    ensures Lingers(EndDispatch(s, d), id, sub)
  {
  }

  lemma VisitLingers(s: State, d: Dispatch, id: SubId, sub: Sub)
    requires DispatchOk(s, d) && s.out == Some(d) && d.current == None && d.rest != []
    requires Lingers(s, id, sub) && (d.rest[0] == id ==> !Callable(s, d)) && !Released(sub.key, s.released)
    ensures Lingers(Visit(s, d), id, sub)
  {
    assert d.rest[0] == id ==> !LetGo(s, d);
    hide DispatchOk, Visit, Callable, LetGo, Released;
    VisitFrame(s, d);
  }

  /** Unless it is called meanwhile, such a subscriber stays until its entity is released. */
  lemma {:induction false} LingersUntilCalled(states: seq<State>, i: nat, j: nat, id: SubId, sub: Sub)
    requires IsRun(states) && i <= j < |states| && Lingers(states[i], id, sub) && !Released(sub.key, states[j].released)
    requires forall k | i <= k < j :: !Calls(states[k], id)
    ensures Lingers(states[j], id, sub)
  {
    hide IsRun, Inv, Step, Begin, Lingers, Calls, Next;
    if i < j {
      ReleasedLater(states, j - 1, j);
      hide Released;
      NotReleasedBefore(states, j - 1, j, sub.key);
      LingersUntilCalled(states, i, j - 1, id, sub);
      RunStep(states, j - 1);
      if states[j - 1].stack == [] {
        IdleLingers(states[j - 1], states[j], id, sub);
      } else {
        StepLingers(states[j - 1], id, sub);
      }
    }
  }

  lemma NotReleasedBefore(states: seq<State>, i: nat, j: nat, key: SetKey)
    requires IsRun(states) && i <= j < |states| && !Released(key, states[j].released)
    ensures !Released(key, states[i].released)
  {
    hide IsRun;
    ReleasedLater(states, i, j);
  }

  lemma IdleLingers(s: State, s': State, id: SubId, sub: Sub)
    requires Lingers(s, id, sub) && exists script :: s' == Begin(s, script)
    ensures Lingers(s', id, sub)
  {
  }

  /** A subscriber that is in the set after the dispatch in which it was dropped lingers. */
  lemma LostDropLingers(states: seq<State>, a: nat, m: nat, b: nat, id: SubId)
    requires IsRun(states) && Dispatched(states, a, b) && a < m < b && Drops(states[m], id)
    requires id in states[a].subs && states[a].subs[id].key == KeyAt(states, a) && states[a].subs[id].active
    requires id in states[b].subs
    ensures Lingers(states[b], id, states[a].subs[id])
  {
    hide IsRun, Inv, HadTurn, Called, Returned, Noted, Orphaned, Added, Touched;
    HandleBounded(states, m, id);
    HandleGone(states, m, b, id);
    RunStep(states, b - 1);
    NoDrops(states[b]);
    EndOfDispatch(states[b - 1], states[b]);
    StatusInDispatch(states, a, b - 1, id);
  }

  lemma NoDrops(s: State)
    requires Inv(s) && s.out == None
    ensures s.dropped == {}
  {
  }

  lemma FoundInSet(s: State, id: SubId)
    requires s.out == None
    ensures id in s.subs <==> Find(s, id).Some?
    ensures id in s.subs ==> Find(s, id).value == s.subs[id]
  {
  }

  /** The documented promise, in one condition.  A subscription is dropped while its emitter is
      dispatched, and the emitter is dispatched again later with something for it.  If the
      entity lives till then, the callback is invoked after the drop exactly if, as the state in
      which it is dropped shows, it is still to be called or the drop leaves it in the set. */
  lemma DropVerdict(states: seq<State>, a: nat, m: nat, b: nat, a': nat, b': nat, id: SubId)
    requires IsRun(states) && Dispatched(states, a, b) && a < m < b && Drops(states[m], id)
    requires id in states[a].subs && states[a].subs[id].key == KeyAt(states, a) && states[a].subs[id].active
    requires b <= a' && Dispatched(states, a', b') && KeyAt(states, a') == KeyAt(states, a)
    requires Wants(states[a].subs[id], states[a' + 1].out.value.effect)
    requires !Released(KeyAt(states, a), states[b'].released)
    ensures (exists k | m < k < b' :: Calls(states[k], id)) <==> StillCalled(states[m], id) || StillThere(states[m], id)
  {
    hide IsRun, Inv, Drops, Released, Calls, StillCalled, StillThere, Find, Lingers;
    NotReleasedBefore(states, b, b', KeyAt(states, a));
    DropOutcome(states, a, m, b, id);
    if id in states[b].subs {
      LostDropLingers(states, a, m, b, id);
      LostIsCalled(states, a, b, a', b', id);
    } else {
      FoundInSet(states[b], id);
      DropBounded(states, m, b, id);
      forall k | b <= k < b' ensures !Calls(states[k], id) { AbsentForever(states, b, k, id); }
    }
  }

  lemma DropBounded(states: seq<State>, m: nat, b: nat, id: SubId)
    requires IsRun(states) && m < b < |states| && Drops(states[m], id)
    ensures id < states[b].nextId
  {
    hide IsRun;
    HandleBounded(states, m, id);
    HandleGone(states, m, b, id);
  }

  /** A lost drop is felt: the next dispatch that has something for the subscriber calls it,
      unless it was called already. */
  lemma LostIsCalled(states: seq<State>, a: nat, b: nat, a': nat, b': nat, id: SubId)
    requires IsRun(states) && a < b <= a' && Dispatched(states, a', b') && id in states[a].subs
    requires Lingers(states[b], id, states[a].subs[id]) && states[a].subs[id].key == KeyAt(states, a')
    requires states[a].subs[id].active && Wants(states[a].subs[id], states[a' + 1].out.value.effect)
    requires !Released(KeyAt(states, a'), states[b'].released)
    ensures exists k | b <= k < b' :: Calls(states[k], id)
  {
    hide IsRun, Inv, Released, Calls, Turn;
    var sub := states[a].subs[id];
    if forall k | b <= k < a' :: !Calls(states[k], id) {
      NotReleasedBefore(states, a', b', sub.key);
      LingersUntilCalled(states, b, a', id, sub);
      FoundInSet(states[a'], id);
      var turn := OneTurn(states, a', b', id);
      NotReleasedBefore(states, turn, b', sub.key);
      assert Calls(states[turn], id);
    }
  }
}
