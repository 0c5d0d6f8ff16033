/** What is queued is carried out: over every run, each notification reaches the observers that
    are in place, and each deferred script is run, before the outermost update returns. */
module ObserverRuns {
  import opened Basics
  import opened Effects
  import opened EffectsProof
  import opened EffectRuns
  import opened CallRuns

  /** A subscriber that is not about to leave: it is found under this key and event type, active
      if that is asked for, no drop of it is noted, and a call under way will return true. */
  ghost predicate Lasts(s: State, id: SubId, key: SetKey, t: TypeId, active: bool) {
    && id < s.nextId && id !in s.dropped && Find(s, id).Some?
    && Find(s, id).value.key == key && Find(s, id).value.eventType == t && (active ==> Find(s, id).value.active)
    && (s.out.Some? && s.out.value.current == Some(id) ==> Find(s, id).value.Next().keep)
  }

  lemma StepLasts(s: State, id: SubId, key: SetKey, t: TypeId, active: bool)
    requires Inv(s) && s.stack != [] && s.updates > 0 && (s.stack[|s.stack| - 1].Dispatching? ==> s.out.Some?)
    requires Lasts(s, id, key, t, active) && !Refuses(s, id) && !Released(key, s.released)
    requires OpAt(s) == Some(Unsubscribe(id)) ==> id !in s.handles
    ensures Lasts(Step(s), id, key, t, active)
  {
    assert s.stack[|s.stack| - 1].Flush? ==> s.out == None;
    assert SubsOk(s);
    hide Inv, SubsOk, Exec, FlushTurn, DispatchTurn, Refuses, Released, Lasts;
    match s.stack[|s.stack| - 1] {
      case Run(ops) =>
        if ops != [] {
          LastsFrame(s, Shortened(s), id, key, t, active);
          OpLasts(Shortened(s), ops[0], id, key, t, active);
        } else {
          LastsFrame(s, Step(s), id, key, t, active);
        }
      case Finish => LastsFrame(s, Step(s), id, key, t, active);
      case Flush => FlushLasts(s, id, key, t, active);
      case Dispatching => DispatchLasts(s, id, key, t, active);
    }
  }

  lemma LastsFrame(s: State, s': State, id: SubId, key: SetKey, t: TypeId, active: bool)
    requires Lasts(s, id, key, t, active) && s'.subs == s.subs && s'.out == s.out && s'.dropped == s.dropped
    requires s.nextId <= s'.nextId
    ensures Lasts(s', id, key, t, active)
  {
  }

  lemma OpLasts(s: State, op: Op, id: SubId, key: SetKey, t: TypeId, active: bool)
    requires Lasts(s, id, key, t, active) && (op == Unsubscribe(id) ==> id !in s.handles)
    ensures Lasts(Exec(s, op), id, key, t, active)
  {
    match op {
      case Subscribe(k, t', responses) =>
        hide AddSub;
        AddFrame(s, Sub(k, t', responses, false));
      case Unsubscribe(other) => hide HasSubs;
      case _ =>
        hide Exec;
        PlainOpFrame(s, op);
    }
  }

  lemma FlushLasts(s: State, id: SubId, key: SetKey, t: TypeId, active: bool)
    requires SubsOk(s) && s.stack != [] && s.updates > 0 && s.out == None
    requires Lasts(s, id, key, t, active) && !Released(key, s.released)
    ensures Lasts(FlushTurn(s), id, key, t, active)
  {
    hide StartDispatch;
    if s.toRelease == [] && s.queue != [] {
      var rest := s.(queue := s.queue[1..]);
      match s.queue[0] {
        case NotifyEffect(e) =>
          StartLasts(rest.(notifications := s.notifications - {e}), s.queue[0], ObserversOf(e), id, key, t, active);
        case EmitEffect(e, _, _) => StartLasts(rest, s.queue[0], ListenersOf(e), id, key, t, active);
        case NotifyGlobalEffect(g) =>
          var s1 := rest.(globalNotifications := s.globalNotifications - {g});
          StartLasts(s1, s.queue[0], GlobalObservers(g), id, key, t, active);
        case _ =>
      }
    }
  }

  lemma StartLasts(s: State, effect: Effect, audience: SetKey, id: SubId, key: SetKey, t: TypeId, active: bool)
    requires s.out == None && Lasts(s, id, key, t, active)
    ensures Lasts(StartDispatch(s, effect, audience), id, key, t, active)
  {
    StartFinds(s, effect, audience, id);
    hide Find, IdsFor;
  }

  lemma DispatchLasts(s: State, id: SubId, key: SetKey, t: TypeId, active: bool)
    requires SubsOk(s) && s.stack != [] && s.stack[|s.stack| - 1].Dispatching? && s.out.Some?
    requires Lasts(s, id, key, t, active) && !Refuses(s, id) && !Released(key, s.released)
    ensures Lasts(DispatchTurn(s), id, key, t, active)
  {
    hide SubsOk, Settle, EndDispatch, Visit, Wants, Released, Lasts;
    OutOk(s);
    var d := s.out.value;
    if d.current.Some? {
      SettleLasts(s, d, id, key, t, active);
    } else if d.rest == [] {
      EndLasts(s, d, id, key, t, active);
    } else {
      VisitLasts(s, d, id, key, t, active);
    }
  }

  lemma SettleLasts(s: State, d: Dispatch, id: SubId, key: SetKey, t: TypeId, active: bool)
    requires DispatchOk(s, d) && s.out == Some(d) && d.current.Some? && Lasts(s, id, key, t, active)
    ensures Lasts(Settle(s, d), id, key, t, active)
  {
  }

  lemma EndLasts(s: State, d: Dispatch, id: SubId, key: SetKey, t: TypeId, active: bool)
    requires DispatchOk(s, d) && s.out == Some(d) && s.stack != [] && Lasts(s, id, key, t, active)
    ensures Lasts(EndDispatch(s, d), id, key, t, active)
  {
  }

  lemma VisitLasts(s: State, d: Dispatch, id: SubId, key: SetKey, t: TypeId, active: bool)
    requires DispatchOk(s, d) && s.out == Some(d) && d.current == None && d.rest != []
    requires Lasts(s, id, key, t, active) && !Released(key, s.released)
    requires d.rest[0] == id && Callable(s, d) ==> d.held[id].Next().keep
    ensures Lasts(Visit(s, d), id, key, t, active)
  {
    assert d.rest[0] in d.held && (d.rest[0] == id ==> !LetGo(s, d));
    hide DispatchOk, Visit, Callable, LetGo, Released;
    VisitFrame(s, d);
  }

  // ---- Waiting for an effect ----

  /** The effect is still to reach the subscriber: it is queued, or being dispatched with the
      subscriber's turn to come. */
  ghost predicate Due(s: State, id: SubId, effect: Effect) {
    || effect in s.queue
    || (s.out.Some? && s.out.value.effect == effect && id in s.out.value.rest)
  }

  lemma StepDue(s: State, id: SubId, effect: Effect, key: SetKey, t: TypeId)
    requires Inv(s) && s.stack != [] && s.updates > 0 && (s.stack[|s.stack| - 1].Dispatching? ==> s.out.Some?)
    requires AudienceOf(effect) == Some(key) && (effect.EmitEffect? ==> effect.eventType == t)
    requires Lasts(s, id, key, t, true) && !Calls(s, id) && !Released(key, s.released) && Due(s, id, effect)
    ensures Due(Step(s), id, effect)
  {
    assert s.stack[|s.stack| - 1].Flush? ==> s.out == None;
    assert SubsOk(s);
    hide Inv, SubsOk, Exec, FlushTurn, DispatchTurn, Calls, Released;
    match s.stack[|s.stack| - 1] {
      case Run(ops) => if ops != [] { OpDue(Shortened(s), ops[0], id, effect); }
      case Finish =>
      case Flush => FlushDue(s, id, effect, key, t);
      case Dispatching => DispatchDue(s, id, effect, key, t);
    }
  }

  /** An operation only adds to the queue, and leaves a dispatch as it is but for its mark. */
  lemma OpDue(s: State, op: Op, id: SubId, effect: Effect)
    requires Due(s, id, effect)
    ensures Due(Exec(s, op), id, effect)
  {
    match op {
      case Subscribe(key, t, responses) =>
        hide AddSub;
        AddFrame(s, Sub(key, t, responses, false));
      case Unsubscribe(other) => hide HasSubs;
      case _ => hide WithDue;
    }
  }

  lemma FlushDue(s: State, id: SubId, effect: Effect, key: SetKey, t: TypeId)
    requires SubsOk(s) && s.stack != [] && s.updates > 0 && s.out == None
    requires AudienceOf(effect) == Some(key) && Lasts(s, id, key, t, true) && Due(s, id, effect)
    ensures Due(FlushTurn(s), id, effect)
  {
    hide StartDispatch;
    if s.toRelease == [] {
      assert s.queue == [s.queue[0]] + s.queue[1..];
      var rest := s.(queue := s.queue[1..]);
      match s.queue[0] {
        case NotifyEffect(e) =>
          StartDue(rest.(notifications := s.notifications - {e}), s.queue[0], ObserversOf(e), id);
        case EmitEffect(e, _, _) => StartDue(rest, s.queue[0], ListenersOf(e), id);
        case NotifyGlobalEffect(g) =>
          StartDue(rest.(globalNotifications := s.globalNotifications - {g}), s.queue[0], GlobalObservers(g), id);
        case _ =>
      }
    }
  }

  /** A dispatch takes out everybody in its audience, for a turn each. */
  lemma StartDue(s: State, effect: Effect, audience: SetKey, id: SubId)
    requires forall i | i in s.subs :: i < s.nextId
    ensures var s' := StartDispatch(s, effect, audience);
            && s'.queue == s.queue
            && (id in s.subs && s.subs[id].key == audience ==>
                  s'.out.Some? && s'.out.value.effect == effect && id in s'.out.value.rest)
  {
    IdsForMembers(s.subs, audience, s.nextId);
  }

  lemma DispatchDue(s: State, id: SubId, effect: Effect, key: SetKey, t: TypeId)
    requires SubsOk(s) && s.stack != [] && s.stack[|s.stack| - 1].Dispatching? && s.out.Some?
    requires AudienceOf(effect) == Some(key) && (effect.EmitEffect? ==> effect.eventType == t)
    requires Lasts(s, id, key, t, true) && !Calls(s, id) && !Released(key, s.released) && Due(s, id, effect)
    ensures Due(DispatchTurn(s), id, effect)
  {
    DispatchTurnFrame(s);
    if effect !in s.queue {
      hide SubsOk, Released;
      OutOk(s);
      var d := s.out.value;
      if d.current == None {
        TurnDue(s, d, id, effect, key, t);
      }
    }
  }

  lemma TurnDue(s: State, d: Dispatch, id: SubId, effect: Effect, key: SetKey, t: TypeId)
    requires DispatchOk(s, d) && s.out == Some(d) && d.current == None && id in d.rest && d.effect == effect
    requires AudienceOf(effect) == Some(key) && (effect.EmitEffect? ==> effect.eventType == t)
    requires Lasts(s, id, key, t, true) && (d.rest[0] == id ==> !Callable(s, d)) && !Released(key, s.released)
    ensures Visit(s, d).out.Some? && Visit(s, d).out.value.effect == effect && id in Visit(s, d).out.value.rest
  {
    assert d.rest[0] != id;
    hide DispatchOk, Visit, Callable, LetGo, Released;
    VisitFrame(s, d);
    assert d.rest == [d.rest[0]] + d.rest[1..];
  }

  // ---- Whole runs ----

  /** The operation of a step queues this effect (if it is not queued already). */
  predicate Announces(s: State, effect: Effect) {
    match OpAt(s)
    case Some(Notify(e)) => effect == NotifyEffect(e)
    case Some(NotifyGlobal(t)) => effect == NotifyGlobalEffect(t)
    case Some(Emit(e, t, event)) => effect == EmitEffect(e, t, event)
    case Some(Defer(script)) => effect == DeferEffect(Script(script))
    case _ => false
  }

  lemma AnnouncedIsQueued(s: State, effect: Effect)
    requires Inv(s) && s.updates > 0 && Announces(s, effect)
    ensures effect in Step(s).queue
  {
    hide WithDue, Control, SubsOk, Ledgers;
  }

  /** Neither called nor dropped between two states. */
  ghost predicate LeftAlone(states: seq<State>, i: nat, j: nat, id: SubId)
    requires j <= |states|
  {
    forall k | i <= k < j :: !Calls(states[k], id) && OpAt(states[k]) != Some(Unsubscribe(id))
  }

  lemma {:induction false} StaysUnreleased(states: seq<State>, i: nat, j: nat, key: SetKey)
    requires IsRun(states) && i <= j < |states| && !Released(key, states[j].released)
    ensures !Released(key, states[i].released)
  {
    hide IsRun, Inv, Next;
    if i < j {
      RunStep(states, j - 1);
      ReleasedGrows(states[j - 1], states[j]);
      StaysUnreleased(states, i, j - 1, key);
    }
  }

  lemma {:induction false} DueUntilCalled(
    states: seq<State>, i: nat, j: nat, id: SubId, effect: Effect, key: SetKey, t: TypeId)
    requires IsRun(states) && i <= j < |states| && !Released(key, states[j].released)
    requires AudienceOf(effect) == Some(key) && (effect.EmitEffect? ==> effect.eventType == t)
    requires Lasts(states[i], id, key, t, true) && Due(states[i], id, effect) && LeftAlone(states, i, j, id)
    ensures Lasts(states[j], id, key, t, true) && Due(states[j], id, effect)
  {
    hide IsRun, Inv, Step, Begin, Lasts, Due, Calls, Next, Released;
    if i < j {
      StaysUnreleased(states, j - 1, j, key);
      DueUntilCalled(states, i, j - 1, id, effect, key, t);
      RunStep(states, j - 1);
      if states[j - 1].stack == [] {
        IdleDue(states[j - 1], states[j], id, effect, key, t);
      } else {
        StepLasts(states[j - 1], id, key, t, true);
        StepDue(states[j - 1], id, effect, key, t);
      }
    }
  }

  lemma IdleDue(s: State, s': State, id: SubId, effect: Effect, key: SetKey, t: TypeId)
    requires Lasts(s, id, key, t, true) && Due(s, id, effect) && exists script :: s' == Begin(s, script)
    ensures Lasts(s', id, key, t, true) && Due(s', id, effect)
  {
  }

  /** Whenever something is announced while a subscriber of its audience is active and in place,
      the subscriber is called after that and before the outermost update has returned, unless
      its subscription is dropped or its entity released meanwhile. */
  lemma AnnouncedIsDelivered(
    states: seq<State>, p: nat, i: nat, id: SubId, effect: Effect, key: SetKey, t: TypeId)
    requires IsRun(states) && p < i < |states| && states[i].stack == []
    requires Announces(states[p], effect) && AudienceOf(effect) == Some(key)
    requires effect.EmitEffect? ==> effect.eventType == t
    requires Lasts(states[p], id, key, t, true) && !Released(key, states[i].released)
    requires forall k | p < k < i :: OpAt(states[k]) != Some(Unsubscribe(id))
    ensures exists k :: p < k < i && Calls(states[k], id)
  {
    hide IsRun, Step, Lasts, Calls, Released, Queued, SubsOk, Ledgers;
    if forall k | p < k < i :: !Calls(states[k], id) {
      RunStep(states, p);
      StaysUnreleased(states, p, i, key);
      NotCalling(states[p], id);
      StepLasts(states[p], id, key, t, true);
      AnnouncedIsQueued(states[p], effect);
      assert LeftAlone(states, p + 1, i, id);
      DueUntilCalled(states, p + 1, i, id, effect, key, t);
      RunKeepsInv(states, i);
    }
  }

  lemma NotCalling(s: State, id: SubId)
    ensures OpAt(s).Some? ==> !Calls(s, id) && !Refuses(s, id)
  {
  }

  /** An observer that is active and in place is called after every `notify` of its entity. */
  lemma ObserversAreCalled(states: seq<State>, p: nat, i: nat, id: SubId, e: Entity, t: TypeId)
    requires IsRun(states) && p < i < |states| && states[i].stack == []
    requires OpAt(states[p]) == Some(Notify(e)) && Lasts(states[p], id, ObserversOf(e), t, true)
    requires e !in states[i].released && forall k | p < k < i :: OpAt(states[k]) != Some(Unsubscribe(id))
    ensures exists k :: p < k < i && Calls(states[k], id)
  {
    hide IsRun, Lasts, Calls;
    AnnouncedIsDelivered(states, p, i, id, NotifyEffect(e), ObserversOf(e), t);
  }

  /** The same for globals. */
  lemma GlobalObserversAreCalled(states: seq<State>, p: nat, i: nat, id: SubId, g: TypeId, t: TypeId)
    requires IsRun(states) && p < i < |states| && states[i].stack == []
    requires OpAt(states[p]) == Some(NotifyGlobal(g)) && Lasts(states[p], id, GlobalObservers(g), t, true)
    requires forall k | p < k < i :: OpAt(states[k]) != Some(Unsubscribe(id))
    ensures exists k :: p < k < i && Calls(states[k], id)
  {
    hide IsRun, Lasts, Calls;
    AnnouncedIsDelivered(states, p, i, id, NotifyGlobalEffect(g), GlobalObservers(g), t);
  }

  // ---- From the registration on ----

  lemma {:induction false} LastsInRun(
    states: seq<State>, i: nat, j: nat, id: SubId, key: SetKey, t: TypeId, active: bool)
    requires IsRun(states) && 0 < i <= j < |states| && Undisturbed(states, i - 1, j, id)
    requires Lasts(states[i], id, key, t, active) && !Released(key, states[j].released)
    ensures Lasts(states[j], id, key, t, active)
  {
    hide IsRun, Inv, Step, Begin, Lasts, Refuses, Next, Released;
    if i < j {
      StaysUnreleased(states, j - 1, j, key);
      LastsInRun(states, i, j - 1, id, key, t, active);
      RunStep(states, j - 1);
      if states[j - 1].stack == [] {
        IdleLasts(states[j - 1], states[j], id, key, t, active);
      } else {
        StepLasts(states[j - 1], id, key, t, active);
      }
    }
  }

  lemma IdleLasts(s: State, s': State, id: SubId, key: SetKey, t: TypeId, active: bool)
    requires Lasts(s, id, key, t, active) && exists script :: s' == Begin(s, script)
    ensures Lasts(s', id, key, t, active)
  {
  }

  lemma AddedLasts(s: State, id: SubId, key: SetKey, t: TypeId, responses: seq<Response>)
    requires Inv(s) && s.updates > 0 && Adds(s, id, key, t, responses)
    ensures Lasts(Step(s), id, key, t, false)
  {
    assert SubsOk(s);
    assert s.out.Some? && s.out.value.current.Some? ==> s.out.value.current.value < s.nextId;
    assert id !in s.dropped;
    hide Inv, SubsOk, Step, AddSub;
    StepIsExec(s);
    AddFrame(Shortened(s), Sub(key, t, responses, false));
  }

  /** A subscriber whose registering update has returned is called after everything that is
      announced to its audience, as long as nobody drops its subscription, it returns true
      and its entity lives. */
  lemma RegisteredIsCalled(
    states: seq<State>, a: nat, m: nat, p: nat, i: nat, id: SubId, key: SetKey, t: TypeId,
    responses: seq<Response>, effect: Effect)
    requires IsRun(states) && a < m < p < i < |states| && Adds(states[a], id, key, t, responses)
    requires states[m].stack == [] && states[i].stack == []
    requires Announces(states[p], effect) && AudienceOf(effect) == Some(key)
    requires effect.EmitEffect? ==> effect.eventType == t
    requires Undisturbed(states, a, i, id) && !Released(key, states[i].released)
    ensures exists k :: p < k < i && Calls(states[k], id)
  {
    assert states[a].stack != [];
    hide IsRun, Inv, Step, Adds, Announces, Calls, Released, Refuses, AudienceOf;
    RunStep(states, a);
    AddedLasts(states[a], id, key, t, responses);
    StaysUnreleased(states, m, i, key);
    LastsInRun(states, a + 1, m, id, key, t, false);
    ActiveWhenQuiet(states, a, m, id, key, t, responses);
    StaysUnreleased(states, p, i, key);
    LastsInRun(states, m, p, id, key, t, true);
    AnnouncedIsDelivered(states, p, i, id, effect, key, t);
  }

  // ---- Nobody is called without cause ----

  /** An effect on its way: queued, or being dispatched. */
  ghost predicate OnItsWay(s: State, effect: Effect) {
    effect in s.queue || (s.out.Some? && s.out.value.effect == effect)
  }

  lemma StepCause(s: State, effect: Effect)
    requires s.stack != [] && s.updates > 0 && (s.stack[|s.stack| - 1].Dispatching? ==> s.out.Some?)
    requires AudienceOf(effect).Some? && OnItsWay(Step(s), effect)
    ensures OnItsWay(s, effect) || Announces(s, effect)
  {
    hide Exec, FlushTurn, DispatchTurn;
    match s.stack[|s.stack| - 1] {
      case Run(ops) =>
        if ops != [] {
          StepIsExec(s);
          OpCause(s, effect);
        }
      case Finish =>
      case Flush => FlushCause(s, effect);
      case Dispatching => DispatchCause(s, effect);
    }
  }

  lemma OpCause(s: State, effect: Effect)
    requires OpAt(s).Some? && AudienceOf(effect).Some? && OnItsWay(Exec(Shortened(s), OpAt(s).value), effect)
    ensures OnItsWay(s, effect) || Announces(s, effect)
  {
    match OpAt(s).value {
      case Subscribe(key, t, responses) =>
        hide AddSub;
        AddFrame(Shortened(s), Sub(key, t, responses, false));
      case Unsubscribe(other) =>
        hide DropHandle;
        DropFrame(Shortened(s), other);
        SameEffect(Shortened(s), other);
      case _ => hide WithDue;
    }
  }

  lemma SameEffect(s: State, other: SubId)
    ensures var s' := DropHandle(s, other);
            (s'.out.Some? <==> s.out.Some?) && (s.out.Some? ==> s'.out.value.effect == s.out.value.effect)
  {
    hide HasSubs;
  }

  lemma FlushCause(s: State, effect: Effect)
    requires s.stack != [] && s.updates > 0 && OnItsWay(FlushTurn(s), effect)
    ensures OnItsWay(s, effect)
  {
    hide IdsFor;
    if s.toRelease == [] && s.queue != [] {
      assert s.queue == [s.queue[0]] + s.queue[1..];
    }
  }

  lemma DispatchCause(s: State, effect: Effect)
    requires s.stack != [] && s.out.Some? && OnItsWay(DispatchTurn(s), effect)
    ensures OnItsWay(s, effect)
  {
    hide Wants, Released, WithDelivered;
  }

  /** Whatever is on its way to anybody was announced by an operation before. */
  lemma {:induction false} AnnouncedBefore(states: seq<State>, i: nat, effect: Effect)
    requires IsRun(states) && i < |states| && AudienceOf(effect).Some? && OnItsWay(states[i], effect)
    ensures exists p :: 0 <= p < i && Announces(states[p], effect)
  {
    hide IsRun, Inv, Step, Begin, Announces, AudienceOf, Next;
    if i > 0 {
      RunStep(states, i - 1);
      if states[i - 1].stack == [] {
        IdleCause(states[i - 1], states[i], effect);
      } else {
        StepCause(states[i - 1], effect);
      }
      if !Announces(states[i - 1], effect) {
        AnnouncedBefore(states, i - 1, effect);
      }
    } else {
      StartsIdle(states);
    }
  }

  lemma StartsIdle(states: seq<State>)
    requires IsRun(states)
    ensures states[0] == INITIAL
  {
  }

  lemma IdleCause(s: State, s': State, effect: Effect)
    requires exists script :: s' == Begin(s, script)
    ensures OnItsWay(s', effect) <==> OnItsWay(s, effect)
  {
  }

  /** Only an active subscriber is called, never for a released entity, and only for an effect
      addressed to it that an operation announced before. */
  lemma CalledWithCause(states: seq<State>, i: nat, id: SubId) returns (effect: Effect)
    requires IsRun(states) && i < |states| && Calls(states[i], id)
    ensures Find(states[i], id).Some? && Find(states[i], id).value.active
    ensures exists p :: 0 <= p < i && Announces(states[p], effect)
    ensures match Find(states[i], id).value.key
            case ObserversOf(e) => effect == NotifyEffect(e) && e !in states[i].released
            case ListenersOf(e) =>
              && effect.EmitEffect? && effect.emitter == e && effect.eventType == Find(states[i], id).value.eventType
              && e !in states[i].released
            case GlobalObservers(g) => effect == NotifyGlobalEffect(g)
  {
    hide IsRun;
    RunKeepsInv(states, i);
    assert DispatchOk(states[i], states[i].out.value);
    effect := states[i].out.value.effect;
    hide Inv, DispatchOk, Announces;
    AnnouncedBefore(states, i, effect);
  }

  // ---- Deferred scripts ----

  /** A step starts to run a deferred script. */
  predicate Starts(s: State, s': State, script: seq<Op>) {
    && s.queue != [] && s.queue[0] == DeferEffect(Script(script)) && s'.queue == s.queue[1..]
    && s.stack != [] && s.stack[|s.stack| - 1].Flush? && s'.stack == s.stack + [Run(script)]
  }

  lemma StepDeferred(s: State, script: seq<Op>)
    requires Inv(s) && s.stack != [] && s.updates > 0 && (s.stack[|s.stack| - 1].Dispatching? ==> s.out.Some?)
    requires DeferEffect(Script(script)) in s.queue
    ensures Starts(s, Step(s), script) || DeferEffect(Script(script)) in Step(s).queue
  {
    hide Inv, Exec, DispatchTurn, FlushTurn;
    match s.stack[|s.stack| - 1] {
      case Run(ops) => if ops != [] { OpDeferred(Shortened(s), ops[0], DeferEffect(Script(script))); }
      case Finish =>
      case Flush => FlushDeferred(s, script);
      case Dispatching => DispatchTurnFrame(s);
    }
  }

  lemma OpDeferred(s: State, op: Op, effect: Effect)
    requires effect in s.queue
    ensures effect in Exec(s, op).queue
  {
    OpDue(s, op, 0, effect);
    match op {
      case Subscribe(key, t, responses) =>
        hide AddSub;
        AddFrame(s, Sub(key, t, responses, false));
      case Unsubscribe(other) =>
        hide DropHandle;
        DropFrame(s, other);
      case _ => hide WithDue;
    }
  }

  lemma FlushDeferred(s: State, script: seq<Op>)
    requires s.stack != [] && s.stack[|s.stack| - 1].Flush? && s.updates > 0 && DeferEffect(Script(script)) in s.queue
    ensures Starts(s, FlushTurn(s), script) || DeferEffect(Script(script)) in FlushTurn(s).queue
  {
    hide StartDispatch;
    if s.toRelease == [] {
      assert s.queue == [s.queue[0]] + s.queue[1..];
      var rest := s.(queue := s.queue[1..]);
      match s.queue[0] {
        case NotifyEffect(e) => StartFrame(rest.(notifications := s.notifications - {e}), s.queue[0], ObserversOf(e));
        case EmitEffect(e, _, _) => StartFrame(rest, s.queue[0], ListenersOf(e));
        case NotifyGlobalEffect(g) =>
          StartFrame(rest.(globalNotifications := s.globalNotifications - {g}), s.queue[0], GlobalObservers(g));
        case _ =>
      }
    }
  }

  lemma {:induction false} DeferredUntilStarted(states: seq<State>, i: nat, j: nat, script: seq<Op>)
    requires IsRun(states) && i <= j < |states| && DeferEffect(Script(script)) in states[i].queue
    requires forall k | i <= k < j :: !Starts(states[k], states[k + 1], script)
    ensures DeferEffect(Script(script)) in states[j].queue
  {
    hide IsRun, Inv, Step, Begin, Next, Starts;
    if i < j {
      DeferredUntilStarted(states, i, j - 1, script);
      RunStep(states, j - 1);
      if states[j - 1].stack == [] {
        BeginKeepsQueue(states[j - 1], states[j]);
      } else {
        StepDeferred(states[j - 1], script);
        assert !Starts(states[j - 1], states[j - 1 + 1], script);
      }
    }
  }

  lemma BeginKeepsQueue(s: State, s': State)
    requires exists script :: s' == Begin(s, script)
    ensures s'.queue == s.queue
  {
  }

  /** Every deferred script is started after that and before the outermost update has returned. */
  lemma DeferredIsRun(states: seq<State>, p: nat, i: nat, script: seq<Op>)
    requires IsRun(states) && p < i < |states| && states[i].stack == []
    requires OpAt(states[p]) == Some(Defer(script))
    ensures exists k :: p < k < i && Starts(states[k], states[k + 1], script)
  {
    hide IsRun, Step, Starts, Queued, SubsOk, Ledgers;
    if forall k | p < k < i :: !Starts(states[k], states[k + 1], script) {
      RunStep(states, p);
      AnnouncedIsQueued(states[p], DeferEffect(Script(script)));
      DeferredUntilStarted(states, p + 1, i, script);
      RunKeepsInv(states, i);
    }
  }
}
