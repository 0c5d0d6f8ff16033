/** The application object: the effect cycle carried out on its fields, in place. */
module App {
  import opened Basics
  import opened Effects
  import opened EffectsProof
  import opened EffectRuns
  import opened DropRuns
  import opened ObserverRuns

  class Application {
    var pendingEffects: seq<Effect>
    var pendingNotifications: set<Entity>
    var pendingGlobalNotifications: set<TypeId>
    var pendingUpdates: nat
    var flushingEffects: bool
    var subscribers: map<SubId, Sub>
    var nextSubscriberId: SubId
    /** The subscriptions that client code holds. */
    var subscriptions: map<SubId, SetKey>
    var dispatch: Option<Dispatch>
    var droppedSubscribers: set<SubId>
    var releasedEntities: set<Entity>
    var droppedEntities: seq<Entity>
    /** What remains to be done once the current operation returns. */
    var callStack: seq<Frame>
    ghost var ledger: map<SubId, Ledger>
    /** Every state so far, from the first. */
    ghost var history: seq<State>

    ghost function View(): State
      reads this
    {
      State(pendingEffects, pendingNotifications, pendingGlobalNotifications, pendingUpdates, flushingEffects,
            subscribers, nextSubscriberId, subscriptions, dispatch, droppedSubscribers, releasedEntities,
            droppedEntities, callStack, ledger)
    }

    ghost predicate Valid()
      reads this
    {
      Inv(View())
    }

    /** The history is a run of the machine up to now. */
    ghost predicate Recorded()
      reads this
    {
      IsRun(history) && history[|history| - 1] == View()
    }

    constructor ()
      ensures Valid() && Recorded() && View() == INITIAL
    {
      pendingEffects, pendingNotifications, pendingGlobalNotifications := [], {}, {};
      pendingUpdates, flushingEffects, subscribers, nextSubscriberId := 0, false, map[], 0;
      subscriptions, dispatch, droppedSubscribers, releasedEntities, droppedEntities,
        callStack := map[], None, {}, {}, [], [];
      ledger, history := map[], [INITIAL];
      new;
      InitialInv();
    }

    /** Queues an effect behind all others; a notification already queued is not queued again.
        The pending sets stay exactly the targets of the queued notifications. */
    method QueueEffect(effect: Effect)
      requires Queued(View())
      requires (effect.DeferEffect? && effect.callback.Activate? ==> effect.callback.id < nextSubscriberId)
      modifies this`pendingEffects, this`pendingNotifications, this`pendingGlobalNotifications
      ensures View() == PushEffect(old(View()), effect)
      ensures Queued(View()) && old(pendingEffects) <= pendingEffects
      ensures Coalesces(effect) ==> multiset(pendingEffects)[effect] == 1
      ensures !Coalesces(effect) ==> pendingEffects == old(pendingEffects) + [effect]
    {
      hide Queued;
      PushMeans(View(), effect);
      match effect {
        case NotifyEffect(e) =>
          if e in pendingNotifications { return; }
          pendingNotifications := pendingNotifications + {e};
        case NotifyGlobalEffect(t) =>
          if t in pendingGlobalNotifications { return; }
          pendingGlobalNotifications := pendingGlobalNotifications + {t};
        case _ =>
      }
      pendingEffects := pendingEffects + [effect];
    }

    /** Adds an inert subscriber under a new id.  It is owed nothing yet: whatever is queued
        now comes before its activation. */
    method NewSubscription(key: SetKey, eventType: TypeId, responses: seq<Response>) returns (id: SubId)
      requires Queued(View()) && SubsOk(View())
      modifies this`pendingEffects, this`pendingNotifications, this`pendingGlobalNotifications
      modifies this`subscribers, this`nextSubscriberId, this`subscriptions, this`ledger
      ensures View() == AddSub(old(View()), Sub(key, eventType, responses, false))
      ensures Queued(View()) && SubsOk(View())
      ensures old(Find(View(), id)) == None && Find(View(), id) == Some(Sub(key, eventType, responses, false))
      ensures AfterActivation(key, eventType, pendingEffects, id) == []
    {
      hide Queued, SubsOk, Find, AfterActivation;
      AddMeans(View(), Sub(key, eventType, responses, false));
      id := nextSubscriberId;
      subscribers := subscribers[id := Sub(key, eventType, responses, false)];
      nextSubscriberId := nextSubscriberId + 1;
      subscriptions := subscriptions[id := key];
      if key.ListenersOf? {
        ledger := ledger[id := Ledger(key, eventType, [], [])];
      }
      QueuedFrame(old(View()), View());
      QueueEffect(DeferEffect(Activate(id)));
    }

    /** Drops a subscription.  In the set, the subscriber goes at once; taken out by a dispatch,
        it stays where it is, and the drop is noted unless the emitter's entry was touched.
        No other subscriber is affected. */
    method DropSubscription(id: SubId)
      requires SubsOk(View())
      modifies this`subscribers, this`subscriptions, this`dispatch, this`droppedSubscribers
      ensures View() == DropHandle(old(View()), id)
      ensures SubsOk(View()) && id !in subscriptions
      ensures old(id in subscriptions && id in subscribers) ==> Find(View(), id) == None
      ensures old(id !in subscribers) ==> Find(View(), id) == old(Find(View(), id))
      ensures old(id in subscriptions && dispatch.Some? && id in dispatch.value.held) ==>
                (id in droppedSubscribers <==> old(!Touched(View())))
      ensures forall other | other != id :: Find(View(), other) == old(Find(View(), other))
    {
      hide SubsOk, HasSubs, Find, Touched;
      HandleSubs(View(), id);
      DropMeans(View(), id);
      if id !in subscriptions { return; }
      var key := subscriptions[id];
      subscriptions := subscriptions - {id};
      if HasSubs(subscribers, key) {
        if id in subscribers && subscribers[id].key == key {
          subscribers := subscribers - {id};
          if !HasSubs(subscribers, key) {
            dispatch := Unmarked(dispatch, key);
          }
        }
      } else if Marks(dispatch, key) {
        droppedSubscribers := droppedSubscribers + {id};
      }
    }

    /** A nested or outermost update begins: it is counted, and nothing is flushed yet. */
    method StartUpdate(script: seq<Op>)
      requires Valid() && (callStack != [] ==> callStack[|callStack| - 1].Run?)
      modifies this`pendingUpdates, this`callStack
      ensures Valid() && pendingUpdates == old(pendingUpdates) + 1
      ensures callStack == old(callStack) + [Finish, Run(script)]
    {
      hide Inv;
      if callStack == [] {
        BeginKeepsInv(View(), script);
        assert [] + [Finish, Run(script)] == [Finish, Run(script)];
      } else {
        ExecKeepsInv(View(), Op.Update(script));
      }
      pendingUpdates := pendingUpdates + 1;
      callStack := callStack + [Finish, Run(script)];
    }

    /** One operation of a callback keeps everything in order, wherever the callback runs. */
    method Perform(op: Op)
      requires Valid() && callStack != [] && callStack[|callStack| - 1].Run?
      modifies this
      ensures Valid() && View() == Exec(old(View()), op) && history == old(history)
      ensures flushingEffects == old(flushingEffects) && old(callStack) <= callStack
      ensures old(pendingEffects) <= pendingEffects
    {
      hide Inv, Queued, SubsOk, PushEffect, WithDue, AddSub, DropHandle, Find, Touched, AfterActivation;
      ExecKeepsInv(View(), op);
      InvParts(View());
      ExecMeans(View(), op);
      match op {
        case Update(script) => StartUpdate(script);
        case Subscribe(key, t, responses) => var _ := NewSubscription(key, t, responses);
        case Unsubscribe(id) => DropSubscription(id);
        case Release(e) =>
          releasedEntities := releasedEntities + {e};
          droppedEntities := droppedEntities + [e];
        case _ => Announce(op);
      }
    }

    /** The operations that only queue an effect. */
    method Announce(op: Op)
      requires Queued(View()) && (op.Notify? || op.NotifyGlobal? || op.Emit? || op.RefreshWindows? || op.Defer?)
      modifies this`pendingEffects, this`pendingNotifications, this`pendingGlobalNotifications, this`ledger
      ensures View() == Exec(old(View()), op)
    {
      hide Queued, PushEffect, WithDue, Coalesces;
      match op {
        case Notify(e) => QueueEffect(NotifyEffect(e));
        case NotifyGlobal(t) => QueueEffect(NotifyGlobalEffect(t));
        case Emit(e, t, event) =>
          ledger := WithDue(ledger, e, t, event);
          QueuedFrame(old(View()), View());
          QueueEffect(EmitEffect(e, t, event));
        case RefreshWindows => QueueEffect(RefreshEffect);
        case Defer(script) => QueueEffect(DeferEffect(Script(script)));
      }
    }

    /** An update ends: if it is the outermost one the flush begins, and otherwise it is only
        counted off. */
    method EndUpdate()
      requires Valid() && callStack != [] && callStack[|callStack| - 1] == Finish
      modifies this`flushingEffects, this`pendingUpdates, this`callStack
      ensures Valid() && View() == FinishUpdate(old(View()))
      ensures if |old(callStack)| == 1 then flushingEffects && callStack == [Flush] && pendingUpdates == 1
              else flushingEffects == old(flushingEffects) && pendingUpdates == old(pendingUpdates) - 1 > 0
    {
      hide Inv, Control, Exec, FlushTurn, DispatchTurn;
      StepKeepsInv(View());
      InvParts(View());
      OutermostUpdate(View());
      callStack := callStack[..|callStack| - 1];
      if !flushingEffects && pendingUpdates == 1 {
        flushingEffects := true;
        callStack := callStack + [Flush];
      } else {
        pendingUpdates := pendingUpdates - 1;
      }
    }

    /** Takes an emitter's subscribers out of the set and starts calling them, oldest first.
        Nobody is lost on the way. */
    method BeginRetain(effect: Effect, key: SetKey)
      requires SubsOk(View()) && dispatch == None
      modifies this`subscribers, this`dispatch, this`callStack
      ensures View() == StartDispatch(old(View()), effect, key)
      ensures TakesOut(old(View()), View(), key)
    {
      hide SubsOk, TakesOut, IdsFor;
      StartMeans(View(), effect, key);
      var ids := CollectIds(key);
      if ids == [] { return; }
      var held := map i | i in subscribers && subscribers[i].key == key :: subscribers[i];
      subscribers := map i | i in subscribers && subscribers[i].key != key :: subscribers[i];
      dispatch := Some(Dispatch(effect, key, held, ids, None, true));
      callStack := callStack + [Dispatching];
    }

    method CollectIds(key: SetKey) returns (ids: seq<SubId>)
      ensures ids == IdsFor(subscribers, key, nextSubscriberId)
      ensures forall i :: i in ids <==> i in subscribers && subscribers[i].key == key && i < nextSubscriberId
    {
      ids := [];
      for i := 0 to nextSubscriberId
        invariant ids == IdsFor(subscribers, key, i)
      {
        if i in subscribers && subscribers[i].key == key {
          ids := ids + [i];
        }
      }
      IdsForMembers(subscribers, key, nextSubscriberId);
    }

    /** One turn of the flush loop: releases come first, then effects in the order in which
        they were queued; the loop is left exactly when there is neither. */
    method FlushOnce()
      requires Valid() && callStack != [] && callStack[|callStack| - 1] == Flush
      modifies this
      ensures Valid() && View() == FlushTurn(old(View())) && history == old(history)
      ensures callStack == [] <==> old(droppedEntities) == [] && old(pendingEffects) == []
      ensures pendingEffects ==
              if old(droppedEntities) == [] && old(pendingEffects) != []
                then old(pendingEffects)[1..] else old(pendingEffects)
      ensures droppedEntities == if old(droppedEntities) != [] then old(droppedEntities)[1..] else []
    {
      hide Inv, SubsOk, Queued, Exec, FlushTurn, DispatchTurn;
      StepKeepsInv(View());
      FlushParts(View());
      if droppedEntities != [] {
        ReleaseNext();
      } else if pendingEffects == [] {
        LeaveFlush();
      } else {
        ApplyEffect();
      }
    }

    /** Forgets the subscribers of the next released entity. */
    method ReleaseNext()
      requires callStack != [] && pendingUpdates > 0 && droppedEntities != []
      modifies this`droppedEntities, this`subscribers
      ensures View() == FlushTurn(old(View())) && droppedEntities == old(droppedEntities)[1..]
      ensures forall i | i in subscribers :: !OwnedBy(subscribers[i].key, old(droppedEntities)[0])
    {
      var e := droppedEntities[0];
      droppedEntities := droppedEntities[1..];
      subscribers := map i | i in subscribers && !OwnedBy(subscribers[i].key, e) :: subscribers[i];
    }

    /** Nothing is left to flush: the outermost update is over. */
    method LeaveFlush()
      requires callStack != [] && pendingUpdates > 0 && droppedEntities == [] && pendingEffects == []
      modifies this`flushingEffects, this`pendingUpdates, this`callStack
      ensures View() == FlushTurn(old(View()))
      ensures !flushingEffects && callStack == old(callStack)[..|old(callStack)| - 1]
    {
      flushingEffects := false;
      pendingUpdates := pendingUpdates - 1;
      callStack := callStack[..|callStack| - 1];
    }

    /** Takes the first effect off the queue and applies it.  A notification may be queued again
        from now on; an activated subscriber hears from the next effect on. */
    method ApplyEffect()
      requires Queued(View()) && SubsOk(View()) && dispatch == None
      requires callStack != [] && pendingUpdates > 0 && droppedEntities == [] && pendingEffects != []
      modifies this`pendingEffects, this`pendingNotifications, this`pendingGlobalNotifications
      modifies this`subscribers, this`dispatch, this`callStack
      ensures View() == FlushTurn(old(View())) && Queued(View())
      ensures pendingEffects == old(pendingEffects)[1..] && old(callStack) <= callStack != []
      ensures match old(pendingEffects)[0]
              case NotifyEffect(e) => e !in pendingNotifications && TakesOut(old(View()), View(), ObserversOf(e))
              case NotifyGlobalEffect(t) =>
                t !in pendingGlobalNotifications && TakesOut(old(View()), View(), GlobalObservers(t))
              case EmitEffect(e, _, _) => TakesOut(old(View()), View(), ListenersOf(e))
              case DeferEffect(Script(script)) => callStack == old(callStack) + [Run(script)] && dispatch == None
              case DeferEffect(Activate(id)) => id in subscribers ==> subscribers[id].active
              case RefreshEffect => subscribers == old(subscribers) && dispatch == None
    {
      hide StartDispatch, Queued, SubsOk, TakesOut;
      FlushQueued(View());
      ApplyMeans(View());
      var effect := pendingEffects[0];
      pendingEffects := pendingEffects[1..];
      match effect {
        case NotifyEffect(e) =>
          pendingNotifications := pendingNotifications - {e};
          SubsFrame(old(View()), View());
          BeginRetain(effect, ObserversOf(e));
        case EmitEffect(e, _, _) =>
          SubsFrame(old(View()), View());
          BeginRetain(effect, ListenersOf(e));
        case RefreshEffect =>
        case NotifyGlobalEffect(t) =>
          pendingGlobalNotifications := pendingGlobalNotifications - {t};
          SubsFrame(old(View()), View());
          BeginRetain(effect, GlobalObservers(t));
        case DeferEffect(Script(script)) => callStack := callStack + [Run(script)];
        case DeferEffect(Activate(id)) =>
          if id in subscribers {
            subscribers := subscribers[id := subscribers[id].(active := true)];
          }
      }
    }

    /** One turn of `retain`: a callback returned, the next subscriber has its turn, or the
        survivors go back.  When they do, exactly the noted drops are missing. */
    method RetainOnce()
      requires Valid() && callStack != [] && callStack[|callStack| - 1] == Dispatching
      modifies this
      ensures Valid() && View() == DispatchTurn(old(View())) && history == old(history)
      ensures Turned(old(View()), View())
    {
      hide Inv, Turned, Exec, FlushTurn, Settle, EndDispatch, Visit;
      StepKeepsInv(View());
      TurnMeans(View());
      if dispatch.value.current.Some? {
        SettleCurrent();
      } else if dispatch.value.rest == [] {
        PutBack();
      } else {
        VisitNext();
      }
    }

    /** The callback returned: its subscriber goes back among the others, or goes. */
    method SettleCurrent()
      requires dispatch.Some? && dispatch.value.current.Some?
      modifies this`dispatch
      ensures View() == Settle(old(View()), old(dispatch.value))
    {
      var d, i := dispatch.value, dispatch.value.current.value;
      if i in d.held && d.held[i].Next().keep {
        d := d.(held := d.held[i := d.held[i].Called()]);
      } else {
        d := d.(held := d.held - {i});
      }
      dispatch := Some(d.(current := None));
    }

    /** The survivors go back into the set. */
    method PutBack()
      requires dispatch.Some? && callStack != []
      modifies this`subscribers, this`droppedSubscribers, this`dispatch, this`callStack
      ensures View() == EndDispatch(old(View()), old(dispatch.value))
    {
      subscribers := (subscribers + dispatch.value.held) - droppedSubscribers;
      droppedSubscribers := {};
      dispatch := None;
      callStack := callStack[..|callStack| - 1];
    }

    /** The next subscriber is called, skipped or let go. */
    method VisitNext()
      requires dispatch.Some? && dispatch.value.rest != []
      modifies this`dispatch, this`callStack, this`ledger
      ensures View() == Visit(old(View()), old(dispatch.value))
    {
      hide Wants, Released, WithDelivered;
      var d, i := dispatch.value, dispatch.value.rest[0];
      d := d.(rest := d.rest[1..]);
      if i in d.held && Wants(d.held[i], d.effect) {
        if Released(d.key, releasedEntities) {
          d := d.(held := d.held - {i});
        } else {
          d := d.(current := Some(i));
          callStack := callStack + [Run(d.held[i].Next().script)];
          ledger := WithDelivered(ledger, i, d.effect);
        }
      }
      dispatch := Some(d);
    }

    /** One step of whatever runs: a step of the machine, which keeps its invariant. */
    method StepOnce()
      requires Valid() && Recorded() && callStack != []
      modifies this
      ensures Valid() && Recorded() && history == old(history) + [View()]
    {
      hide Inv, IsRun, Exec, FinishUpdate, FlushTurn, DispatchTurn, Turned;
      StepKeepsInv(View());
      match callStack[|callStack| - 1] {
        case Run(ops) =>
          ShortenKeepsInv(View());
          callStack := callStack[..|callStack| - 1];
          if ops != [] {
            callStack := callStack + [Run(ops[1..])];
            Perform(ops[0]);
          }
        case Finish => EndUpdate();
        case Flush => FlushOnce();
        case Dispatching => RetainOnce();
      }
      RunGrows(history, View());
      history := history + [View()];
    }

    /** A call of `update` from outside, followed for at most `limit` steps.  If it returns by
        then, the application is quiet, and over everything that ever happened to it each
        listener that is in place has been called with exactly its events, each observer that
        was in place at a notification has been called after it, and each deferred script ran. */
    method Update(script: seq<Op>, limit: nat) returns (returned: bool)
      requires Valid() && Recorded() && callStack == []
      modifies this
      ensures Valid() && Recorded() && old(history) < history && (returned <==> callStack == [])
      ensures history[|old(history)|] == Begin(old(View()), script)
      ensures returned ==> pendingEffects == [] && pendingNotifications == {} && pendingGlobalNotifications == {}
      ensures returned ==> pendingUpdates == 0 && !flushingEffects
      ensures returned ==> AllDelivered(history) && AllNotified(history) && AllDeferred(history)
    {
      hide Inv, IsRun, AllDelivered, AllNotified, AllDeferred, Steady, Step;
      StartUpdate(script);
      assert View() == Begin(old(View()), script) by { assert [] + [Finish, Run(script)] == [Finish, Run(script)]; }
      RunGrows(history, View());
      history := history + [View()];
      ghost var begun := history;
      var steps := 0;
      while callStack != [] && steps < limit
        invariant Valid() && Recorded() && begun <= history
        decreases limit - steps
      {
        StepOnce();
        steps := steps + 1;
      }
      returned := callStack == [];
      if returned {
        QuietState(View());
        EverythingDelivered(history);
        EverybodyNotified(history);
        EverythingDeferred(history);
      }
    }
  }

  lemma RunGrows(states: seq<State>, s: State)
    requires IsRun(states) && Next(states[|states| - 1], s)
    ensures IsRun(states + [s])
  {
    hide Step, Begin;
    var more := states + [s];
    assert forall i :: 0 < i < |states| ==> Next(states[i - 1], states[i]);
    forall i | 0 < i < |more| ensures Next(more[i - 1], more[i]) {}
  }

  /** Every listener that nobody unsubscribed, that returned true and whose entity lives has
      been called with exactly the events emitted for it since it was registered. */
  ghost predicate AllDelivered(states: seq<State>)
    requires states != []
  {
    var n := |states| - 1;
    forall a: nat, id, e, t | a < n && Registers(states[a], id, e, t) && Undisturbed(states, a, n, id) &&
      e !in states[n].released :: Received(states, id, a + 1, n) == Emitted(states, e, t, a + 1, n)
  }

  lemma EverythingDelivered(states: seq<State>)
    requires IsRun(states) && states[|states| - 1].stack == []
    ensures AllDelivered(states)
  {
    hide IsRun, Registers, Undisturbed, Received, Emitted;
    var n := |states| - 1;
    forall a: nat, id, e, t | a < n && Registers(states[a], id, e, t) && Undisturbed(states, a, n, id) &&
      e !in states[n].released ensures Received(states, id, a + 1, n) == Emitted(states, e, t, a + 1, n)
    {
      ListenersGetTheirEvents(states, a, n, id, e, t);
    }
  }

  /** The subscriber is called between two states. */
  ghost predicate CalledIn(states: seq<State>, p: nat, n: nat, id: SubId)
    requires n <= |states|
  {
    exists k :: p < k < n && Calls(states[k], id)
  }

  ghost predicate Undropped(states: seq<State>, p: nat, n: nat, id: SubId)
    requires n <= |states|
  {
    forall k | p < k < n :: OpAt(states[k]) != Some(Unsubscribe(id))
  }

  /** Every observer in place at a notification, of an entity or of a global, was called after
      it, unless its subscription was dropped or the entity released since. */
  ghost predicate AllNotified(states: seq<State>)
    requires states != []
  {
    var n := |states| - 1;
    && (forall p: nat, id, e, t | p < n && Lasts(states[p], id, ObserversOf(e), t, true) ::
          OpAt(states[p]) == Some(Notify(e)) && e !in states[n].released && Undropped(states, p, n, id) ==>
            CalledIn(states, p, n, id))
    && (forall p: nat, id, g, t | p < n && Lasts(states[p], id, GlobalObservers(g), t, true) ::
          OpAt(states[p]) == Some(NotifyGlobal(g)) && Undropped(states, p, n, id) ==> CalledIn(states, p, n, id))
  }

  lemma EverybodyNotified(states: seq<State>)
    requires IsRun(states) && states[|states| - 1].stack == []
    ensures AllNotified(states)
  {
    hide IsRun, Lasts, Calls;
    var n := |states| - 1;
    forall p: nat, id, e, t | p < n && Lasts(states[p], id, ObserversOf(e), t, true)
      ensures OpAt(states[p]) == Some(Notify(e)) && e !in states[n].released && Undropped(states, p, n, id) ==>
                CalledIn(states, p, n, id)
    {
      if OpAt(states[p]) == Some(Notify(e)) && e !in states[n].released && Undropped(states, p, n, id) {
        ObserversAreCalled(states, p, n, id, e, t);
      }
    }
    forall p: nat, id, g, t | p < n && Lasts(states[p], id, GlobalObservers(g), t, true)
      ensures OpAt(states[p]) == Some(NotifyGlobal(g)) && Undropped(states, p, n, id) ==> CalledIn(states, p, n, id)
    {
      if OpAt(states[p]) == Some(NotifyGlobal(g)) && Undropped(states, p, n, id) {
        GlobalObserversAreCalled(states, p, n, id, g, t);
      }
    }
  }

  ghost predicate StartedIn(states: seq<State>, p: nat, n: nat, script: seq<Op>)
    requires n < |states|
  {
    exists k :: p < k < n && Starts(states[k], states[k + 1], script)
  }

  /** Every deferred script was started after it was deferred. */
  ghost predicate AllDeferred(states: seq<State>)
    requires states != []
  {
    var n := |states| - 1;
    forall p: nat | p < n && OpAt(states[p]).Some? && OpAt(states[p]).value.Defer? ::
      StartedIn(states, p, n, OpAt(states[p]).value.script)
  }

  lemma EverythingDeferred(states: seq<State>)
    requires IsRun(states) && states[|states| - 1].stack == []
    ensures AllDeferred(states)
  {
    hide IsRun, Starts;
    var n := |states| - 1;
    forall p: nat | p < n && OpAt(states[p]).Some? && OpAt(states[p]).value.Defer?
      ensures StartedIn(states, p, n, OpAt(states[p]).value.script)
    {
      DeferredIsRun(states, p, n, OpAt(states[p]).value.script);
    }
  }

  // ---- What the operations mean ----

  lemma {:induction false} OccursOnce(queue: seq<Effect>, effect: Effect)
    requires effect in queue && forall i, j :: 0 <= i < j < |queue| && queue[i] == effect ==> queue[j] != effect
    ensures multiset(queue)[effect] == 1
  {
    var rest := queue[1..];
    assert queue == [queue[0]] + rest;
    if queue[0] == effect {
      assert effect !in rest;
    } else {
      OccursOnce(rest, effect);
    }
  }

  lemma QueuedOnce(s: State, effect: Effect)
    requires Queued(s) && Coalesces(effect) && effect in s.queue
    ensures multiset(s.queue)[effect] == 1
  {
    OccursOnce(s.queue, effect);
  }

  lemma InvParts(s: State)
    requires Inv(s)
    ensures Control(s) && Queued(s) && SubsOk(s)
  {
  }

  lemma FlushParts(s: State)
    requires Inv(s) && s.stack != [] && s.stack[|s.stack| - 1] == Flush
    ensures s.stack == [Flush] && s.out == None && Queued(s) && SubsOk(s)
  {
  }

  lemma PushMeans(s: State, effect: Effect)
    requires Queued(s) && (effect.DeferEffect? && effect.callback.Activate? ==> effect.callback.id < s.nextId)
    ensures var s' := PushEffect(s, effect);
            && Queued(s') && s.queue <= s'.queue
            && if Coalesces(effect) then multiset(s'.queue)[effect] == 1 else s'.queue == s.queue + [effect]
  {
    PushQueued(s, effect);
    if Coalesces(effect) {
      QueuedOnce(PushEffect(s, effect), effect);
    }
  }

  lemma AddMeans(s: State, sub: Sub)
    requires Queued(s) && SubsOk(s) && !sub.active
    ensures var s' := AddSub(s, sub);
            && SubsOk(s') && Find(s, s.nextId) == None && Find(s', s.nextId) == Some(sub)
            && AfterActivation(sub.key, sub.eventType, s'.queue, s.nextId) == []
  {
    AddSubs(s, sub);
    NoEarlyActivation(s);
    AddFrame(s, sub);
    AfterActivationSnoc(sub.key, sub.eventType, s.queue, s.nextId, DeferEffect(Activate(s.nextId)));
    hide AddSub, Queued;
  }

  /** A dispatch begins if there is a subscriber; it is to visit exactly the emitter's, in the
      order of their ids, and every subscriber is still to be found. */
  ghost predicate TakesOut(s: State, s': State, key: SetKey) {
    && (s'.out.Some? <==> exists i | i in s.subs :: s.subs[i].key == key)
    && (s'.out.Some? ==>
          && (forall i :: i in s'.out.value.rest <==> i in s.subs && s.subs[i].key == key)
          && (forall i, j :: 0 <= i < j < |s'.out.value.rest| ==> s'.out.value.rest[i] < s'.out.value.rest[j]))
    && (forall i :: Find(s', i) == Find(s, i))
  }

  lemma StartMeans(s: State, effect: Effect, key: SetKey)
    requires SubsOk(s) && s.out == None
    ensures TakesOut(s, StartDispatch(s, effect, key), key)
  {
    IdsForMembers(s.subs, key, s.nextId);
    var ids := IdsFor(s.subs, key, s.nextId);
    assert ids != [] ==> ids[0] in ids;
    forall i ensures Find(StartDispatch(s, effect, key), i) == Find(s, i) {
      StartFinds(s, effect, key, i);
    }
  }

  /** An operation leaves the flush flag alone and only adds to the stack and to the queue. */
  lemma ExecMeans(s: State, op: Op)
    ensures var s' := Exec(s, op); s'.flushing == s.flushing && s.stack <= s'.stack && s.queue <= s'.queue
  {
    hide DropHandle;
    if op.Unsubscribe? {
      DropFrame(s, op.id);
    }
  }

  lemma ApplyMeans(s: State)
    requires SubsOk(s) && s.stack != [] && s.updates > 0 && s.toRelease == [] && s.queue != [] && s.out == None
    ensures var s' := FlushTurn(s);
            && s'.queue == s.queue[1..] && s.stack <= s'.stack && s'.toRelease == []
            && match s.queue[0]
               case NotifyEffect(e) => e !in s'.notifications && TakesOut(s, s', ObserversOf(e))
               case NotifyGlobalEffect(t) => t !in s'.globalNotifications && TakesOut(s, s', GlobalObservers(t))
               case EmitEffect(e, _, _) => TakesOut(s, s', ListenersOf(e))
               case DeferEffect(Script(script)) => s'.stack == s.stack + [Run(script)] && s'.out == None
               case DeferEffect(Activate(id)) => id in s'.subs ==> s'.subs[id].active
               case RefreshEffect => s'.subs == s.subs && s'.out == None
  {
    hide StartDispatch, SubsOk, TakesOut;
    var rest := s.(queue := s.queue[1..]);
    match s.queue[0] {
      case NotifyEffect(e) => BeginMeans(s, rest.(notifications := s.notifications - {e}), ObserversOf(e));
      case EmitEffect(e, _, _) => BeginMeans(s, rest, ListenersOf(e));
      case NotifyGlobalEffect(t) =>
        BeginMeans(s, rest.(globalNotifications := s.globalNotifications - {t}), GlobalObservers(t));
      case _ =>
    }
  }

  /** Taking an effect off the queue leaves the subscribers to be taken out where they are. */
  lemma BeginMeans(s: State, rest: State, key: SetKey)
    requires SubsOk(s) && s.out == None && s.queue != []
    requires rest == s.(queue := rest.queue, notifications := rest.notifications,
                        globalNotifications := rest.globalNotifications)
    ensures var s' := StartDispatch(rest, s.queue[0], key);
            && s' == rest.(subs := s'.subs, out := s'.out, stack := s'.stack) && s.stack <= s'.stack
            && TakesOut(s, s', key)
  {
    hide SubsOk, StartDispatch;
    SubsFrame(s, rest);
    StartFrame(rest, s.queue[0], key);
    StartMeans(rest, s.queue[0], key);
    forall i ensures Find(rest, i) == Find(s, i) {}
  }

  lemma ExecKeepsInv(s: State, op: Op)
    requires Inv(s) && s.stack != [] && s.stack[|s.stack| - 1].Run?
    ensures Inv(Exec(s, op))
  {
    hide Control, Queued, SubsOk, Ledgers, Exec;
    ExecControl(s, op);
    ExecQueued(s, op);
    ExecSubs(s, op);
    ExecLedgers(s, op);
  }

  /** Taking the next operation off its script, or an empty script off the stack. */
  lemma ShortenKeepsInv(s: State)
    requires Inv(s) && s.stack != [] && s.stack[|s.stack| - 1].Run?
    ensures var ops := s.stack[|s.stack| - 1].ops;
            Inv(s.(stack := if ops == [] then Pop(s.stack) else Pop(s.stack) + [Run(ops[1..])]))
  {
    hide Control, Queued, SubsOk, LedgerOk;
    var ops := s.stack[|s.stack| - 1].ops;
    var s1 := s.(stack := if ops == [] then Pop(s.stack) else Pop(s.stack) + [Run(ops[1..])]);
    ControlRun(s, if ops == [] then [] else ops[1..]);
    QueuedFrame(s, s1);
    SubsFrame(s, s1);
    forall id | Steady(s1, id) ensures LedgerOk(s1, id) { LedgerUntouched(s, s1, id); }
  }

  /** Among the open updates, exactly the outermost one counts alone outside a flush. */
  lemma OutermostUpdate(s: State)
    requires Control(s) && s.stack != [] && s.stack[|s.stack| - 1] == Finish
    ensures !s.flushing && s.updates == 1 <==> |s.stack| == 1
    ensures |s.stack| > 1 ==> s.updates > 1
  {
    OpenAtLeast(s.stack, 0);
    OpenPush(Pop(s.stack), Finish);
    assert s.stack == Pop(s.stack) + [Finish];
    if |s.stack| > 1 {
      OpenAtLeast(Pop(s.stack), 0);
    } else {
      assert Pop(s.stack) == [];
    }
  }

  lemma DropMeans(s: State, id: SubId)
    requires SubsOk(s)
    ensures var s' := DropHandle(s, id);
            && (id in s.handles && id in s.subs ==> Find(s', id) == None)
            && (id !in s.subs ==> Find(s', id) == Find(s, id))
            && (id in s.handles && s.out.Some? && id in s.out.value.held ==> (id in s'.dropped <==> !Touched(s)))
            && (forall other | other != id :: Find(s', other) == Find(s, other))
  {
    if id in s.handles && id in s.subs {
      assert HasSubs(s.subs, s.handles[id]);
    }
  }

  /** The dispatch ends when nobody is left to visit, and then every subscriber is found as
      before but for the noted drops; a turn before that treats each one as `TakenStep` says. */
  ghost predicate Turned(s: State, s': State) {
    && s.out.Some?
    && (s'.out == None <==> s.out.value.current == None && s.out.value.rest == [])
    && (s'.out == None ==> forall i :: Find(s', i) == if i in s.dropped then None else Find(s, i))
    && (s'.out.Some? ==> forall i | i in s.out.value.held :: TakenStep(s, s', i))
  }

  lemma TurnMeans(s: State)
    requires Inv(s) && s.stack != [] && s.stack[|s.stack| - 1] == Dispatching
    ensures s.out.Some? && s.updates > 0
    ensures Turned(s, DispatchTurn(s))
  {
    hide Inv, TakenStep, Settle, Visit, EndDispatch, Find;
    StepKeepsInv(s);
    InvParts(s);
    var s', d := DispatchTurn(s), s.out.value;
    if d.current == None && d.rest == [] {
      EndMeans(s, d);
    } else {
      TurnGoesOn(s);
      forall i | i in d.held ensures TakenStep(s, s', i) { TakenInDispatch(s, i); }
    }
  }

  lemma TurnGoesOn(s: State)
    requires s.stack != [] && s.out.Some? && (s.out.value.current.Some? || s.out.value.rest != [])
    ensures DispatchTurn(s).out.Some?
  {
    hide Wants, Released;
  }

  lemma EndMeans(s: State, d: Dispatch)
    requires SubsOk(s) && s.out == Some(d) && s.stack != []
    ensures EndDispatch(s, d).out == None
    ensures forall i :: Find(EndDispatch(s, d), i) == if i in s.dropped then None else Find(s, i)
  {
  }
}
