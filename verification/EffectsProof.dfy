/** Every run of the effect cycle keeps its invariant, and what follows for finished updates. */
module EffectsProof {
  import opened Basics
  import opened Effects

  // ---- Control ----

  lemma OpenPush(stack: seq<Frame>, f: Frame)
    ensures OpenUpdates(stack + [f]) == OpenUpdates(stack) + if f in {Finish, Flush} then 1 else 0
  {
    assert Pop(stack + [f]) == stack;
  }

  lemma {:induction false} OpenAtLeast(stack: seq<Frame>, i: nat)
    requires i < |stack| && stack[i] in {Finish, Flush}
    ensures OpenUpdates(stack) >= 1
    ensures OpenUpdates(stack) == 1 && stack[|stack| - 1] in {Finish, Flush} ==> i == |stack| - 1
    decreases |stack|
  {
    if i < |stack| - 1 {
      OpenAtLeast(Pop(stack), i);
    }
  }

  /** While something runs, the next step is defined: an update is open, and a dispatch on top
      has its subscribers at hand. */
  lemma StepEnabled(s: State)
    requires Control(s) && s.stack != []
    ensures s.updates > 0 && (s.stack[|s.stack| - 1].Dispatching? ==> s.out.Some?)
  {
    OpenAtLeast(s.stack, 0);
  }

  /** The control part of a step that only exchanges the top frame for others that are neither
      `Finish`, `Flush` nor `Dispatching`. */
  lemma ControlRun(s: State, ops: seq<Op>)
    requires Control(s) && s.stack != [] && s.stack[|s.stack| - 1].Run?
    ensures var s' := s.(stack := Pop(s.stack) + [Run(ops)]); Control(s')
    ensures |s.stack| > 1
    ensures var s' := s.(stack := Pop(s.stack)); Control(s')
  {
    OpenPush(Pop(s.stack), Run(ops));
  }

  lemma ControlFrame(s: State, s': State)
    requires Control(s) && s.stack != [] && s'.stack == s.stack && s'.updates == s.updates && s'.flushing == s.flushing
    requires s'.out.Some? <==> s.out.Some?
    ensures Control(s')
  {
  }

  lemma ExecControl(s: State, op: Op)
    requires Control(s) && s.stack != [] && s.stack[|s.stack| - 1].Run?
    ensures Control(Exec(s, op))
  {
    if op.Update? {
      OpenPush(s.stack, Finish);
      OpenPush(s.stack + [Finish], Run(op.script));
      assert s.stack + [Finish, Run(op.script)] == s.stack + [Finish] + [Run(op.script)];
    } else {
      hide Control, Exec;
      ExecFrame(s, op);
      ControlFrame(s, Exec(s, op));
    }
  }

  lemma ExecFrame(s: State, op: Op)
    requires !op.Update?
    ensures var s' := Exec(s, op);
            s'.stack == s.stack && s'.updates == s.updates && s'.flushing == s.flushing &&
              (s'.out.Some? <==> s.out.Some?)
  {
    hide WithDue, HasSubs;
  }

  lemma FinishControl(s: State)
    requires Control(s) && s.stack != [] && s.stack[|s.stack| - 1] == Finish && s.updates > 0
    ensures Control(FinishUpdate(s))
  {
    OpenPush(Pop(s.stack), Flush);
    OpenAtLeast(s.stack, 0);
  }

  lemma StepControl(s: State)
    requires Control(s) && s.stack != [] && s.updates > 0 && (s.stack[|s.stack| - 1].Dispatching? ==> s.out.Some?)
    ensures Control(Step(s))
  {
    match s.stack[|s.stack| - 1] {
      case Run(ops) =>
        hide Control, Exec;
        if ops == [] {
          ControlRun(s, []);
        } else {
          ControlRun(s, ops[1..]);
          ExecControl(s.(stack := Pop(s.stack) + [Run(ops[1..])]), ops[0]);
        }
      case Finish =>
        hide Control, FinishUpdate;
        FinishControl(s);
      case Flush =>
        assert |s.stack| == 1;
        hide Control, FlushTurn;
        FlushControl(s);
      case Dispatching =>
        hide Control, DispatchTurn;
        DispatchControl(s);
    }
  }

  /** Only the flush loop is open, with at most one frame on it. */
  lemma ControlOnFlush(s: State, top: seq<Frame>)
    requires s.stack == [Flush] + top && |top| <= 1 && (top != [] ==> top[0].Run? || top[0].Dispatching?)
    requires s.updates == 1 && s.flushing && (s.out.Some? <==> top == [Dispatching])
    ensures Control(s)
  {
    OpenPush([], Flush);
    assert [] + [Flush] == [Flush];
    if top == [] {
      assert s.stack == [Flush];
    } else {
      OpenPush([Flush], top[0]);
      assert s.stack == [Flush] + [top[0]];
    }
  }

  lemma FlushControl(s: State)
    requires Control(s) && s.stack == [Flush] && s.updates > 0
    ensures Control(FlushTurn(s))
  {
    OpenPush([], Flush);
    assert [] + [Flush] == [Flush] && s.updates == 1 && s.out == None && s.flushing;
    hide Control, StartDispatch;
    if s.toRelease == [] && s.queue == [] {
      NothingOpen(FlushTurn(s));
    } else if s.toRelease != [] {
      ControlOnFlush(FlushTurn(s), []);
    } else {
      var rest := s.(queue := s.queue[1..]);
      match s.queue[0] {
        case NotifyEffect(e) =>
          StartControl(rest.(notifications := s.notifications - {e}), s.queue[0], ObserversOf(e));
        case EmitEffect(e, _, _) => StartControl(rest, s.queue[0], ListenersOf(e));
        case NotifyGlobalEffect(t) =>
          StartControl(rest.(globalNotifications := s.globalNotifications - {t}), s.queue[0], GlobalObservers(t));
        case DeferEffect(Script(script)) => ControlOnFlush(FlushTurn(s), [Run(script)]);
        case _ => ControlOnFlush(FlushTurn(s), []);
      }
    }
  }

  lemma NothingOpen(s: State)
    requires s.stack == [] && s.updates == 0 && !s.flushing && s.out == None && s.queue == [] && s.toRelease == []
    ensures Control(s)
  {
  }

  lemma StartControl(s: State, effect: Effect, key: SetKey)
    requires s.stack == [Flush] && s.updates == 1 && s.flushing && s.out == None
    ensures Control(StartDispatch(s, effect, key))
  {
    hide Control;
    var s' := StartDispatch(s, effect, key);
    ControlOnFlush(s', if s'.out.Some? then [Dispatching] else []);
  }

  lemma DispatchControl(s: State)
    requires Control(s) && s.stack != [] && s.stack[|s.stack| - 1].Dispatching? && s.out.Some?
    ensures Control(DispatchTurn(s))
  {
    assert s.stack == [Flush, Dispatching] && s.updates == 1 && s.flushing by {
      OpenPush([], Flush);
      OpenPush([Flush], Dispatching);
      assert [] + [Flush] == [Flush] && [Flush] + [Dispatching] == [Flush, Dispatching];
    }
    hide Control;
    var d, s' := s.out.value, DispatchTurn(s);
    if d.current.Some? {
      ControlFrame(s, s');
    } else if d.rest == [] {
      ControlOnFlush(s', []);
    } else {
      hide Visit;
      VisitFrame(s, d);
      if Callable(s, d) {
        CallControl(s, s', Run(d.held[d.rest[0]].Next().script));
      } else {
        ControlFrame(s, s');
      }
    }
  }

  lemma CallControl(s: State, s': State, callback: Frame)
    requires Control(s) && s.stack == [Flush, Dispatching] && callback.Run? && s'.stack == s.stack + [callback]
    requires s'.updates == s.updates && s'.flushing == s.flushing && s'.out.Some?
    ensures Control(s')
  {
    OpenPush(s.stack, callback);
  }

  /** A visit calls the next subscriber and makes it current; or skips it, or lets it go. */
  lemma VisitFrame(s: State, d: Dispatch)
    requires d.rest != []
    ensures var s', next := Visit(s, d), d.(rest := d.rest[1..]);
            && (Callable(s, d) ==>
                  && s' == s.(out := s'.out, stack := s.stack + [Run(d.held[d.rest[0]].Next().script)],
                              ledger := WithDelivered(s.ledger, d.rest[0], d.effect))
                  && s'.out == Some(next.(current := Some(d.rest[0]))))
            && (!Callable(s, d) ==>
                  && s' == s.(out := s'.out)
                  && s'.out == Some(if LetGo(s, d) then next.(held := d.held - {d.rest[0]}) else next))
            && s'.ledger.Keys == s.ledger.Keys
  {
    hide Wants, Released;
  }

  /** Operations other than subscribing and dropping leave the subscribers alone. */
  lemma PlainOpFrame(s: State, op: Op)
    requires !op.Subscribe? && !op.Unsubscribe?
    ensures var s' := Exec(s, op);
            && s'.subs == s.subs && s'.nextId == s.nextId && s'.handles == s.handles
            && s'.out == s.out && s'.dropped == s.dropped && s.released <= s'.released
  {
    hide WithDue;
  }

  /** Dropping a subscription changes subscribers only. */
  lemma DropFrame(s: State, id: SubId)
    ensures var s' := DropHandle(s, id);
            s' == s.(subs := s'.subs, handles := s'.handles, out := s'.out, dropped := s'.dropped)
  {
    hide HasSubs;
  }

  /** Subscribing adds one subscriber and queues its activation. */
  lemma AddFrame(s: State, sub: Sub)
    ensures var s' := AddSub(s, sub);
            && s' == s.(subs := s.subs[s.nextId := sub.(active := false)], handles := s.handles[s.nextId := sub.key],
                        nextId := s.nextId + 1, ledger := s'.ledger,
                          queue := s.queue + [DeferEffect(Activate(s.nextId))])
            && s'.ledger == if sub.key.ListenersOf? then s.ledger[s.nextId := Ledger(sub.key, sub.eventType, [], [])]
                            else s.ledger
  {
  }

  // ---- The queue ----

  lemma PushQueued(s: State, effect: Effect)
    requires Queued(s)
    requires effect.DeferEffect? && effect.callback.Activate? ==> effect.callback.id < s.nextId
    ensures Queued(PushEffect(s, effect))
  {
  }

  lemma QueuedFrame(s: State, s': State)
    requires Queued(s) && s'.queue == s.queue && s'.notifications == s.notifications
    requires s'.globalNotifications == s.globalNotifications
    requires s.nextId <= s'.nextId
    ensures Queued(s')
  {
  }

  lemma ExecQueued(s: State, op: Op)
    requires Queued(s)
    ensures Queued(Exec(s, op))
  {
    hide Queued;
    match op {
      case Notify(e) => PushQueued(s, NotifyEffect(e));
      case NotifyGlobal(t) => PushQueued(s, NotifyGlobalEffect(t));
      case Emit(e, t, event) =>
        var s1 := s.(ledger := WithDue(s.ledger, e, t, event));
        QueuedFrame(s, s1);
        PushQueued(s1, EmitEffect(e, t, event));
      case RefreshWindows => PushQueued(s, RefreshEffect);
      case Defer(script) => PushQueued(s, DeferEffect(Script(script)));
      case Subscribe(key, t, responses) =>
        var sub := Sub(key, t, responses, false);
        var s1 := s.(subs := s.subs[s.nextId := sub], nextId := s.nextId + 1, handles := s.handles[s.nextId := key],
                     ledger := if key.ListenersOf? then s.ledger[s.nextId := Ledger(key, t, [], [])] else s.ledger);
        QueuedFrame(s, s1);
        PushQueued(s1, DeferEffect(Activate(s.nextId)));
      case _ => QueuedFrame(s, Exec(s, op));
    }
  }

  lemma PopQueued(s: State, s': State)
    requires Queued(s) && s.queue != [] && s'.queue == s.queue[1..] && s'.nextId == s.nextId
    requires s'.notifications ==
             if s.queue[0].NotifyEffect? then s.notifications - {s.queue[0].emitter} else s.notifications
    requires s'.globalNotifications ==
             if s.queue[0].NotifyGlobalEffect?
               then s.globalNotifications - {s.queue[0].globalType} else s.globalNotifications
    ensures Queued(s')
  {
  }

  /** What the turns of a dispatch leave alone. */
  lemma DispatchTurnFrame(s: State)
    requires s.stack != [] && s.out.Some?
    ensures var s' := DispatchTurn(s);
            s' == s.(subs := s'.subs, out := s'.out, dropped := s'.dropped, stack := s'.stack, ledger := s'.ledger)
  {
    hide Wants, Released, WithDelivered, Visit;
    if s.out.value.current == None && s.out.value.rest != [] {
      VisitFrame(s, s.out.value);
    }
  }

  /** What the turns of the flush loop leave alone. */
  lemma FlushTurnFrame(s: State)
    requires s.stack != [] && s.updates > 0
    ensures var s' := FlushTurn(s);
            && s'.nextId == s.nextId && s'.handles == s.handles && s'.released == s.released
            && s'.dropped == s.dropped && s'.ledger == s.ledger
  {
    hide StartDispatch;
    if s.toRelease == [] && s.queue != [] {
      var rest := s.(queue := s.queue[1..]);
      match s.queue[0] {
        case NotifyEffect(e) =>
          StartFrame(rest.(notifications := s.notifications - {e}), s.queue[0], ObserversOf(e));
        case EmitEffect(e, _, _) => StartFrame(rest, s.queue[0], ListenersOf(e));
        case NotifyGlobalEffect(t) =>
          StartFrame(rest.(globalNotifications := s.globalNotifications - {t}), s.queue[0], GlobalObservers(t));
        case _ =>
      }
    }
  }

  lemma StartFrame(s: State, effect: Effect, key: SetKey)
    ensures var s' := StartDispatch(s, effect, key);
            s' == s.(subs := s'.subs, out := s'.out, stack := s'.stack) && s.stack <= s'.stack
  {
    hide IdsFor;
  }

  lemma FinishQueued(s: State)
    requires Queued(s) && s.stack != [] && s.updates > 0
    ensures Queued(FinishUpdate(s))
  {
    QueuedFrame(s, FinishUpdate(s));
  }

  lemma FlushQueued(s: State)
    requires Queued(s) && s.stack != [] && s.updates > 0
    ensures Queued(FlushTurn(s))
  {
    hide Queued, IdsFor;
    if s.toRelease == [] && s.queue != [] {
      PopQueued(s, FlushTurn(s));
    } else {
      QueuedFrame(s, FlushTurn(s));
    }
  }

  lemma StepQueued(s: State)
    requires Queued(s) && s.stack != [] && s.updates > 0 && (s.stack[|s.stack| - 1].Dispatching? ==> s.out.Some?)
    ensures Queued(Step(s))
  {
    hide Queued, Exec, FlushTurn, DispatchTurn, FinishUpdate;
    match s.stack[|s.stack| - 1] {
      case Run(ops) =>
        if ops == [] {
          QueuedFrame(s, Step(s));
        } else {
          var s1 := s.(stack := Pop(s.stack) + [Run(ops[1..])]);
          QueuedFrame(s, s1);
          ExecQueued(s1, ops[0]);
        }
      case Flush => FlushQueued(s);
      case Dispatching =>
        DispatchTurnFrame(s);
        QueuedFrame(s, Step(s));
      case Finish => FinishQueued(s);
    }
  }

  // ---- Subscribers ----

  lemma {:induction false} IdsForMembers(subs: map<SubId, Sub>, key: SetKey, n: SubId)
    ensures forall i :: i in IdsFor(subs, key, n) <==> i in subs && subs[i].key == key && i < n
    ensures forall i, j :: 0 <= i < j < |IdsFor(subs, key, n)| ==> IdsFor(subs, key, n)[i] < IdsFor(subs, key, n)[j]
  {
    if n > 0 {
      IdsForMembers(subs, key, n - 1);
      var earlier := IdsFor(subs, key, n - 1);
      assert forall i :: 0 <= i < |earlier| ==> earlier[i] in earlier;
    }
  }

  lemma SubsFrame(s: State, s': State)
    requires SubsOk(s)
    requires s'.subs == s.subs && s'.nextId == s.nextId && s'.handles == s.handles && s'.ledger.Keys == s.ledger.Keys
    requires s'.dropped == s.dropped && s'.out == s.out
    requires forall e | e in s'.toRelease :: e in s.toRelease || e in s'.released
    requires s.released <= s'.released
    ensures SubsOk(s')
  {
  }

  lemma ExecSubs(s: State, op: Op)
    requires SubsOk(s)
    ensures SubsOk(Exec(s, op))
  {
    hide SubsOk, HasSubs, AddSub, DropHandle;
    match op {
      case Subscribe(key, t, responses) => AddSubs(s, Sub(key, t, responses, false));
      case Unsubscribe(id) => HandleSubs(s, id);
      case Emit(e, t, event) =>
        assert WithDue(s.ledger, e, t, event).Keys == s.ledger.Keys;
        SubsFrame(s, Exec(s, op));
      case _ => SubsFrame(s, Exec(s, op));
    }
  }

  lemma AddSubs(s: State, sub: Sub)
    requires SubsOk(s)
    ensures SubsOk(AddSub(s, sub))
  {
  }

  lemma DropSubs(s: State, key: SetKey, id: SubId)
    requires SubsOk(s) && id < s.nextId && id !in s.handles
    ensures SubsOk(DropSub(s, key, id))
  {
    hide HasSubs, DispatchOk;
    if s.out.Some? {
      FewerSubs(s, DropSub(s, key, id), s.out.value, false);
      FewerSubs(s, DropSub(s, key, id), s.out.value, s.out.value.marked);
    }
  }

  lemma FewerSubs(s: State, s': State, d: Dispatch, marked: bool)
    requires DispatchOk(s, d) && s'.subs.Keys <= s.subs.Keys && s'.nextId == s.nextId && s'.handles == s.handles
    ensures DispatchOk(s', d.(marked := marked))
  {
  }

  lemma HandleSubs(s: State, id: SubId)
    requires SubsOk(s)
    ensures SubsOk(DropHandle(s, id))
  {
    if id in s.handles {
      assert SubsOk(s.(handles := s.handles - {id}));
      hide SubsOk, DropSub;
      DropSubs(s.(handles := s.handles - {id}), s.handles[id], id);
    }
  }

  lemma StartDispatchSubs(s: State, effect: Effect, key: SetKey)
    requires SubsOk(s) && s.out == None
    requires AudienceOf(effect) == Some(key)
    ensures SubsOk(StartDispatch(s, effect, key))
  {
    IdsForMembers(s.subs, key, s.nextId);
  }

  lemma FlushSubs(s: State)
    requires SubsOk(s) && s.out == None && s.stack != [] && s.updates > 0
    ensures SubsOk(FlushTurn(s))
  {
    hide StartDispatch, IdsFor, SubsOk;
    if s.toRelease != [] {
      ReleaseSubs(s);
    } else if s.queue == [] {
      SubsFrame(s, FlushTurn(s));
    } else {
      var rest := s.(queue := s.queue[1..]);
      match s.queue[0] {
        case NotifyEffect(e) =>
          SubsFrame(s, rest.(notifications := s.notifications - {e}));
          StartDispatchSubs(rest.(notifications := s.notifications - {e}), s.queue[0], ObserversOf(e));
        case EmitEffect(e, _, _) =>
          SubsFrame(s, rest);
          StartDispatchSubs(rest, s.queue[0], ListenersOf(e));
        case NotifyGlobalEffect(t) =>
          SubsFrame(s, rest.(globalNotifications := s.globalNotifications - {t}));
          StartDispatchSubs(rest.(globalNotifications := s.globalNotifications - {t}), s.queue[0], GlobalObservers(t));
        case DeferEffect(Activate(id)) => ActivateSubs(s, id, FlushTurn(s));
        case _ => SubsFrame(s, FlushTurn(s));
      }
    }
  }

  lemma ReleaseSubs(s: State)
    requires SubsOk(s) && s.out == None && s.stack != [] && s.updates > 0 && s.toRelease != []
    ensures SubsOk(FlushTurn(s))
  {
  }

  lemma ActivateSubs(s: State, id: SubId, s': State)
    requires SubsOk(s) && s.out == None
    requires s'.subs == if id in s.subs then s.subs[id := s.subs[id].(active := true)] else s.subs
    requires s' == s.(subs := s'.subs, queue := s'.queue)
    ensures SubsOk(s')
  {
  }

  lemma DispatchSubs(s: State)
    requires SubsOk(s) && s.stack != [] && s.out.Some?
    ensures SubsOk(DispatchTurn(s))
  {
    hide SubsOk, Settle, EndDispatch, Visit;
    var d := s.out.value;
    if d.current.Some? {
      SettleSubs(s, d);
    } else if d.rest == [] {
      EndSubs(s, d);
    } else {
      VisitSubs(s, d);
    }
  }

  /** Only the dispatch in progress changed. */
  lemma SubsOut(s: State, s': State, d: Dispatch)
    requires SubsOk(s) && s'.out == Some(d) && DispatchOk(s, d)
    requires s'.subs == s.subs && s'.nextId == s.nextId && s'.handles == s.handles && s'.dropped == s.dropped
    requires s'.toRelease == s.toRelease && s'.released == s.released && s'.ledger.Keys == s.ledger.Keys
    ensures SubsOk(s')
  {
    hide DispatchOk;
    DispatchFrame(s, s', d);
  }

  lemma OutOk(s: State)
    requires SubsOk(s) && s.out.Some?
    ensures DispatchOk(s, s.out.value)
  {
  }

  lemma SettleSubs(s: State, d: Dispatch)
    requires SubsOk(s) && s.out == Some(d) && d.current.Some?
    ensures SubsOk(Settle(s, d))
  {
    hide SubsOk, DispatchOk;
    OutOk(s);
    CurrentSettled(s, d);
    SubsOut(s, Settle(s, d), Settle(s, d).out.value);
  }

  /** A callback that returned is no longer current, whether its subscriber stays or goes. */
  lemma CurrentSettled(s: State, d: Dispatch)
    requires DispatchOk(s, d) && d.current.Some?
    ensures var i := d.current.value;
            && i in d.held
            && DispatchOk(s, d.(current := None, held := d.held[i := d.held[i].Called()]))
            && DispatchOk(s, d.(current := None, held := d.held - {i}))
  {
  }

  lemma EndSubs(s: State, d: Dispatch)
    requires SubsOk(s) && s.out == Some(d) && s.stack != []
    ensures SubsOk(EndDispatch(s, d))
  {
  }

  lemma VisitSubs(s: State, d: Dispatch)
    requires SubsOk(s) && s.out == Some(d) && d.current == None && d.rest != []
    ensures SubsOk(Visit(s, d))
  {
    hide SubsOk, DispatchOk, Wants, Released, Visit;
    OutOk(s);
    RestShrinks(s, d);
    VisitFrame(s, d);
    SubsOut(s, Visit(s, d), Visit(s, d).out.value);
  }

  lemma DispatchFrame(s: State, s': State, d: Dispatch)
    requires DispatchOk(s, d) && s'.subs == s.subs && s'.nextId == s.nextId && s'.handles == s.handles
    ensures DispatchOk(s', d)
  {
  }

  /** Visiting the next subscriber, whether it is then called, skipped or let go. */
  lemma RestShrinks(s: State, d: Dispatch)
    requires DispatchOk(s, d) && d.current == None && d.rest != []
    ensures var next := d.(rest := d.rest[1..]);
            && d.rest[0] in d.held && d.rest[0] !in next.rest
            && DispatchOk(s, next) && DispatchOk(s, next.(held := d.held - {d.rest[0]}))
            && DispatchOk(s, next.(current := Some(d.rest[0])))
  {
  }

  lemma StepSubs(s: State)
    requires Control(s) && SubsOk(s) && s.stack != [] && s.updates > 0
    requires (s.stack[|s.stack| - 1].Dispatching? ==> s.out.Some?)
    ensures SubsOk(Step(s))
  {
    match s.stack[|s.stack| - 1] {
      case Run(ops) =>
        hide SubsOk, Control;
        if ops == [] {
          SubsFrame(s, Step(s));
        } else {
          var s1 := s.(stack := Pop(s.stack) + [Run(ops[1..])]);
          SubsFrame(s, s1);
          ExecSubs(s1, ops[0]);
        }
      case Finish => SubsFrame(s, Step(s));
      case Flush => FlushSubs(s);
      case Dispatching => DispatchSubs(s);
    }
  }

  // ---- What listeners are owed ----

  function EventOf(key: SetKey, t: TypeId, effect: Effect): seq<Event> {
    if Match(key, t, effect) then [effect.event] else []
  }

  lemma {:induction false} MatchingSnoc(key: SetKey, t: TypeId, queue: seq<Effect>, effect: Effect)
    ensures Matching(key, t, queue + [effect]) == Matching(key, t, queue) + EventOf(key, t, effect)
  {
    if queue != [] {
      assert (queue + [effect])[1..] == queue[1..] + [effect];
      MatchingSnoc(key, t, queue[1..], effect);
    }
  }

  lemma {:induction false} AfterActivationSnoc(key: SetKey, t: TypeId, queue: seq<Effect>, id: SubId, effect: Effect)
    ensures DeferEffect(Activate(id)) in queue ==>
              AfterActivation(key, t, queue + [effect], id) ==
                AfterActivation(key, t, queue, id) + EventOf(key, t, effect)
    ensures DeferEffect(Activate(id)) !in queue ==>
            AfterActivation(key, t, queue + [DeferEffect(Activate(id))], id) == []
  {
    if queue != [] {
      assert forall e: Effect :: (queue + [e])[1..] == queue[1..] + [e];
      if queue[0] == DeferEffect(Activate(id)) {
        MatchingSnoc(key, t, queue[1..], effect);
      } else {
        assert DeferEffect(Activate(id)) in queue <==> DeferEffect(Activate(id)) in queue[1..];
        AfterActivationSnoc(key, t, queue[1..], id, effect);
      }
    }
  }

  /** The same subscriber, but for the calls it has had. */
  predicate SameWants(a: Sub, b: Sub) {
    a == b.(responses := a.responses)
  }

  /** Nothing that concerns the listener changed. */
  lemma LedgerFrame(s: State, s': State, id: SubId)
    requires id in s.ledger && LedgerOk(s, id) && id in s'.ledger && s'.ledger[id] == s.ledger[id]
    requires Find(s', id).Some? && SameWants(Find(s', id).value, Find(s, id).value) && s'.queue == s.queue
    requires InFlight(s', id, s.ledger[id], Find(s, id).value) == InFlight(s, id, s.ledger[id], Find(s, id).value)
    ensures LedgerOk(s', id)
  {
  }

  /** An effect was queued; an event for the listener is owed from now on. */
  lemma LedgerPush(s: State, s': State, id: SubId, effect: Effect)
    requires id in s.ledger && LedgerOk(s, id) && id in s'.ledger
    requires var l := s.ledger[id];
             s'.ledger[id] == l.(due := l.due + EventOf(l.key, l.eventType, effect))
    requires Find(s', id) == Find(s, id) && s'.out == s.out
    requires s'.queue == s.queue + [effect]
    ensures LedgerOk(s', id)
  {
    var l := s.ledger[id];
    MatchingSnoc(l.key, l.eventType, s.queue, effect);
    AfterActivationSnoc(l.key, l.eventType, s.queue, id, effect);
  }

  lemma PushLedger(s: State, effect: Effect, id: SubId)
    requires id in s.ledger && LedgerOk(s, id) && !effect.EmitEffect?
    ensures LedgerOk(PushEffect(s, effect), id)
  {
    var s' := PushEffect(s, effect);
    if s'.queue == s.queue {
      LedgerFrame(s, s', id);
    } else {
      var l := s.ledger[id];
      assert l.due + [] == l.due;
      LedgerPush(s, s', id, effect);
    }
  }

  lemma SubscribeLedger(s: State, key: SetKey, t: TypeId, responses: seq<Response>, id: SubId)
    requires Queued(s) && SubsOk(s)
    requires Steady(Exec(s, Subscribe(key, t, responses)), id)
    requires id != s.nextId ==> id in s.ledger && LedgerOk(s, id)
    ensures LedgerOk(Exec(s, Subscribe(key, t, responses)), id)
  {
    hide Queued;
    var s' := Exec(s, Subscribe(key, t, responses));
    if id == s.nextId {
      assert DeferEffect(Activate(id)) !in s.queue by { NoEarlyActivation(s); }
      AfterActivationSnoc(key, t, s.queue, id, DeferEffect(Activate(id)));
    } else {
      var l := s.ledger[id];
      assert l.due + [] == l.due;
      LedgerPush(s, s', id, DeferEffect(Activate(s.nextId)));
    }
  }

  lemma NoEarlyActivation(s: State)
    requires Queued(s)
    ensures DeferEffect(Activate(s.nextId)) !in s.queue
  {
  }

  lemma EmitLedger(s: State, e: Entity, t: TypeId, event: Event, id: SubId)
    requires id in s.ledger && LedgerOk(s, id)
    ensures id in Exec(s, Emit(e, t, event)).ledger && LedgerOk(Exec(s, Emit(e, t, event)), id)
  {
    var s' := Exec(s, Emit(e, t, event));
    var l := s.ledger[id];
    assert l.due + [] == l.due;
    LedgerPush(s, s', id, EmitEffect(e, t, event));
  }

  lemma DropLedger(s: State, key: SetKey, gone: SubId, id: SubId)
    requires id in s.ledger && LedgerOk(s, id) && id != gone
    ensures LedgerOk(DropSub(s, key, gone), id)
  {
    hide HasSubs;
    LedgerFrame(s, DropSub(s, key, gone), id);
  }

  lemma HandleLedger(s: State, gone: SubId, id: SubId)
    requires Ledgers(s) && Steady(DropHandle(s, gone), id)
    ensures LedgerOk(DropHandle(s, gone), id)
  {
    hide LedgerOk, HasSubs;
    assert Steady(s, id);
    if gone in s.handles {
      var s1 := s.(handles := s.handles - {gone});
      LedgerUntouched(s, s1, id);
      DropLedger(s1, s.handles[gone], gone, id);
    }
  }

  lemma LedgerUntouched(s: State, s': State, id: SubId)
    requires id in s.ledger && LedgerOk(s, id) && id in s'.ledger && s'.ledger[id] == s.ledger[id]
    requires (id in s'.subs <==> id in s.subs) && (id in s.subs ==> s'.subs[id] == s.subs[id])
    requires s'.out == s.out && s'.queue == s.queue
    ensures LedgerOk(s', id)
  {
    LedgerFrame(s, s', id);
  }

  lemma ExecLedgers(s: State, op: Op)
    requires Queued(s) && SubsOk(s) && Ledgers(s)
    ensures Ledgers(Exec(s, op))
  {
    hide Queued, SubsOk, LedgerOk;
    forall id | Steady(Exec(s, op), id) ensures LedgerOk(Exec(s, op), id) {
      ExecLedger(s, op, id);
    }
  }

  lemma ExecLedger(s: State, op: Op, id: SubId)
    requires Queued(s) && SubsOk(s) && Ledgers(s) && Steady(Exec(s, op), id)
    ensures LedgerOk(Exec(s, op), id)
  {
    hide Queued, SubsOk, LedgerOk, HasSubs;
    assert (op.Subscribe? && id == s.nextId) || Steady(s, id);
    match op {
      case Notify(e) => PushLedger(s, NotifyEffect(e), id);
      case NotifyGlobal(t) => PushLedger(s, NotifyGlobalEffect(t), id);
      case Emit(e, t, event) => EmitLedger(s, e, t, event, id);
      case RefreshWindows => PushLedger(s, RefreshEffect, id);
      case Defer(script) => PushLedger(s, DeferEffect(Script(script)), id);
      case Subscribe(key, t, responses) => SubscribeLedger(s, key, t, responses, id);
      case Unsubscribe(gone) => HandleLedger(s, gone, id);
      case _ => LedgerUntouched(s, Exec(s, op), id);
    }
  }

  // ---- The flush loop and the dispatch ----

  /** The head of the queue was taken off, and it was no event for this listener. */
  lemma LedgerPop(s: State, s': State, id: SubId)
    requires id in s.ledger && LedgerOk(s, id) && id in s'.ledger && s'.ledger[id] == s.ledger[id]
    requires s.out == None && s.queue != [] && s'.queue == s.queue[1..]
    requires Find(s', id) == Find(s, id) && s.queue[0] != DeferEffect(Activate(id))
    requires var l := s.ledger[id]; !Match(l.key, l.eventType, s.queue[0])
    requires InFlight(s', id, s.ledger[id], Find(s, id).value) == []
    ensures LedgerOk(s', id)
  {
    assert s.queue == [s.queue[0]] + s'.queue;
  }

  lemma StartFinds(s: State, effect: Effect, key: SetKey, id: SubId)
    requires s.out == None
    ensures Find(StartDispatch(s, effect, key), id) == Find(s, id)
    ensures var s' := StartDispatch(s, effect, key);
            s' == s.(subs := s'.subs, out := s'.out, stack := s'.stack) &&
              (s'.out.Some? ==> s'.out.value.effect == effect)
  {
  }

  lemma ActivateLedger(s: State, id: SubId)
    requires SubsOk(s) && s.out == None && Steady(s, id) && LedgerOk(s, id) && s.stack != [] && s.updates > 0
    requires s.toRelease == [] && s.queue != [] && s.queue[0].DeferEffect? && s.queue[0].callback.Activate?
    ensures LedgerOk(FlushTurn(s), id)
  {
    var s' := FlushTurn(s);
    assert s.queue == [s.queue[0]] + s'.queue;
    if s.queue[0].callback.id != id {
      LedgerPop(s, s', id);
    }
  }

  lemma EmitTurnLedger(s: State, id: SubId)
    requires SubsOk(s) && s.out == None && Steady(s, id) && LedgerOk(s, id) && s.stack != [] && s.updates > 0
    requires s.toRelease == [] && s.queue != [] && s.queue[0].EmitEffect?
    ensures LedgerOk(FlushTurn(s), id)
  {
    var s' := FlushTurn(s);
    var rest := s.(queue := s.queue[1..]);
    var l, sub, key := s.ledger[id], Find(s, id).value, ListenersOf(s.queue[0].emitter);
    StartFinds(rest, s.queue[0], key, id);
    IdsForMembers(s.subs, key, s.nextId);
    assert s.queue == [s.queue[0]] + s'.queue;
    if Match(l.key, l.eventType, s.queue[0]) {
      assert id in IdsFor(s.subs, key, s.nextId);
      assert s'.out.Some? && s'.out.value.rest == IdsFor(s.subs, key, s.nextId);
    } else {
      LedgerPop(s, s', id);
    }
  }

  lemma FlushLedger(s: State, id: SubId)
    requires SubsOk(s) && s.out == None && Steady(s, id) && LedgerOk(s, id) && s.stack != [] && s.updates > 0
    ensures LedgerOk(FlushTurn(s), id)
  {
    hide LedgerOk, StartDispatch, Match, InFlight;
    var s' := FlushTurn(s);
    if s.toRelease != [] {
      ReleaseLedger(s, id);
    } else if s.queue == [] {
      LedgerUntouched(s, s', id);
    } else if s.queue[0].EmitEffect? {
      EmitTurnLedger(s, id);
    } else if s.queue[0].DeferEffect? && s.queue[0].callback.Activate? {
      ActivateLedger(s, id);
    } else {
      QuietTurnLedger(s, id);
    }
  }

  lemma ReleaseLedger(s: State, id: SubId)
    requires SubsOk(s) && s.out == None && Steady(s, id) && LedgerOk(s, id) && s.stack != [] && s.updates > 0
    requires s.toRelease != []
    ensures LedgerOk(FlushTurn(s), id)
  {
  }

  lemma QuietTurnLedger(s: State, id: SubId)
    requires SubsOk(s) && s.out == None && Steady(s, id) && LedgerOk(s, id) && s.stack != [] && s.updates > 0
    requires s.toRelease == [] && s.queue != [] && !s.queue[0].EmitEffect?
    requires s.queue[0].DeferEffect? ==> s.queue[0].callback.Script?
    ensures LedgerOk(FlushTurn(s), id)
  {
    hide StartDispatch;
    var s' := FlushTurn(s);
    var rest := s.(queue := s.queue[1..]);
    match s.queue[0] {
      case NotifyEffect(e) =>
        StartFinds(rest.(notifications := s.notifications - {e}), s.queue[0], ObserversOf(e), id);
      case NotifyGlobalEffect(t) =>
        StartFinds(rest.(globalNotifications := s.globalNotifications - {t}), s.queue[0], GlobalObservers(t), id);
      case _ =>
    }
    LedgerPop(s, s', id);
  }

  lemma VisitLedger(s: State, d: Dispatch, id: SubId)
    requires SubsOk(s) && s.out == Some(d) && d.current == None && d.rest != [] && Steady(s, id) && LedgerOk(s, id)
    ensures id in Visit(s, d).ledger && LedgerOk(Visit(s, d), id)
  {
    hide LedgerOk, SubsOk;
    if id == d.rest[0] {
      OutOk(s);
      RestShrinks(s, d);
      VisitedLedger(s, d);
    } else {
      BystanderLedger(s, d, id);
    }
  }

  lemma BystanderLedger(s: State, d: Dispatch, id: SubId)
    requires s.out == Some(d) && d.rest != [] && id != d.rest[0] && id in s.ledger && LedgerOk(s, id)
    ensures id in Visit(s, d).ledger && LedgerOk(Visit(s, d), id)
  {
    assert Find(s, id).Some?;
    hide LedgerOk, Visit, Callable;
    VisitFrame(s, d);
    assert d.rest == [d.rest[0]] + d.rest[1..];
    LedgerFrame(s, Visit(s, d), id);
  }

  /** The listener whose turn it is: called now, it gets the event that was in flight. */
  lemma VisitedLedger(s: State, d: Dispatch)
    requires s.out == Some(d) && d.rest != [] && Steady(s, d.rest[0]) && LedgerOk(s, d.rest[0])
    requires d.rest[0] in d.held && d.rest[0] !in s.subs && d.rest[0] !in d.rest[1..] && d.held[d.rest[0]].key == d.key
    requires d.effect.EmitEffect? ==> d.key == ListenersOf(d.effect.emitter)
    ensures d.rest[0] in Visit(s, d).ledger && LedgerOk(Visit(s, d), d.rest[0])
  {
  }

  lemma SettleLedger(s: State, d: Dispatch, id: SubId)
    requires SubsOk(s) && s.out == Some(d) && d.current.Some? && Steady(Settle(s, d), id)
    requires id in s.ledger && LedgerOk(s, id)
    ensures LedgerOk(Settle(s, d), id)
  {
    LedgerFrame(s, Settle(s, d), id);
  }

  lemma EndLedger(s: State, d: Dispatch, id: SubId)
    requires SubsOk(s) && s.out == Some(d) && d.rest == [] && s.stack != [] && Steady(s, id) && LedgerOk(s, id)
    ensures LedgerOk(EndDispatch(s, d), id)
  {
    LedgerFrame(s, EndDispatch(s, d), id);
  }

  lemma DispatchLedger(s: State, id: SubId)
    requires SubsOk(s) && s.out.Some? && s.stack != [] && Steady(DispatchTurn(s), id)
    requires Steady(s, id) && LedgerOk(s, id)
    ensures LedgerOk(DispatchTurn(s), id)
  {
    hide LedgerOk, SubsOk, Visit, Settle, EndDispatch;
    var d := s.out.value;
    if d.current.Some? {
      SettleLedger(s, d, id);
    } else if d.rest == [] {
      EndLedger(s, d, id);
    } else {
      VisitLedger(s, d, id);
    }
  }

  lemma SteadyBefore(s: State, id: SubId)
    requires s.stack != [] && s.updates > 0 && (s.stack[|s.stack| - 1].Dispatching? ==> s.out.Some?)
    requires SubsOk(s) && (s.stack[|s.stack| - 1].Flush? ==> s.out == None)
    requires !s.stack[|s.stack| - 1].Run? && Steady(Step(s), id)
    ensures Steady(s, id)
  {
    TurnFinds(s, id);
    hide SubsOk, Find, FlushTurn, DispatchTurn;
    match s.stack[|s.stack| - 1] {
      case Finish =>
      case Flush => FlushTurnFrame(s);
      case Dispatching =>
        DispatchTurnFrame(s);
        DispatchLedgerKeys(s);
    }
  }

  lemma DispatchLedgerKeys(s: State)
    requires s.stack != [] && s.out.Some?
    ensures forall id | id in DispatchTurn(s).ledger ::
            id in s.ledger && DispatchTurn(s).ledger[id].key == s.ledger[id].key
  {
    hide Wants, Released;
  }

  /** Steps other than operations find no subscriber that was not there before. */
  lemma TurnFinds(s: State, id: SubId)
    requires s.stack != [] && s.updates > 0 && (s.stack[|s.stack| - 1].Dispatching? ==> s.out.Some?)
    requires !s.stack[|s.stack| - 1].Run? && (s.stack[|s.stack| - 1].Flush? ==> s.out == None)
    ensures Find(Step(s), id).Some? ==> Find(s, id).Some?
  {
    match s.stack[|s.stack| - 1] {
      case Finish =>
      case Flush => hide FlushTurn; FlushFinds(s, id);
      case Dispatching => hide DispatchTurn; DispatchFinds(s, id);
    }
  }

  lemma DispatchFinds(s: State, id: SubId)
    requires s.stack != [] && s.out.Some?
    ensures Find(DispatchTurn(s), id).Some? ==> Find(s, id).Some?
  {
    var d := s.out.value;
    if d.current == None && d.rest != [] {
      hide Visit, Callable, Settle, EndDispatch;
      VisitFrame(s, d);
    } else {
      hide Visit;
    }
  }

  lemma FlushFinds(s: State, id: SubId)
    requires s.stack != [] && s.updates > 0 && s.out == None
    ensures Find(FlushTurn(s), id).Some? ==> Find(s, id).Some?
  {
    hide StartDispatch;
    if s.toRelease == [] && s.queue != [] {
      var rest := s.(queue := s.queue[1..]);
      match s.queue[0] {
        case NotifyEffect(e) =>
          StartFinds(rest.(notifications := s.notifications - {e}), s.queue[0], ObserversOf(e), id);
        case EmitEffect(e, _, _) => StartFinds(rest, s.queue[0], ListenersOf(e), id);
        case NotifyGlobalEffect(t) =>
          StartFinds(rest.(globalNotifications := s.globalNotifications - {t}), s.queue[0], GlobalObservers(t), id);
        case _ =>
      }
    }
  }

  lemma StepLedgers(s: State)
    requires Inv(s) && s.stack != [] && s.updates > 0 && (s.stack[|s.stack| - 1].Dispatching? ==> s.out.Some?)
    ensures Ledgers(Step(s))
  {
    var top := s.stack[|s.stack| - 1];
    if top.Run? {
      RunLedgers(s);
    } else {
      assert top.Flush? ==> s.out == None;
      hide LedgerOk, Queued, SubsOk, Control, FlushTurn, DispatchTurn;
      forall id | Steady(Step(s), id) ensures LedgerOk(Step(s), id) {
        SteadyBefore(s, id);
        match top {
          case Finish => LedgerUntouched(s, Step(s), id);
          case Flush => FlushLedger(s, id);
          case Dispatching => DispatchLedger(s, id);
        }
      }
    }
  }

  lemma RunLedgers(s: State)
    requires Inv(s) && s.stack != [] && s.updates > 0 && s.stack[|s.stack| - 1].Run?
    ensures Ledgers(Step(s))
  {
    hide LedgerOk, Queued, SubsOk, Control, Exec;
    var ops := s.stack[|s.stack| - 1].ops;
    var s1 := s.(stack := if ops == [] then Pop(s.stack) else Pop(s.stack) + [Run(ops[1..])]);
    forall id | Steady(s1, id) ensures LedgerOk(s1, id) { LedgerUntouched(s, s1, id); }
    if ops != [] {
      QueuedFrame(s, s1);
      SubsFrame(s, s1);
      ExecLedgers(s1, ops[0]);
    }
  }

  // ---- Whole runs ----

  lemma StepKeepsInv(s: State)
    requires Inv(s) && s.stack != []
    ensures s.updates > 0 && (s.stack[|s.stack| - 1].Dispatching? ==> s.out.Some?)
    ensures Inv(Step(s))
  {
    hide Control, Queued, SubsOk, Ledgers, Step;
    StepEnabled(s);
    StepControl(s);
    StepQueued(s);
    StepSubs(s);
    StepLedgers(s);
  }

  lemma BeginKeepsInv(s: State, script: seq<Op>)
    requires Inv(s) && s.stack == []
    ensures Inv(Begin(s, script))
  {
    var s' := Begin(s, script);
    OpenPush([], Finish);
    OpenPush([Finish], Run(script));
    assert [] + [Finish] == [Finish] && [Finish] + [Run(script)] == [Finish, Run(script)];
    forall id | Steady(s', id) ensures LedgerOk(s', id) { LedgerUntouched(s, s', id); }
  }

  /** The invariant holds in every state of every run, however updates and callbacks nest. */
  lemma {:induction false} RunKeepsInv(states: seq<State>, i: nat)
    requires IsRun(states) && i < |states|
    ensures Inv(states[i])
  {
    hide Inv, Step;
    if i == 0 {
      InitialInv();
    } else {
      RunKeepsInv(states, i - 1);
      assert Next(states[i - 1], states[i]);
      if states[i - 1].stack == [] {
        var script :| states[i] == Begin(states[i - 1], script);
        BeginKeepsInv(states[i - 1], script);
      } else {
        StepKeepsInv(states[i - 1]);
      }
    }
  }

  lemma InitialInv()
    ensures Inv(INITIAL)
  {
  }

  /** A state in which nothing runs: nothing is queued or marked as pending, the counter is
      back, and every listener in place has received exactly what it is owed. */
  lemma QuietState(s: State)
    requires Inv(s) && s.stack == []
    ensures s.queue == [] && s.notifications == {} && s.globalNotifications == {}
    ensures s.updates == 0 && !s.flushing && s.out == None
    ensures forall id | Steady(s, id) :: s.ledger[id].delivered == s.ledger[id].due
  {
  }

  /** Whenever the outermost update has returned: nothing is queued, no notification is marked
      as pending, the update counter is back to zero and nothing is flushing. */
  lemma QuietAfterUpdate(states: seq<State>, i: nat)
    requires IsRun(states) && i < |states| && states[i].stack == []
    ensures var s := states[i];
            && s.queue == [] && s.notifications == {} && s.globalNotifications == {}
            && s.updates == 0 && !s.flushing && s.out == None
  {
    RunKeepsInv(states, i);
    QuietState(states[i]);
  }

  /** Flushing starts only from the outermost update: the frame below which nothing is. */
  lemma FlushOnlyOutermost(states: seq<State>, i: nat, k: nat)
    requires IsRun(states) && i < |states| && k < |states[i].stack| && states[i].stack[k] == Flush
    ensures k == 0 && states[i].flushing
  {
    RunKeepsInv(states, i);
  }

  /** The pending sets name exactly the queued notifications, and none is queued twice. */
  lemma PendingMatchesQueue(states: seq<State>, i: nat, e: Entity, t: TypeId)
    requires IsRun(states) && i < |states|
    ensures var s := states[i];
            && (e in s.notifications <==> NotifyEffect(e) in s.queue)
            && (t in s.globalNotifications <==> NotifyGlobalEffect(t) in s.queue)
            && (forall j, k :: 0 <= j < k < |s.queue| && s.queue[j] == NotifyEffect(e) ==>
               s.queue[k] != NotifyEffect(e))
            && (forall j, k :: 0 <= j < k < |s.queue| && s.queue[j] == NotifyGlobalEffect(t) ==>
               s.queue[k] != NotifyGlobalEffect(t))
  {
    RunKeepsInv(states, i);
    assert Coalesces(NotifyEffect(e)) && Coalesces(NotifyGlobalEffect(t));
  }
}
