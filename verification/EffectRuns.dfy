/** Runs of the effect cycle seen from outside: which operation, and which call of a subscriber,
    each step of a run carries out.  Listeners get the events that were emitted for them. */
module EffectRuns {
  import opened Basics
  import opened Effects
  import opened EffectsProof

  /** The operation that the next step executes, if it is one of a script. */
  function OpAt(s: State): Option<Op> {
    if s.stack != [] && s.stack[|s.stack| - 1].Run? && s.stack[|s.stack| - 1].ops != []
    then Some(s.stack[|s.stack| - 1].ops[0]) else None
  }

  /** In the next step the dispatch turns to the subscriber `id`. */
  predicate Turn(s: State, id: SubId) {
    && s.stack != [] && s.stack[|s.stack| - 1].Dispatching? && s.out.Some? && s.out.value.current == None
    && s.out.value.rest != [] && s.out.value.rest[0] == id
  }

  /** The next step calls the subscriber `id`. */
  predicate Calls(s: State, id: SubId) {
    Turn(s, id) && Callable(s, s.out.value)
  }

  /** The state with the operation taken off its script. */
  function Shortened(s: State): State
    requires OpAt(s).Some?
  {
    s.(stack := Pop(s.stack) + [Run(s.stack[|s.stack| - 1].ops[1..])])
  }

  lemma StepIsExec(s: State)
    requires OpAt(s).Some? && s.updates > 0
    ensures Step(s) == Exec(Shortened(s), OpAt(s).value)
  {
    hide Exec;
  }

  /** The next step calls the subscriber `id`, which will return false. */
  predicate Refuses(s: State, id: SubId) {
    Calls(s, id) && !s.out.value.held[id].Next().keep
  }

  function EmittedBy(s: State, e: Entity, t: TypeId): seq<Event> {
    match OpAt(s)
    case Some(Emit(e', t', event)) => if e' == e && t' == t then [event] else []
    case _ => []
  }

  function ReceivedIn(s: State, id: SubId): seq<Event> {
    if Calls(s, id) && s.out.value.effect.EmitEffect? then [s.out.value.effect.event] else []
  }

  /** The events of type `t` emitted for `e` by the steps from `from` up to `to`. */
  function Emitted(states: seq<State>, e: Entity, t: TypeId, from: nat, to: nat): seq<Event>
    requires to <= |states|
  {
    if to <= from then [] else Emitted(states, e, t, from, to - 1) + EmittedBy(states[to - 1], e, t)
  }

  /** The events that `id` was called with in those steps. */
  function Received(states: seq<State>, id: SubId, from: nat, to: nat): seq<Event>
    requires to <= |states|
  {
    if to <= from then [] else Received(states, id, from, to - 1) + ReceivedIn(states[to - 1], id)
  }

  /** Step `i` registers `id` as a listener. */
  predicate Registers(s: State, id: SubId, e: Entity, t: TypeId) {
    && OpAt(s).Some? && OpAt(s).value.Subscribe? && OpAt(s).value.key == ListenersOf(e)
    && OpAt(s).value.eventType == t && s.nextId == id
  }

  lemma RunStep(states: seq<State>, i: nat)
    requires IsRun(states) && i + 1 < |states|
    ensures Inv(states[i]) && Inv(states[i + 1])
    ensures states[i].stack != [] ==>
              && states[i].updates > 0 && (states[i].stack[|states[i].stack| - 1].Dispatching? ==> states[i].out.Some?)
              && states[i + 1] == Step(states[i])
    ensures states[i].stack == [] ==> exists script :: states[i + 1] == Begin(states[i], script)
    ensures Next(states[i], states[i + 1])
  {
    hide Inv, Step, Begin;
    RunKeepsInv(states, i);
    RunKeepsInv(states, i + 1);
    assert Next(states[i + 1 - 1], states[i + 1]);
  }

  // ---- The ledger is what the run says ----

  ghost predicate LedgerStep(s: State, s': State, id: SubId, e: Entity, t: TypeId)
    requires id in s.ledger
  {
    && id in s'.ledger
    && s'.ledger[id] == s.ledger[id].(due := s.ledger[id].due + EmittedBy(s, e, t),
                                      delivered := s.ledger[id].delivered + ReceivedIn(s, id))
  }

  lemma StepLedger(s: State, id: SubId, e: Entity, t: TypeId)
    requires SubsOk(s) && s.stack != [] && s.updates > 0 && (s.stack[|s.stack| - 1].Dispatching? ==> s.out.Some?)
    requires id in s.ledger && s.ledger[id].key == ListenersOf(e) && s.ledger[id].eventType == t
    ensures LedgerStep(s, Step(s), id, e, t)
  {
    hide SubsOk, Exec, FlushTurn, DispatchTurn;
    match s.stack[|s.stack| - 1] {
      case Run(ops) =>
        if ops != [] { OpLedger(s, id, e, t); }
      case Finish =>
      case Flush => FlushTurnFrame(s);
      case Dispatching => TurnLedger(s, id, e, t);
    }
  }

  lemma TurnLedger(s: State, id: SubId, e: Entity, t: TypeId)
    requires s.stack != [] && s.stack[|s.stack| - 1].Dispatching? && s.out.Some? && id in s.ledger
    ensures LedgerStep(s, DispatchTurn(s), id, e, t)
  {
    hide Visit, Callable;
    if s.out.value.rest != [] {
      VisitFrame(s, s.out.value);
    }
  }

  lemma OpLedger(s: State, id: SubId, e: Entity, t: TypeId)
    requires SubsOk(s) && OpAt(s).Some? && s.updates > 0
    requires id in s.ledger && s.ledger[id].key == ListenersOf(e) && s.ledger[id].eventType == t
    ensures LedgerStep(s, Step(s), id, e, t)
  {
    assert id < s.nextId;
    hide SubsOk, Step, DropHandle, AddSub;
    StepIsExec(s);
    match OpAt(s).value {
      case Subscribe(key, t', responses) => AddFrame(Shortened(s), Sub(key, t', responses, false));
      case Unsubscribe(other) => DropFrame(Shortened(s), other);
      case _ =>
    }
  }

  lemma RegisterLedger(s: State, id: SubId, e: Entity, t: TypeId)
    requires s.stack != [] && s.updates > 0 && (s.stack[|s.stack| - 1].Dispatching? ==> s.out.Some?)
    requires Registers(s, id, e, t)
    ensures id in Step(s).ledger && Step(s).ledger[id] == Ledger(ListenersOf(e), t, [], [])
  {
  }

  /** What the ledger says a listener is owed and has received is what the run emitted for it
      and called it with since it was registered. */
  lemma {:induction false} LedgerFromRun(
    states: seq<State>, a: nat, i: nat, id: SubId, e: Entity, t: TypeId)
    requires IsRun(states) && a < i < |states| && Registers(states[a], id, e, t)
    ensures id in states[i].ledger
    ensures states[i].ledger[id] ==
            Ledger(ListenersOf(e), t, Emitted(states, e, t, a + 1, i), Received(states, id, a + 1, i))
  {
    hide Step, Begin, EmittedBy, ReceivedIn, IsRun, Control, Queued, SubsOk, Ledgers;
    RunStep(states, i - 1);
    if i == a + 1 {
      RegisterLedger(states[a], id, e, t);
    } else {
      LedgerFromRun(states, a, i - 1, id, e, t);
      if states[i - 1].stack == [] {
        IdleLedger(states[i - 1], states[i], id, e, t);
      } else {
        StepLedger(states[i - 1], id, e, t);
      }
    }
  }

  lemma IdleLedger(s: State, s': State, id: SubId, e: Entity, t: TypeId)
    requires s.stack == [] && exists script :: s' == Begin(s, script)
    ensures s'.ledger == s.ledger && EmittedBy(s, e, t) == [] && ReceivedIn(s, id) == []
  {
  }

  // ---- Staying in place ----

  /** Subscribed, with its subscription held, and not about to return false. */
  ghost predicate Stays(s: State, id: SubId, e: Entity) {
    && id in s.handles && Find(s, id).Some?
    && Find(s, id).value.key == ListenersOf(e)
    && (s.out.Some? && s.out.value.current == Some(id) ==> Find(s, id).value.Next().keep)
  }

  lemma StepStays(s: State, id: SubId, e: Entity)
    requires SubsOk(s) && s.stack != [] && s.updates > 0 && (s.stack[|s.stack| - 1].Dispatching? ==> s.out.Some?)
    requires s.stack[|s.stack| - 1].Flush? ==> s.out == None
    requires Stays(s, id, e) && !Refuses(s, id) && e !in s.released && OpAt(s) != Some(Unsubscribe(id))
    ensures Stays(Step(s), id, e)
  {
    match s.stack[|s.stack| - 1] {
      case Run(ops) => hide SubsOk, Exec; if ops != [] { OpStays(s, id, e); }
      case Finish =>
      case Flush => hide SubsOk, FlushTurn; FlushStays(s, id, e);
      case Dispatching => hide SubsOk, DispatchTurn; DispatchStays(s, id, e);
    }
  }

  lemma OpStays(s: State, id: SubId, e: Entity)
    requires SubsOk(s) && s.updates > 0 && Stays(s, id, e) && OpAt(s).Some? && OpAt(s) != Some(Unsubscribe(id))
    ensures Stays(Step(s), id, e)
  {
    assert id < s.nextId;
    hide SubsOk, Step, DropHandle, AddSub;
    StepIsExec(s);
    match OpAt(s).value {
      case Subscribe(key, t, responses) => AddFrame(Shortened(s), Sub(key, t, responses, false));
      case Unsubscribe(other) => OtherDropped(Shortened(s), other, id, e);
      case _ =>
        hide Exec;
        PlainOpFrame(Shortened(s), OpAt(s).value);
    }
  }

  lemma OtherDropped(s: State, other: SubId, id: SubId, e: Entity)
    requires Stays(s, id, e) && other != id
    ensures Stays(DropHandle(s, other), id, e)
  {
    hide HasSubs;
  }

  lemma FlushStays(s: State, id: SubId, e: Entity)
    requires SubsOk(s) && s.stack != [] && s.updates > 0 && s.out == None
    requires Stays(s, id, e) && e !in s.released
    ensures Stays(FlushTurn(s), id, e)
  {
    hide StartDispatch;
    if s.toRelease == [] && s.queue != [] {
      var rest := s.(queue := s.queue[1..]);
      match s.queue[0] {
        case NotifyEffect(x) => StartStays(rest.(notifications := s.notifications - {x}), s.queue[0], ObserversOf(x),
          id, e);
        case EmitEffect(x, _, _) => StartStays(rest, s.queue[0], ListenersOf(x), id, e);
        case NotifyGlobalEffect(t) =>
          StartStays(rest.(globalNotifications := s.globalNotifications - {t}), s.queue[0], GlobalObservers(t), id, e);
        case _ =>
      }
    }
  }

  lemma StartStays(s: State, effect: Effect, key: SetKey, id: SubId, e: Entity)
    requires s.out == None && Stays(s, id, e)
    ensures Stays(StartDispatch(s, effect, key), id, e)
  {
    StartFinds(s, effect, key, id);
    hide Find, IdsFor;
  }

  lemma DispatchStays(s: State, id: SubId, e: Entity)
    requires SubsOk(s) && s.stack != [] && s.stack[|s.stack| - 1].Dispatching? && s.out.Some?
    requires Stays(s, id, e) && !Refuses(s, id) && e !in s.released
    ensures Stays(DispatchTurn(s), id, e)
  {
    hide SubsOk, Settle, EndDispatch, Visit, Stays, Callable;
    OutOk(s);
    var d := s.out.value;
    if d.current.Some? {
      SettleStays(s, d, id, e);
    } else if d.rest == [] {
      EndStays(s, d, id, e);
    } else if d.rest[0] == id {
      VisitStays(s, d, e);
    } else {
      PassedStays(s, d, id, e);
    }
  }

  lemma SettleStays(s: State, d: Dispatch, id: SubId, e: Entity)
    requires DispatchOk(s, d) && s.out == Some(d) && d.current.Some? && Stays(s, id, e)
    ensures Stays(Settle(s, d), id, e)
  {
  }

  lemma EndStays(s: State, d: Dispatch, id: SubId, e: Entity)
    requires SubsOk(s) && s.out == Some(d) && s.stack != [] && Stays(s, id, e)
    ensures Stays(EndDispatch(s, d), id, e)
  {
  }

  lemma PassedStays(s: State, d: Dispatch, id: SubId, e: Entity)
    requires s.out == Some(d) && d.current == None && d.rest != [] && d.rest[0] != id && Stays(s, id, e)
    ensures Stays(Visit(s, d), id, e)
  {
    hide Visit, Callable;
    VisitFrame(s, d);
  }

  lemma VisitStays(s: State, d: Dispatch, e: Entity)
    requires DispatchOk(s, d) && s.out == Some(d) && d.current == None && d.rest != []
    requires Stays(s, d.rest[0], e) && (Callable(s, d) ==> d.held[d.rest[0]].Next().keep) && e !in s.released
    ensures Stays(Visit(s, d), d.rest[0], e)
  {
    hide Wants;
  }

  /** A listener that nobody unsubscribes, and that returns true whenever it is called. */
  ghost predicate Undisturbed(states: seq<State>, a: nat, i: nat, id: SubId)
    requires i <= |states|
  {
    forall j | a < j < i ::
      && !Refuses(states[j], id)
      && OpAt(states[j]) != Some(Unsubscribe(id))
  }

  lemma {:induction false} UndisturbedStays(
    states: seq<State>, a: nat, i: nat, id: SubId, e: Entity, t: TypeId)
    requires IsRun(states) && a < i < |states| && Registers(states[a], id, e, t)
    requires Undisturbed(states, a, i, id) && e !in states[i].released
    ensures Stays(states[i], id, e)
  {
    hide Step, Begin, IsRun, Stays, Queued, SubsOk, Ledgers;
    RunStep(states, i - 1);
    if i == a + 1 {
      RegisterStays(states[a], id, e, t);
    } else {
      ReleasedGrows(states[i - 1], states[i]);
      UndisturbedStays(states, a, i - 1, id, e, t);
      if states[i - 1].stack == [] {
        IdleStays(states[i - 1], states[i], id, e);
      } else {
        StepStays(states[i - 1], id, e);
      }
    }
  }

  /** A released entity does not come back. */
  lemma ReleasedGrows(s: State, s': State)
    requires Inv(s) && Next(s, s')
    ensures s.released <= s'.released
  {
    hide Inv, Exec, FlushTurn, DispatchTurn;
    if s.stack != [] {
      match s.stack[|s.stack| - 1] {
        case Run(ops) => if ops != [] { OpReleases(Shortened(s), OpAt(s).value); }
        case Finish =>
        case Flush => FlushTurnFrame(s);
        case Dispatching => DispatchTurnFrame(s);
      }
    }
  }

  lemma OpReleases(s: State, op: Op)
    ensures s.released <= Exec(s, op).released
  {
    hide DropHandle, AddSub;
    match op {
      case Subscribe(key, t, responses) => AddFrame(s, Sub(key, t, responses, false));
      case Unsubscribe(id) => DropFrame(s, id);
      case _ =>
    }
  }

  lemma IdleStays(s: State, s': State, id: SubId, e: Entity)
    requires Stays(s, id, e) && exists script :: s' == Begin(s, script)
    ensures Stays(s', id, e)
  {
  }

  lemma RegisterStays(s: State, id: SubId, e: Entity, t: TypeId)
    requires Inv(s) && s.stack != [] && s.updates > 0 && (s.stack[|s.stack| - 1].Dispatching? ==> s.out.Some?)
    requires Registers(s, id, e, t)
    ensures Stays(Step(s), id, e)
  {
    hide Queued, Ledgers, Control;
  }

  // ---- What listeners get ----

  /** Once the outermost update has returned, a listener nobody unsubscribed, that returned true
      so far and whose entity lives has been called with exactly the events of its type emitted
      for its entity since it was registered: in order, once each, and none from before. */
  lemma ListenersGetTheirEvents(states: seq<State>, a: nat, i: nat, id: SubId, e: Entity, t: TypeId)
    requires IsRun(states) && a < i < |states| && Registers(states[a], id, e, t)
    requires Undisturbed(states, a, i, id) && e !in states[i].released && states[i].stack == []
    ensures Received(states, id, a + 1, i) == Emitted(states, e, t, a + 1, i)
  {
    hide IsRun, Undisturbed;
    RunKeepsInv(states, i);
    QuietState(states[i]);
    LedgerFromRun(states, a, i, id, e, t);
    UndisturbedStays(states, a, i, id, e, t);
    assert Steady(states[i], id);
  }

  /** At any other moment it has been called with the first few of them. */
  lemma ReceivedIsPrefix(states: seq<State>, a: nat, i: nat, id: SubId, e: Entity, t: TypeId)
    requires IsRun(states) && a < i < |states| && Registers(states[a], id, e, t)
    requires Undisturbed(states, a, i, id) && e !in states[i].released
    ensures Received(states, id, a + 1, i) <= Emitted(states, e, t, a + 1, i)
  {
    hide IsRun, Undisturbed;
    RunKeepsInv(states, i);
    LedgerFromRun(states, a, i, id, e, t);
    UndisturbedStays(states, a, i, id, e, t);
    assert LedgerOk(states[i], id);
  }
}
