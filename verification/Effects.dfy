/** The application's effect cycle as a machine with an explicit control stack.

    A call of a callback runs a finite script of operations, so that it may itself notify, emit,
    subscribe, unsubscribe, defer or start a nested update; a subscriber has a script for each
    of its calls, so that no two of them need do the same.  One step of the machine is one
    operation, one turn of the flush loop, or one subscriber of a dispatch; whole runs need
    no bound, since nothing here asks a flush to end.
 */
module Effects {
  import opened Basics

  type Entity = nat
  type TypeId = nat
  type Event = nat
  type SubId = nat

  /** Which subscriber set, and which emitter in it. */
  datatype SetKey = ObserversOf(entity: Entity) | ListenersOf(entity: Entity) | GlobalObservers(globalType: TypeId)

  datatype Op =
    | Notify(entity: Entity)
    | NotifyGlobal(globalType: TypeId)
    | Emit(entity: Entity, eventType: TypeId, event: Event)
    | RefreshWindows
    | Defer(script: seq<Op>)
    | Update(script: seq<Op>)
    | Subscribe(key: SetKey, eventType: TypeId, responses: seq<Response>)
    | Unsubscribe(id: SubId)
    | Release(entity: Entity)

  /** What a callback does when it is called: its operations, and whether it returns true. */
  datatype Response = Response(script: seq<Op>, keep: bool)

  datatype Callback = Script(script: seq<Op>) | Activate(id: SubId)

  datatype Effect =
    | NotifyEffect(emitter: Entity)
    | EmitEffect(emitter: Entity, eventType: TypeId, event: Event)
    | RefreshEffect
    | NotifyGlobalEffect(globalType: TypeId)
    | DeferEffect(callback: Callback)

  /** A subscriber: inert until activated, called when its emitter fires, kept if it returns
      true.  `responses` are what its callback does call by call, so that it may react to the
      event and to everything else; after the last of them it does nothing. */
  datatype Sub = Sub(key: SetKey, eventType: TypeId, responses: seq<Response>, active: bool) {
    function Next(): Response {
      if responses == [] then Response([], true) else responses[0]
    }

    /** The subscriber after one more call. */
    function Called(): Sub {
      this.(responses := if responses == [] then [] else responses[1..])
    }
  }

  /** A `retain` in progress: the subscribers taken out of the set, those still to visit, and
      whether the emptied entry of the emitter is still in the set to mark the dispatch. */
  datatype Dispatch = Dispatch(
    effect: Effect, key: SetKey, held: map<SubId, Sub>, rest: seq<SubId>, current: Option<SubId>, marked: bool)

  datatype Frame = Run(ops: seq<Op>) | Finish | Flush | Dispatching

  /** What an event listener is owed and has received: bookkeeping only, no step reads it. */
  datatype Ledger = Ledger(key: SetKey, eventType: TypeId, due: seq<Event>, delivered: seq<Event>)

  datatype State = State(
    queue: seq<Effect>,
    notifications: set<Entity>,
    globalNotifications: set<TypeId>,
    updates: nat,
    flushing: bool,
    subs: map<SubId, Sub>,
    nextId: SubId,
    handles: map<SubId, SetKey>,
    out: Option<Dispatch>,
    dropped: set<SubId>,
    released: set<Entity>,
    toRelease: seq<Entity>,
    stack: seq<Frame>,
    ledger: map<SubId, Ledger>
  )

  const INITIAL := State([], {}, {}, 0, false, map[], 0, map[], None, {}, {}, [], [], map[])

  // ---- Operations ----

  /** Queues an effect; notifications that are already queued coalesce. */
  function PushEffect(s: State, effect: Effect): State {
    match effect
    case NotifyEffect(e) =>
      if e in s.notifications then s
      else s.(notifications := s.notifications + {e}, queue := s.queue + [effect])
    case NotifyGlobalEffect(t) =>
      if t in s.globalNotifications then s
      else s.(globalNotifications := s.globalNotifications + {t}, queue := s.queue + [effect])
    case _ => s.(queue := s.queue + [effect])
  }

  function WithDue(ledger: map<SubId, Ledger>, e: Entity, t: TypeId, event: Event): map<SubId, Ledger> {
    map i | i in ledger ::
      if ledger[i].key == ListenersOf(e) && ledger[i].eventType == t then ledger[i].(due := ledger[i].due + [event])
      else ledger[i]
  }

  /** Adds an inert subscriber and defers its activation. */
  function AddSub(s: State, sub: Sub): State {
    var id := s.nextId;
    var added := s.(subs := s.subs[id := sub.(active := false)], nextId := id + 1, handles := s.handles[id := sub.key],
                    ledger := if sub.key.ListenersOf? then s.ledger[id := Ledger(sub.key, sub.eventType, [], [])]
                              else s.ledger);
    PushEffect(added, DeferEffect(Activate(id)))
  }

  predicate HasSubs(subs: map<SubId, Sub>, key: SetKey) {
    exists i :: i in subs && subs[i].key == key
  }

  /** Dropping the subscription `id` of the emitter `key`.  While the emitter's subscribers are
      taken out and its emptied entry marks that, the drop is noted for the end of the dispatch.
      A subscriber added meanwhile puts a fresh entry there, and the entry goes when that one
      is dropped. */
  function DropSub(s: State, key: SetKey, id: SubId): State {
    if HasSubs(s.subs, key) then
      if id in s.subs && s.subs[id].key == key then
        var fewer := s.subs - {id};
        s.(subs := fewer, out := if HasSubs(fewer, key) then s.out else Unmarked(s.out, key))
      else s
    else if Marks(s.out, key) then s.(dropped := s.dropped + {id})
    else s
  }

  /** A subscription value is dropped at most once, and knows its emitter. */
  function DropHandle(s: State, id: SubId): State {
    if id in s.handles then DropSub(s.(handles := s.handles - {id}), s.handles[id], id) else s
  }

  predicate Marks(out: Option<Dispatch>, key: SetKey) {
    out.Some? && out.value.key == key && out.value.marked
  }

  function Unmarked(out: Option<Dispatch>, key: SetKey): Option<Dispatch> {
    if out.Some? && out.value.key == key then Some(out.value.(marked := false)) else out
  }

  /** One operation of a script; the frame it came from is already shortened. */
  function Exec(s: State, op: Op): State {
    match op
    case Notify(e) => PushEffect(s, NotifyEffect(e))
    case NotifyGlobal(t) => PushEffect(s, NotifyGlobalEffect(t))
    case Emit(e, t, event) => PushEffect(s.(ledger := WithDue(s.ledger, e, t, event)), EmitEffect(e, t, event))
    case RefreshWindows => PushEffect(s, RefreshEffect)
    case Defer(script) => PushEffect(s, DeferEffect(Script(script)))
    case Update(script) => s.(updates := s.updates + 1, stack := s.stack + [Finish, Run(script)])
    case Subscribe(key, t, responses) => AddSub(s, Sub(key, t, responses, false))
    case Unsubscribe(id) => DropHandle(s, id)
    case Release(e) => s.(released := s.released + {e}, toRelease := s.toRelease + [e])
  }

  // ---- Control ----

  function Pop(stack: seq<Frame>): seq<Frame>
    requires stack != []
  {
    stack[..|stack| - 1]
  }

  /** The end of an update: only the outermost one, outside a flush, starts flushing. */
  function FinishUpdate(s: State): State
    requires s.stack != [] && s.updates > 0
  {
    if !s.flushing && s.updates == 1 then s.(flushing := true, stack := Pop(s.stack) + [Flush])
    else s.(updates := s.updates - 1, stack := Pop(s.stack))
  }

  /** The ids below `n` of the subscribers of one emitter, in order. */
  function IdsFor(subs: map<SubId, Sub>, key: SetKey, n: SubId): seq<SubId> {
    if n == 0 then []
    else
      var earlier := IdsFor(subs, key, n - 1);
      if n - 1 in subs && subs[n - 1].key == key then earlier + [n - 1] else earlier
  }

  /** Starts `retain` for an emitter, if it has subscribers. */
  function StartDispatch(s: State, effect: Effect, key: SetKey): State {
    var ids := IdsFor(s.subs, key, s.nextId);
    if ids == [] then s
    else
      var held := map i | i in s.subs && s.subs[i].key == key :: s.subs[i];
      s.(subs := map i | i in s.subs && s.subs[i].key != key :: s.subs[i],
         out := Some(Dispatch(effect, key, held, ids, None, true)),
         stack := s.stack + [Dispatching])
  }

  predicate OwnedBy(key: SetKey, e: Entity) {
    key == ObserversOf(e) || key == ListenersOf(e)
  }

  /** One turn of the flush loop. */
  function FlushTurn(s: State): State
    requires s.stack != [] && s.updates > 0
  {
    if s.toRelease != [] then
      var e := s.toRelease[0];
      s.(toRelease := s.toRelease[1..], subs := map i | i in s.subs && !OwnedBy(s.subs[i].key, e) :: s.subs[i])
    else if s.queue == [] then
      s.(flushing := false, updates := s.updates - 1, stack := Pop(s.stack))
    else
      var rest := s.(queue := s.queue[1..]);
      match s.queue[0]
      case NotifyEffect(e) =>
        StartDispatch(rest.(notifications := s.notifications - {e}), s.queue[0], ObserversOf(e))
      case EmitEffect(e, _, _) => StartDispatch(rest, s.queue[0], ListenersOf(e))
      case RefreshEffect => rest
      case NotifyGlobalEffect(t) =>
        StartDispatch(rest.(globalNotifications := s.globalNotifications - {t}), s.queue[0], GlobalObservers(t))
      case DeferEffect(Script(script)) => rest.(stack := s.stack + [Run(script)])
      case DeferEffect(Activate(id)) =>
        if id in s.subs then rest.(subs := s.subs[id := s.subs[id].(active := true)]) else rest
  }

  predicate Wants(sub: Sub, effect: Effect) {
    sub.active && (effect.EmitEffect? ==> sub.eventType == effect.eventType)
  }

  predicate Released(key: SetKey, released: set<Entity>) {
    (key.ObserversOf? || key.ListenersOf?) && key.entity in released
  }

  /** A callback returned: its subscriber stays or goes. */
  function Settle(s: State, d: Dispatch): State
    requires d.current.Some?
  {
    var i := d.current.value;
    if i in d.held && d.held[i].Next().keep
    then s.(out := Some(d.(current := None, held := d.held[i := d.held[i].Called()])))
    else s.(out := Some(d.(current := None, held := d.held - {i})))
  }

  /** The survivors go back, next to subscribers added meanwhile; noted drops take effect. */
  function EndDispatch(s: State, d: Dispatch): State
    requires s.stack != []
  {
    s.(subs := (s.subs + d.held) - s.dropped, dropped := {}, out := None, stack := Pop(s.stack))
  }

  function WithDelivered(ledger: map<SubId, Ledger>, i: SubId, effect: Effect): map<SubId, Ledger> {
    if effect.EmitEffect? && i in ledger
    then ledger[i := ledger[i].(delivered := ledger[i].delivered + [effect.event])]
    else ledger
  }

  /** The subscriber whose turn it is gets called. */
  predicate Callable(s: State, d: Dispatch)
    requires d.rest != []
  {
    d.rest[0] in d.held && Wants(d.held[d.rest[0]], d.effect) && !Released(d.key, s.released)
  }

  /** The subscriber whose turn it is has lost its entity, and goes. */
  predicate LetGo(s: State, d: Dispatch)
    requires d.rest != []
  {
    d.rest[0] in d.held && Wants(d.held[d.rest[0]], d.effect) && Released(d.key, s.released)
  }

  /** The next subscriber is called, unless it is inert, waits for another event type, or its
      entity is gone, in which case its callback returns false at once. */
  function Visit(s: State, d: Dispatch): State
    requires d.rest != []
  {
    var i := d.rest[0];
    var next := d.(rest := d.rest[1..]);
    if i !in d.held || !Wants(d.held[i], d.effect) then s.(out := Some(next))
    else if Released(d.key, s.released) then s.(out := Some(next.(held := d.held - {i})))
    else s.(out := Some(next.(current := Some(i))), stack := s.stack + [Run(d.held[i].Next().script)],
            ledger := WithDelivered(s.ledger, i, d.effect))
  }

  /** One turn of `retain`. */
  function DispatchTurn(s: State): State
    requires s.stack != [] && s.out.Some?
  {
    var d := s.out.value;
    if d.current.Some? then Settle(s, d)
    else if d.rest == [] then EndDispatch(s, d)
    else Visit(s, d)
  }

  /** One step of whatever is on top of the control stack. */
  function Step(s: State): State
    requires s.stack != [] && s.updates > 0 && (s.stack[|s.stack| - 1].Dispatching? ==> s.out.Some?)
  {
    match s.stack[|s.stack| - 1]
    case Run(ops) =>
      if ops == [] then s.(stack := Pop(s.stack))
      else Exec(s.(stack := Pop(s.stack) + [Run(ops[1..])]), ops[0])
    case Finish => FinishUpdate(s)
    case Flush => FlushTurn(s)
    case Dispatching => DispatchTurn(s)
  }

  /** The outside world calls `update` while nothing is running. */
  function Begin(s: State, script: seq<Op>): State {
    s.(updates := s.updates + 1, stack := [Finish, Run(script)])
  }

  ghost predicate Next(s: State, s': State) {
    if s.stack == [] then exists script :: s' == Begin(s, script)
    else s.updates > 0 && (s.stack[|s.stack| - 1].Dispatching? ==> s.out.Some?) && s' == Step(s)
  }

  ghost predicate IsRun(states: seq<State>) {
    && states != [] && states[0] == INITIAL
    && forall i :: 0 < i < |states| ==> Next(states[i - 1], states[i])
  }

  // ---- The invariant: control ----

  function OpenUpdates(stack: seq<Frame>): nat {
    if stack == [] then 0
    else OpenUpdates(Pop(stack)) + if stack[|stack| - 1] in {Finish, Flush} then 1 else 0
  }

  /** The outermost update is at the bottom; only it ever flushes, and a dispatch sits directly
      on the flush loop. */
  ghost predicate Control(s: State) {
    && (s.stack != [] ==> s.stack[0] in {Finish, Flush})
    && (forall i :: 0 < i < |s.stack| ==> s.stack[i] != Flush)
    && (forall i :: 0 <= i < |s.stack| ==> s.stack[i].Dispatching? ==> i == 1 && s.stack[0] == Flush)
    && (s.out.Some? <==> |s.stack| > 1 && s.stack[1].Dispatching?)
    && s.updates == OpenUpdates(s.stack)
    && (s.flushing <==> s.stack != [] && s.stack[0] == Flush)
    && (s.stack == [] ==> s.queue == [] && s.toRelease == [])
  }

  // ---- The invariant: the queue ----

  /** The pending sets are exactly the targets of the queued notifications, each queued once. */
  ghost predicate Queued(s: State) {
    && (forall e :: e in s.notifications <==> NotifyEffect(e) in s.queue)
    && (forall t :: t in s.globalNotifications <==> NotifyGlobalEffect(t) in s.queue)
    && (forall i, j :: 0 <= i < j < |s.queue| && Coalesces(s.queue[i]) ==> s.queue[i] != s.queue[j])
    && (forall i: SubId :: DeferEffect(Activate(i)) in s.queue ==> i < s.nextId)
  }

  predicate Coalesces(effect: Effect) {
    effect.NotifyEffect? || effect.NotifyGlobalEffect?
  }

  // ---- The invariant: subscribers ----

  ghost predicate SubsOk(s: State) {
    && (forall i | i in s.subs :: i < s.nextId)
    && (forall i | i in s.ledger :: i < s.nextId)
    && (forall i | i in s.handles :: i < s.nextId && (i in s.subs ==> s.subs[i].key == s.handles[i]))
    && (forall i | i in s.dropped :: i < s.nextId && i !in s.handles)
    && (forall e | e in s.toRelease :: e in s.released)
    && (s.out.Some? ==> DispatchOk(s, s.out.value))
    && (s.out == None ==> s.dropped == {})
  }

  /** Whose subscribers an effect is for. */
  function AudienceOf(effect: Effect): Option<SetKey> {
    match effect
    case NotifyEffect(e) => Some(ObserversOf(e))
    case EmitEffect(e, _, _) => Some(ListenersOf(e))
    case NotifyGlobalEffect(t) => Some(GlobalObservers(t))
    case _ => None
  }

  ghost predicate DispatchOk(s: State, d: Dispatch) {
    && (forall i | i in d.held :: i < s.nextId && i !in s.subs && d.held[i].key == d.key)
    && (forall i | i in d.held && i in s.handles :: s.handles[i] == d.key)
    && (forall i | i in d.rest :: i in d.held && d.current != Some(i))
    && (forall i, j :: 0 <= i < j < |d.rest| ==> d.rest[i] != d.rest[j])
    && (d.current.Some? ==> d.current.value in d.held)
    && AudienceOf(d.effect) == Some(d.key)
  }

  // ---- The invariant: what each listener is owed ----

  predicate Match(key: SetKey, t: TypeId, effect: Effect) {
    effect.EmitEffect? && key == ListenersOf(effect.emitter) && t == effect.eventType
  }

  /** The events of a listener in a queue, in order. */
  function Matching(key: SetKey, t: TypeId, queue: seq<Effect>): seq<Event> {
    if queue == [] then []
    else if Match(key, t, queue[0]) then [queue[0].event] + Matching(key, t, queue[1..])
    else Matching(key, t, queue[1..])
  }

  /** The events of a listener queued behind its activation. */
  function AfterActivation(key: SetKey, t: TypeId, queue: seq<Effect>, id: SubId): seq<Event> {
    if queue == [] then []
    else if queue[0] == DeferEffect(Activate(id)) then Matching(key, t, queue[1..])
    else AfterActivation(key, t, queue[1..], id)
  }

  function Find(s: State, id: SubId): Option<Sub> {
    if id in s.subs then Some(s.subs[id])
    else if s.out.Some? && id in s.out.value.held then Some(s.out.value.held[id])
    else None
  }

  /** The event being dispatched, if it is still to reach this listener. */
  function InFlight(s: State, id: SubId, l: Ledger, sub: Sub): seq<Event> {
    if s.out.Some? && id in s.out.value.rest && sub.active && Match(l.key, l.eventType, s.out.value.effect)
    then [s.out.value.effect.event] else []
  }

  function Ahead(s: State, id: SubId, l: Ledger, sub: Sub): seq<Event> {
    if sub.active then Matching(l.key, l.eventType, s.queue) else AfterActivation(l.key, l.eventType, s.queue, id)
  }

  /** A listener in place: subscribed, its subscription not dropped, its entity alive. */
  predicate Steady(s: State, id: SubId) {
    id in s.ledger && id in s.handles && Find(s, id).Some? && !Released(s.ledger[id].key, s.released)
  }

  ghost predicate LedgerOk(s: State, id: SubId)
    requires id in s.ledger
  {
    var l := s.ledger[id];
    && l.key.ListenersOf?
    && Find(s, id).Some?
    && var sub := Find(s, id).value;
       && sub.key == l.key && sub.eventType == l.eventType
       && (!sub.active ==> DeferEffect(Activate(id)) in s.queue)
       && l.due == l.delivered + InFlight(s, id, l, sub) + Ahead(s, id, l, sub)
  }

  ghost predicate Ledgers(s: State) {
    forall id | Steady(s, id) :: LedgerOk(s, id)
  }

  ghost predicate Inv(s: State) {
    Control(s) && Queued(s) && SubsOk(s) && Ledgers(s)
  }
}
