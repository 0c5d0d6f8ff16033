/** Which windows show which entities, in both directions, and the notifications sent along. */
module WindowIndex {
  import opened Effects

  type WindowId = nat

  /** The invalidation state that a window shares with the application. */
  datatype Invalidation = Invalidation(drawing: bool, dirty: bool, dirtyViews: set<Entity>, updateCount: nat)

  /** A new window is dirty, so that it is drawn once. */
  const FRESH := Invalidation(false, true, {}, 0)

  /** What `invalidate_view` does to one window. */
  function Invalidated(v: Invalidation, e: Entity): Invalidation {
    v.(updateCount := v.updateCount + 1, dirtyViews := v.dirtyViews + {e}, dirty := v.dirty || !v.drawing)
  }

  /** One window was told about the entity: the view is marked and the update counted, and the
      window is to be drawn again unless it is being drawn. */
  predicate Told(before: Invalidation, now: Invalidation, e: Entity) {
    && now.updateCount == before.updateCount + 1
    && now.dirtyViews == before.dirtyViews + {e}
    && (now.dirty <==> before.dirty || !before.drawing)
    && now.drawing == before.drawing
  }

  predicate Tracks(tracked: map<WindowId, set<Entity>>, w: WindowId, e: Entity) {
    w in tracked && e in tracked[w]
  }

  predicate Invalidates(invalidators: map<Entity, set<WindowId>>, e: Entity, w: WindowId) {
    e in invalidators && w in invalidators[e]
  }

  /** The two directions of the index agree. */
  ghost predicate Agree(tracked: map<WindowId, set<Entity>>, invalidators: map<Entity, set<WindowId>>) {
    forall w, e :: Tracks(tracked, w, e) <==> Invalidates(invalidators, e, w)
  }

  class AppIndex {
    var trackedEntities: map<WindowId, set<Entity>>
    var invalidatorsByEntity: map<Entity, set<WindowId>>
    var windows: map<WindowId, Invalidation>
    /** The application's effect queue, and the set that keeps notifications from being queued
        twice. */
    var pendingEffects: seq<Effect>
    var pendingNotifications: set<Entity>

    ghost predicate Valid()
      reads this
    {
      && Agree(trackedEntities, invalidatorsByEntity)
      && (forall e, w :: Invalidates(invalidatorsByEntity, e, w) ==> w in windows)
      && QueueOk(pendingEffects, pendingNotifications)
    }

    constructor ()
      ensures Valid() && trackedEntities == map[] && pendingEffects == []
    {
      trackedEntities, invalidatorsByEntity, windows := map[], map[], map[];
      pendingEffects, pendingNotifications := [], {};
    }

    /** A window enters or leaves a draw phase; the index and the other windows stay as they are. */
    method SetPhase(w: WindowId, drawing: bool)
      requires Valid()
      modifies this`windows
      ensures Valid()
      ensures windows == old(windows)[w := (if w in old(windows) then old(windows)[w] else FRESH).(drawing := drawing)]
    {
      windows := windows[w := (if w in windows then windows[w] else FRESH).(drawing := drawing)];
    }

    /** Replaces what the index knows about one window by the entities it accessed last. */
    method RecordEntitiesAccessed(w: WindowId, entities: set<Entity>)
      requires Valid()
      modifies this`trackedEntities, this`invalidatorsByEntity, this`windows
      ensures Valid()
      ensures trackedEntities == old(trackedEntities)[w := entities]
      ensures w in windows && forall v | v in old(windows) :: v in windows && windows[v] == old(windows)[v]
    {
      if w !in windows {
        windows := windows[w := FRESH];
      }
      hide QueueOk;
      var tracked := if w in trackedEntities then trackedEntities[w] else {};
      trackedEntities := trackedEntities[w := {}];
      Forget(w, tracked);
      Remember(w, entities);
      trackedEntities := trackedEntities[w := entities];
    }

    /** Takes the window out of the entries of the given entities. */
    method Forget(w: WindowId, tracked: set<Entity>)
      modifies this`invalidatorsByEntity
      ensures forall e, v :: Invalidates(invalidatorsByEntity, e, v) <==>
                Invalidates(old(invalidatorsByEntity), e, v) && !(v == w && e in tracked)
    {
      var rest := tracked;
      while rest != {}
        invariant rest <= tracked
        invariant forall e, v :: Invalidates(invalidatorsByEntity, e, v) <==>
                    Invalidates(old(invalidatorsByEntity), e, v) && !(v == w && e in tracked - rest)
        decreases rest
      {
        var e :| e in rest;
        ghost var prior, seen := invalidatorsByEntity, tracked - rest;
        rest := rest - {e};
        assert tracked - rest == seen + {e};
        if e in invalidatorsByEntity {
          invalidatorsByEntity := invalidatorsByEntity[e := invalidatorsByEntity[e] - {w}];
        }
        assert forall f, v :: Invalidates(invalidatorsByEntity, f, v) <==>
               Invalidates(prior, f, v) && !(v == w && f == e);
      }
    }

    /** Puts the window into the entries of the given entities. */
    method Remember(w: WindowId, entities: set<Entity>)
      modifies this`invalidatorsByEntity
      ensures forall e, v :: Invalidates(invalidatorsByEntity, e, v) <==>
                Invalidates(old(invalidatorsByEntity), e, v) || (v == w && e in entities)
    {
      var rest := entities;
      while rest != {}
        invariant rest <= entities
        invariant forall e, v :: Invalidates(invalidatorsByEntity, e, v) <==>
                    Invalidates(old(invalidatorsByEntity), e, v) || (v == w && e in entities - rest)
        decreases rest
      {
        var e :| e in rest;
        ghost var prior, seen := invalidatorsByEntity, entities - rest;
        rest := rest - {e};
        assert entities - rest == seen + {e};
        var present := if e in invalidatorsByEntity then invalidatorsByEntity[e] else {};
        invalidatorsByEntity := invalidatorsByEntity[e := present + {w}];
        assert forall f, v :: Invalidates(invalidatorsByEntity, f, v) <==>
               Invalidates(prior, f, v) || (v == w && f == e);
      }
    }

    /** Tells every window that shows the entity, or queues a plain notification if none does.
        The entity's windows are taken out of the index meanwhile, and put back. */
    method NotifyEntity(e: Entity)
      requires Valid()
      modifies this
      ensures Valid() && trackedEntities == old(trackedEntities)
      ensures forall f, w :: Invalidates(invalidatorsByEntity, f, w) <==> Invalidates(old(invalidatorsByEntity), f, w)
      ensures windows.Keys == old(windows).Keys
      ensures forall w | w in windows ::
                windows[w] == if Invalidates(old(invalidatorsByEntity), e, w)
                  then Invalidated(old(windows)[w], e) else old(windows)[w]
      ensures forall w | w in windows && Invalidates(old(invalidatorsByEntity), e, w) ::
                Told(old(windows)[w], windows[w], e)
      ensures pendingEffects ==
                if NotifyEffect(e) in old(pendingEffects) || AllDrawing(old(invalidatorsByEntity), old(windows), e)
                then old(pendingEffects) else old(pendingEffects) + [NotifyEffect(e)]
    {
      hide QueueOk, PushEffect;
      var taken := if e in invalidatorsByEntity then invalidatorsByEntity[e] else {};
      invalidatorsByEntity := invalidatorsByEntity[e := {}];
      if taken == {} {
        PushNotify(e);
      } else {
        var rest := taken;
        while rest != {}
          invariant rest <= taken && trackedEntities == old(trackedEntities)
          invariant invalidatorsByEntity == old(invalidatorsByEntity)[e := {}]
          invariant windows.Keys == old(windows).Keys
          invariant forall w | w in windows ::
                      windows[w] == if w in taken - rest then Invalidated(old(windows)[w], e) else old(windows)[w]
          invariant QueueOk(pendingEffects, pendingNotifications)
          invariant pendingEffects ==
                      if || NotifyEffect(e) in old(pendingEffects)
                         || (forall w | w in taken - rest :: w in old(windows) && old(windows)[w].drawing)
                      then old(pendingEffects) else old(pendingEffects) + [NotifyEffect(e)]
          decreases rest
        {
          var w :| w in rest;
          assert Invalidates(old(invalidatorsByEntity), e, w);
          rest := rest - {w};
          InvalidateView(w, e);
        }
      }
      invalidatorsByEntity := invalidatorsByEntity[e := taken];
      assert forall f, w :: Invalidates(invalidatorsByEntity, f, w) <==> Invalidates(old(invalidatorsByEntity), f, w);
    }

    /** Marks the view as dirty in one window and, unless that window is drawing, queues a
        notification. */
    method InvalidateView(w: WindowId, e: Entity)
      requires QueueOk(pendingEffects, pendingNotifications) && w in windows
      modifies this`windows, this`pendingEffects, this`pendingNotifications
      ensures QueueOk(pendingEffects, pendingNotifications)
      ensures windows == old(windows)[w := Invalidated(old(windows)[w], e)] && Told(old(windows)[w], windows[w], e)
      ensures pendingEffects ==
                if NotifyEffect(e) in old(pendingEffects) || old(windows)[w].drawing
                then old(pendingEffects) else old(pendingEffects) + [NotifyEffect(e)]
    {
      hide QueueOk, PushEffect;
      var drawing := windows[w].drawing;
      windows := windows[w := Invalidated(windows[w], e)];
      if !drawing {
        PushNotify(e);
      }
    }

    /** Queues a notification unless the same one is queued already. */
    method PushNotify(e: Entity)
      requires QueueOk(pendingEffects, pendingNotifications)
      modifies this`pendingEffects, this`pendingNotifications
      ensures QueueOk(pendingEffects, pendingNotifications)
      ensures pendingEffects ==
                if NotifyEffect(e) in old(pendingEffects)
                  then old(pendingEffects) else old(pendingEffects) + [NotifyEffect(e)]
      ensures var s := PushEffect(INITIAL.(queue := old(pendingEffects), notifications := old(pendingNotifications)),
              NotifyEffect(e));
              pendingEffects == s.queue && pendingNotifications == s.notifications
    {
      if e !in pendingNotifications {
        pendingNotifications := pendingNotifications + {e};
        pendingEffects := pendingEffects + [NotifyEffect(e)];
      }
    }
  }

  /** The set holds exactly the targets of the queued notifications, each queued once. */
  ghost predicate QueueOk(effects: seq<Effect>, pending: set<Entity>) {
    && (forall e :: e in pending <==> NotifyEffect(e) in effects)
    && (forall i, j :: 0 <= i < j < |effects| && effects[i].NotifyEffect? ==> effects[i] != effects[j])
  }

  /** The entity is shown, but every window that shows it is drawing and will not be woken. */
  ghost predicate AllDrawing(
    invalidators: map<Entity, set<WindowId>>, windows: map<WindowId, Invalidation>, e: Entity)
  {
    && e in invalidators && invalidators[e] != {}
    && forall w | w in invalidators[e] :: w in windows && windows[w].drawing
  }
}
