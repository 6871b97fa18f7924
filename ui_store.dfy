/**
 * The UI store (`useUIStore`): the sidebar flag, the theme name and the
 * notification queue. The clock read `Date.now()` is a parameter.
 */
module UI {
  import opened Js
  import opened Records

  /**
   * `{ id: now, ...notification }`: the payload's own properties over an `id`
   * taken from the clock, so an `id` in the payload wins.
   */
  function Stamp(notification: Obj, now: int): (r: Obj)
    ensures r.Keys == notification.Keys + {"id"}
    ensures IdOf(r) == if "id" in notification then notification["id"] else Num(now)
    ensures forall k :: k in notification ==> r[k] == notification[k]
  {
    Spread(map["id" := Num(now)], notification)
  }

  class UIStore {
    var sidebarOpen: bool
    var theme: string
    var notifications: seq<Obj>

    /** The initial preferences: sidebar open, light theme, no notifications. */
    constructor ()
      ensures sidebarOpen && theme == "light" && notifications == []
    {
      sidebarOpen, theme, notifications := true, "light", [];
    }

    /** `toggleSidebar`: the flag is negated; nothing else changes. */
    method ToggleSidebar()
      modifies this
      ensures sidebarOpen == !old(sidebarOpen)
      ensures theme == old(theme) && notifications == old(notifications)
    {
      sidebarOpen := !sidebarOpen;
    }

    /** `setTheme`: only the theme changes. */
    method SetTheme(t: string)
      modifies this
      ensures theme == t
      ensures sidebarOpen == old(sidebarOpen) && notifications == old(notifications)
    {
      theme := t;
    }

    /** `addNotification`: exactly one stamped entry is appended at the end. */
    method AddNotification(notification: Obj, now: int)
      modifies this
      ensures notifications == old(notifications) + [Stamp(notification, now)]
      ensures sidebarOpen == old(sidebarOpen) && theme == old(theme)
    {
      notifications := notifications + [Stamp(notification, now)];
    }

    /** `removeNotification`: entries with the id are dropped; the rest keep their order. */
    method RemoveNotification(id: Value)
      modifies this
      ensures notifications == WithoutId(old(notifications), id)
      ensures sidebarOpen == old(sidebarOpen) && theme == old(theme)
    {
      notifications := WithoutId(notifications, id);
    }

    /** `clearNotifications`: the queue is emptied. */
    method ClearNotifications()
      modifies this
      ensures notifications == []
      ensures sidebarOpen == old(sidebarOpen) && theme == old(theme)
    {
      notifications := [];
    }
  }

  /**
   * Appending a stamped notification keeps ids unique exactly when the id it
   * receives is not already in the queue; the clock alone decides this when
   * the payload has no `id`.
   */
  lemma StampKeepsUnique(queue: seq<Obj>, notification: Obj, now: int)
    requires UniqueIds(queue)
    requires "id" !in notification
    ensures UniqueIds(queue + [Stamp(notification, now)]) <==>
      forall i :: 0 <= i < |queue| ==> IdOf(queue[i]) != Num(now)
  {
    var q := queue + [Stamp(notification, now)];
    if forall i :: 0 <= i < |queue| ==> IdOf(queue[i]) != Num(now) {
      forall i, j | 0 <= i < j < |q| ensures IdOf(q[i]) != IdOf(q[j]) {
        assert q[i] == queue[i];
        if j < |queue| {
          assert q[j] == queue[j];
        }
      }
    } else {
      var i :| 0 <= i < |queue| && IdOf(queue[i]) == Num(now);
      assert q[i] == queue[i] && IdOf(q[|queue|]) == Num(now);
    }
  }

  /** Two notifications stamped in the same millisecond share an id. */
  lemma SameClockSameId(a: Obj, b: Obj, now: int)
    requires "id" !in a && "id" !in b
    ensures !UniqueIds([Stamp(a, now), Stamp(b, now)])
  {
    assert IdOf([Stamp(a, now), Stamp(b, now)][0]) == IdOf([Stamp(a, now), Stamp(b, now)][1]);
  }

  /**
   * Two notifications added at different clock readings get distinct ids in
   * insertion order, and removing the first by its id leaves only the second.
   */
  lemma TwoNotifications(a: Obj, b: Obj, t1: int, t2: int)
    requires "id" !in a && "id" !in b
    requires t1 != t2
    ensures var q := [] + [Stamp(a, t1)] + [Stamp(b, t2)];
      UniqueIds(q) && IdOf(q[0]) == Num(t1) && IdOf(q[1]) == Num(t2) &&
      WithoutId(q, Num(t1)) == [Stamp(b, t2)]
  {
    var q := [Stamp(a, t1), Stamp(b, t2)];
    assert [] + [Stamp(a, t1)] + [Stamp(b, t2)] == q;
    assert WithoutId([Stamp(b, t2)], Num(t1)) == [Stamp(b, t2)];
  }

  /** A caller that toggles the sidebar twice sees every field as it was. */
  method ToggleSidebarTwice(ui: UIStore)
    modifies ui
    ensures ui.sidebarOpen == old(ui.sidebarOpen) && ui.theme == old(ui.theme) && ui.notifications == old(ui.notifications)
  {
    ui.ToggleSidebar();
    ui.ToggleSidebar();
  }
}
