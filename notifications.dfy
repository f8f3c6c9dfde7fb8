/**
 * The notification bell (frontend/src/components/NotificationSystem.tsx):
 * a list of notifications, newest first, and an `unreadCount` counter the
 * handlers keep by hand rather than recomputing it. The model proves that
 * the counter and the list agree after every handler.
 *
 * The fixture notifications per user type, the 30-second timer, the random
 * choice of template and the sound are outside the model: the initial list,
 * the template, the new id and the clock are parameters.
 */
module Notifications {
  import opened Common

  datatype Priority = Low | Medium | High | Urgent

  datatype Notification = Notification(
    id: string, kind: string, title: string, message: string, timestamp: int,
    read: bool, priority: Priority, userType: string)

  /** A template of `addRandomNotification`; every template is unread. */
  datatype Template = Template(kind: string, title: string, message: string, priority: Priority, userType: string)

  /** The tab of the panel. */
  datatype View = All | UnreadOnly | HighPriority

  predicate Unread(n: Notification) {
    !n.read
  }

  /** `n => n.id === id && !n.read`. */
  function UnreadWith(id: string): Notification -> bool {
    (n: Notification) => n.id == id && !n.read
  }

  function WithId(id: string): Notification -> bool {
    (n: Notification) => n.id == id
  }

  /** `n => n.id !== id`. */
  function NotId(id: string): Notification -> bool {
    (n: Notification) => n.id != id
  }

  predicate DifferentIds(a: Notification, b: Notification) {
    a.id != b.id
  }

  predicate UniqueIds(ns: seq<Notification>) {
    Pairwise(ns, DifferentIds)
  }

  /** `markAsRead` on the list: every notification with the id is read. */
  function MarkRead(ns: seq<Notification>, id: string): (r: seq<Notification>)
    ensures |r| == |ns|
    ensures forall i :: 0 <= i < |ns| ==> r[i] == (if ns[i].id == id then ns[i].(read := true) else ns[i])
  {
    if ns == [] then []
    else [if ns[0].id == id then ns[0].(read := true) else ns[0]] + MarkRead(ns[1..], id)
  }

  /** `markAllAsRead` on the list. */
  function MarkAllRead(ns: seq<Notification>): (r: seq<Notification>)
    ensures |r| == |ns|
    ensures forall i :: 0 <= i < |ns| ==> r[i] == ns[i].(read := true)
  {
    if ns == [] then [] else [ns[0].(read := true)] + MarkAllRead(ns[1..])
  }

  /** Marking an id read removes exactly its unread notifications from the
    * unread count. */
  lemma {:induction false} MarkReadCount(ns: seq<Notification>, id: string)
    ensures Count(MarkRead(ns, id), Unread) + Count(ns, UnreadWith(id)) == Count(ns, Unread)
  {
    if ns != [] {
      MarkReadCount(ns[1..], id);
      assert MarkRead(ns, id)[1..] == MarkRead(ns[1..], id);
    }
  }

  /** Deleting an id removes exactly its unread notifications from the
    * unread count. */
  lemma {:induction false} RemoveCount(ns: seq<Notification>, id: string)
    ensures Count(Filter(ns, NotId(id)), Unread) + Count(ns, UnreadWith(id)) == Count(ns, Unread)
  {
    if ns != [] {
      RemoveCount(ns[1..], id);
      var head := if NotId(id)(ns[0]) then [ns[0]] else [];
      CountAppend(head, Filter(ns[1..], NotId(id)), Unread);
      if head != [] {
        assert head[1..] == [];
      }
    }
  }

  /** After marking everything read nothing is unread. */
  lemma {:induction false} MarkAllReadCount(ns: seq<Notification>)
    ensures Count(MarkAllRead(ns), Unread) == 0
  {
    if ns != [] {
      MarkAllReadCount(ns[1..]);
      assert MarkAllRead(ns)[1..] == MarkAllRead(ns[1..]);
    }
  }

  /** With unique ids an id names at most one notification. */
  lemma {:induction false} AtMostOneWithId(ns: seq<Notification>, id: string)
    requires UniqueIds(ns)
    ensures Count(ns, WithId(id)) <= 1
  {
    if ns != [] {
      assert UniqueIds(ns[1..]) by {
        forall i, j | 0 <= i < j < |ns[1..]| ensures DifferentIds(ns[1..][i], ns[1..][j]) {
          assert ns[1..][i] == ns[i + 1] && ns[1..][j] == ns[j + 1];
        }
      }
      AtMostOneWithId(ns[1..], id);
      if ns[0].id == id {
        forall i | 0 <= i < |ns[1..]| ensures !WithId(id)(ns[1..][i]) {
          assert DifferentIds(ns[0], ns[i + 1]);
        }
        CountPositive(ns[1..], WithId(id));
      }
    }
  }

  /** With unique ids, the unread notifications with an id number one when
    * that notification is there and unread, and none otherwise. */
  lemma UnreadWithCount(ns: seq<Notification>, id: string)
    requires UniqueIds(ns)
    ensures Count(ns, UnreadWith(id)) ==
      if exists k :: 0 <= k < |ns| && ns[k].id == id && !ns[k].read then 1 else 0
  {
    AtMostOneWithId(ns, id);
    CountMonotone(ns, UnreadWith(id), WithId(id));
    CountPositive(ns, UnreadWith(id));
  }

  /** Marking read and deleting keep the ids unique. */
  lemma KeepsUniqueIds(ns: seq<Notification>, id: string)
    requires UniqueIds(ns)
    ensures UniqueIds(MarkRead(ns, id)) && UniqueIds(MarkAllRead(ns)) && UniqueIds(Filter(ns, NotId(id)))
  {
    FilterPairwise(ns, NotId(id), DifferentIds);
    var m := MarkRead(ns, id);
    forall i, j | 0 <= i < j < |m| ensures DifferentIds(m[i], m[j]) {
      assert DifferentIds(ns[i], ns[j]);
    }
    var a := MarkAllRead(ns);
    forall i, j | 0 <= i < j < |a| ensures DifferentIds(a[i], a[j]) {
      assert DifferentIds(ns[i], ns[j]);
    }
  }

  function FromTemplate(t: Template, id: string, now: int): Notification {
    Notification(id, t.kind, t.title, t.message, now, false, t.priority, t.userType)
  }

  function ShownBy(view: View): Notification -> bool {
    (n: Notification) =>
      match view
      case UnreadOnly => !n.read
      case HighPriority => n.priority == High || n.priority == Urgent
      case All => true
  }

  /** `filteredNotifications`. */
  function Shown(ns: seq<Notification>, view: View): seq<Notification> {
    Filter(ns, ShownBy(view))
  }

  /** The unread tab holds exactly the unread notifications, the priority
    * tab exactly the high and urgent ones, and the first tab everything;
    * the unread tab is as long as the unread count. */
  lemma ShownSpec(ns: seq<Notification>, view: View)
    ensures forall n :: n in Shown(ns, view) <==>
      n in ns && match view
        case UnreadOnly => !n.read
        case HighPriority => n.priority in {High, Urgent}
        case All => true
    ensures Shown(ns, All) == ns
    ensures |Shown(ns, UnreadOnly)| == Count(ns, Unread)
  {
    forall n ensures n in Shown(ns, view) <==> n in ns && ShownBy(view)(n) {
      FilterMembership(ns, ShownBy(view), n);
    }
    FilterKeepsAll(ns, ShownBy(All));
    CountBounded(ns, ShownBy(UnreadOnly));
    CountSame(ns, ShownBy(UnreadOnly), Unread);
  }

  /** Two tests that agree everywhere count the same. */
  lemma {:induction false} CountSame(ns: seq<Notification>, p: Notification -> bool, q: Notification -> bool)
    requires forall n :: p(n) == q(n)
    ensures Count(ns, p) == Count(ns, q)
  {
    CountMonotone(ns, p, q);
    CountMonotone(ns, q, p);
  }

  class NotificationSystem {
    var notifications: seq<Notification>
    var unreadCount: int

    /** The counter is the number of unread notifications, and ids are
      * unique. */
    predicate Valid()
      reads this
    {
      unreadCount == Count(notifications, Unread) && UniqueIds(notifications)
    }

    /** The mount effect: the user type's notifications and their unread
      * count. */
    constructor (initial: seq<Notification>)
      ensures notifications == initial && unreadCount == Count(initial, Unread)
      ensures UniqueIds(initial) ==> Valid()
    {
      notifications := initial;
      unreadCount := Count(initial, Unread);
    }

    /** `addRandomNotification`: an unread notification made from the
      * template goes first and the counter goes up by one. */
    method AddNotification(t: Template, id: string, now: int)
      modifies this
      ensures notifications == [FromTemplate(t, id, now)] + old(notifications)
      ensures unreadCount == old(unreadCount) + 1
      ensures old(Valid()) && (forall k :: 0 <= k < |old(notifications)| ==> old(notifications)[k].id != id) ==> Valid()
    {
      var n := FromTemplate(t, id, now);
      ghost var before := notifications;
      notifications := [n] + notifications;
      unreadCount := unreadCount + 1;
      assert notifications[1..] == before;
      forall i, j | 0 <= i < j < |notifications| && (forall k :: 0 <= k < |before| ==> before[k].id != id)
                    && UniqueIds(before)
        ensures DifferentIds(notifications[i], notifications[j])
      {
        if i > 0 {
          assert DifferentIds(before[i - 1], before[j - 1]);
        }
      }
    }

    /** `markAsRead`, called from a click on an unread notification: it is
      * marked read and the counter drops by one, never below 0. */
    method MarkAsRead(id: string)
      requires Valid()
      requires exists k :: 0 <= k < |notifications| && notifications[k].id == id && !notifications[k].read
      modifies this
      ensures notifications == MarkRead(old(notifications), id)
      ensures unreadCount == if old(unreadCount) - 1 > 0 then old(unreadCount) - 1 else 0
      ensures unreadCount == old(unreadCount) - 1
      ensures Valid()
    {
      MarkReadCount(notifications, id);
      UnreadWithCount(notifications, id);
      KeepsUniqueIds(notifications, id);
      notifications := MarkRead(notifications, id);
      unreadCount := if unreadCount - 1 > 0 then unreadCount - 1 else 0;
    }

    /** `deleteNotification`: the counter drops only when the first
      * notification with the id was unread. */
    method DeleteNotification(id: string)
      requires Valid()
      modifies this
      ensures notifications == Filter(old(notifications), NotId(id))
      ensures var k := FirstIndex(old(notifications), WithId(id));
        unreadCount == if k.Some? && !old(notifications)[k.value].read && old(unreadCount) - 1 > 0
                       then old(unreadCount) - 1
                       else if k.Some? && !old(notifications)[k.value].read then 0
                       else old(unreadCount)
      ensures Valid()
    {
      var k := FirstIndex(notifications, WithId(id));
      RemoveCount(notifications, id);
      UnreadWithCount(notifications, id);
      KeepsUniqueIds(notifications, id);
      if k.Some? && !notifications[k.value].read {
        assert UnreadWith(id)(notifications[k.value]);
      }
      var found := k.Some? && !notifications[k.value].read;
      notifications := Filter(notifications, NotId(id));
      if found {
        unreadCount := if unreadCount - 1 > 0 then unreadCount - 1 else 0;
      }
    }

    /** `markAllAsRead`. */
    method MarkAllAsRead()
      requires UniqueIds(notifications)
      modifies this
      ensures notifications == MarkAllRead(old(notifications))
      ensures unreadCount == 0
      ensures Valid()
    {
      MarkAllReadCount(notifications);
      KeepsUniqueIds(notifications, "");
      notifications := MarkAllRead(notifications);
      unreadCount := 0;
    }
  }
}
