/** The notification centre (src/components/notifications/NotificationPanel.tsx):
    a local list seeded with three sample notifications, an all/unread tab,
    read and unread toggles, deletion, "mark all as read" and a form that
    sends a manual notification. */
module NotificationPanel {
  import opened Wrappers
  import opened AppTypes
  import opened Seqs

  /** `NotificationFormData`. */
  datatype NotificationForm = NotificationForm(recipientId: string, message: string, kind: NotificationType)

  const EmptyForm := NotificationForm("", "", Reminder)

  /** The sender id of a manual notification, standing for the signed-in user. */
  const CurrentUserId := "1"
  const ManualTaskId := "manual"

  /** `mockNotifications`. Their dates are local wall-clock times, so the
      instant depends on `utcOffset`, the zone's offset in milliseconds. */
  function MockNotifications(utcOffset: int): seq<Notification> {
    [ Notification("1", "1", "3", "1", "ユーザー認証機能の実装がアサインされました",
                   Assignment, false, 1756634400000 - utcOffset),
      Notification("2", "2", "1", "2", "API ドキュメントの作成がレビュー待ちになりました",
                   StatusChange, true, 1756564200000 - utcOffset),
      Notification("3", "1", "system", "1", "ユーザー認証機能の実装の期限が近づいています（2025/09/05）",
                   DueDate, false, 1756630800000 - utcOffset) ]
  }

  function IsUnread(): Notification -> bool { (n: Notification) => !n.isRead }
  function IsRead(): Notification -> bool { (n: Notification) => n.isRead }

  /** `unreadCount`, shown on the badge and the second tab. */
  function UnreadCount(ns: seq<Notification>): (count: nat)
    ensures count <= |ns|
  {
    |Filter(ns, IsUnread())|
  }

  /** `filteredNotifications`: tab 0 shows everything, any other tab the unread ones. */
  function Visible(ns: seq<Notification>, activeTab: int): (r: seq<Notification>)
    ensures activeTab == 0 ==> r == ns
    ensures activeTab != 0 ==> |r| == UnreadCount(ns) && forall i :: 0 <= i < |r| ==> !r[i].isRead
  {
    if activeTab == 0 then ns else Filter(ns, IsUnread())
  }

  function SetReadIf(id: string, read: bool): Notification -> Notification {
    (n: Notification) => if n.id == id then n.(isRead := read) else n
  }

  /** The list after marking the notifications with `id` read (or unread). */
  function WithRead(ns: seq<Notification>, id: string, read: bool): (r: seq<Notification>)
    ensures |r| == |ns|
    ensures forall i :: 0 <= i < |ns| && ns[i].id == id ==> r[i] == ns[i].(isRead := read)
    ensures forall i :: 0 <= i < |ns| && ns[i].id != id ==> r[i] == ns[i]
  {
    Map(ns, SetReadIf(id, read))
  }

  /** The callback of `handleMarkAllAsRead`: sets the read flag and nothing else. */
  function MarkRead(): (f: Notification -> Notification)
    ensures forall n :: f(n).isRead && f(n).(isRead := n.isRead) == n
  {
    (n: Notification) => n.(isRead := true)
  }

  /** The list after `handleMarkAllAsRead`. */
  function AllRead(ns: seq<Notification>): (r: seq<Notification>)
    ensures |r| == |ns| && forall i :: 0 <= i < |ns| ==> r[i] == ns[i].(isRead := true)
  {
    Map(ns, MarkRead())
  }

  function IdIsNot(id: string): Notification -> bool { (n: Notification) => n.id != id }

  /** The notification `handleSendNotification` builds; `id` and `now` stand
      for `Date.now().toString()` and `new Date()`. */
  function NewNotification(form: NotificationForm, id: string, now: Instant): (n: Notification)
    ensures !n.isRead && n.senderId == CurrentUserId && n.taskId == ManualTaskId
    ensures n.recipientId == form.recipientId && n.message == form.message && n.kind == form.kind
    ensures n.id == id && n.createdAt == now
  {
    Notification(id, form.recipientId, CurrentUserId, ManualTaskId, form.message, form.kind, false, now)
  }

  class Panel {
    var notifications: seq<Notification>
    var activeTab: int
    var formOpen: bool
    var formData: NotificationForm

    constructor(utcOffset: int)
      ensures notifications == MockNotifications(utcOffset) && activeTab == 0
      ensures !formOpen && formData == EmptyForm
    {
      notifications := MockNotifications(utcOffset);
      activeTab := 0;
      formOpen := false;
      formData := EmptyForm;
    }

    /** The 全て既読にする button is shown iff something is unread. */
    function ShowsMarkAll(): (b: bool)
      reads this
      ensures b <==> exists i :: 0 <= i < |notifications| && !notifications[i].isRead
    {
      UnreadPositiveIff(notifications);
      UnreadCount(notifications) > 0
    }

    method SetActiveTab(tab: int)
      modifies this
      ensures activeTab == tab
      ensures notifications == old(notifications) && formOpen == old(formOpen) && formData == old(formData)
    {
      activeTab := tab;
    }

    /** The 手動通知送信 button (`open`) and the dialog's cancel or backdrop (`!open`). */
    method SetFormOpen(open: bool)
      modifies this
      ensures formOpen == open
      ensures notifications == old(notifications) && activeTab == old(activeTab) && formData == old(formData)
    {
      formOpen := open;
    }

    /** The dialog's three inputs. */
    method EditForm(form: NotificationForm)
      modifies this
      ensures formData == form
      ensures notifications == old(notifications) && activeTab == old(activeTab) && formOpen == old(formOpen)
    {
      formData := form;
    }

    method MarkAsRead(id: string)
      modifies this
      ensures notifications == WithRead(old(notifications), id, true)
      ensures activeTab == old(activeTab) && formOpen == old(formOpen) && formData == old(formData)
    {
      notifications := Map(notifications, SetReadIf(id, true));
    }

    method MarkAsUnread(id: string)
      modifies this
      ensures notifications == WithRead(old(notifications), id, false)
      ensures activeTab == old(activeTab) && formOpen == old(formOpen) && formData == old(formData)
    {
      notifications := Map(notifications, SetReadIf(id, false));
    }

    method Delete(id: string)
      modifies this
      ensures notifications == Filter(old(notifications), IdIsNot(id))
      ensures activeTab == old(activeTab) && formOpen == old(formOpen) && formData == old(formData)
    {
      notifications := Filter(notifications, IdIsNot(id));
    }

    /** Puts the new notification first, closes the dialog and clears the form. */
    method SendNotification(id: string, now: Instant)
      modifies this
      ensures notifications == [NewNotification(old(formData), id, now)] + old(notifications)
      ensures UnreadCount(notifications) == UnreadCount(old(notifications)) + 1
      ensures !formOpen && formData == EmptyForm && activeTab == old(activeTab)
    {
      notifications := [NewNotification(formData, id, now)] + notifications;
      SendAddsUnread(old(notifications), old(formData), id, now);
      formOpen := false;
      formData := EmptyForm;
    }

    method MarkAllAsRead()
      modifies this
      ensures notifications == AllRead(old(notifications))
      ensures UnreadCount(notifications) == 0 && !ShowsMarkAll()
      ensures activeTab == old(activeTab) && formOpen == old(formOpen) && formData == old(formData)
    {
      notifications := Map(notifications, MarkRead());
      MarkAllClearsUnread(old(notifications));
    }
  }

  /** Something is unread exactly when the unread count is positive. */
  lemma {:induction false} UnreadPositiveIff(ns: seq<Notification>)
    ensures UnreadCount(ns) > 0 <==> exists i :: 0 <= i < |ns| && !ns[i].isRead
  {
    var r := Filter(ns, IsUnread());
    if r != [] {
      FilterMembership(ns, IsUnread(), r[0]);
      var i :| 0 <= i < |ns| && ns[i] == r[0];
      assert !ns[i].isRead;
    }
    if exists i :: 0 <= i < |ns| && !ns[i].isRead {
      var i :| 0 <= i < |ns| && !ns[i].isRead;
      FilterMembership(ns, IsUnread(), ns[i]);
    }
  }

  lemma {:induction false} SendAddsUnread(ns: seq<Notification>, form: NotificationForm, id: string, now: Instant)
    ensures UnreadCount([NewNotification(form, id, now)] + ns) == UnreadCount(ns) + 1
  {
    assert ([NewNotification(form, id, now)] + ns)[1..] == ns;
  }

  /** After "mark all as read" nothing is unread and the button disappears. */
  lemma {:induction false} MarkAllClearsUnread(ns: seq<Notification>)
    ensures UnreadCount(AllRead(ns)) == 0
    ensures Visible(AllRead(ns), 1) == []
  {
    FilterKeepsNone(AllRead(ns), IsUnread());
  }

  /** Marking read twice is marking read once; likewise for unread. */
  lemma WithReadIdempotent(ns: seq<Notification>, id: string, read: bool)
    ensures WithRead(WithRead(ns, id, read), id, read) == WithRead(ns, id, read)
  {
  }

  /** Marking read and then unread restores a list whose notifications
      with that id were all unread. */
  lemma ReadThenUnreadRestores(ns: seq<Notification>, id: string)
    requires forall i :: 0 <= i < |ns| && ns[i].id == id ==> !ns[i].isRead
    ensures WithRead(WithRead(ns, id, true), id, false) == ns
  {
  }

  /** Marking read never raises the unread count, and leaves it alone when
      no notification has the id. */
  lemma {:induction false} MarkAsReadLowersUnread(ns: seq<Notification>, id: string)
    ensures UnreadCount(WithRead(ns, id, true)) <= UnreadCount(ns)
    ensures (forall i :: 0 <= i < |ns| ==> ns[i].id != id) ==> WithRead(ns, id, true) == ns
  {
    if ns != [] {
      var r := WithRead(ns, id, true);
      assert r[1..] == WithRead(ns[1..], id, true);
      MarkAsReadLowersUnread(ns[1..], id);
    }
  }

  /** Marking unread never lowers the unread count. */
  lemma {:induction false} MarkAsUnreadRaisesUnread(ns: seq<Notification>, id: string)
    ensures UnreadCount(WithRead(ns, id, false)) >= UnreadCount(ns)
  {
    if ns != [] {
      var r := WithRead(ns, id, false);
      assert r[1..] == WithRead(ns[1..], id, false);
      MarkAsUnreadRaisesUnread(ns[1..], id);
    }
  }

  /** The unread tab lists exactly the unread notifications, in order, and
      read and unread together make up the list. */
  lemma {:induction false} UnreadTabExact(ns: seq<Notification>, tab: int, n: Notification)
    requires tab != 0
    ensures n in Visible(ns, tab) <==> n in ns && !n.isRead
    ensures IsSubsequence(Visible(ns, tab), ns)
    ensures UnreadCount(ns) + |Filter(ns, IsRead())| == |ns|
  {
    FilterMembership(ns, IsUnread(), n);
    FilterIsSubsequence(ns, IsUnread());
    FilterSplitsLength(ns, IsUnread(), IsRead());
  }

  /** Deleting removes every notification with the id and keeps the rest in order. */
  lemma {:induction false} DeleteRemovesExactly(ns: seq<Notification>, id: string, n: Notification)
    ensures n in Filter(ns, IdIsNot(id)) <==> n in ns && n.id != id
    ensures IsSubsequence(Filter(ns, IdIsNot(id)), ns)
  {
    FilterMembership(ns, IdIsNot(id), n);
    FilterIsSubsequence(ns, IdIsNot(id));
  }

  /** Two of the three sample notifications start unread. */
  lemma {:induction false} SampleUnreadCount(utcOffset: int)
    ensures UnreadCount(MockNotifications(utcOffset)) == 2
  {
    var m := MockNotifications(utcOffset);
    assert m[1..][1..][1..] == [];
    assert Filter(m[1..][1..], IsUnread()) == [m[2]];
    assert Filter(m[1..], IsUnread()) == [m[2]];
  }
}
