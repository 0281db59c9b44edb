/**
 * The notifications tab (`NotificationsViewController`): the list it
 * shows, which of the empty-state label and the table is visible, and the
 * swipe-to-delete that hides a notification and filters it out.
 */
module NotificationsScreen {
  import opened NotificationModels
  import opened Database

  /** `UITableViewCell.EditingStyle` */
  datatype EditingStyle = NoStyle | Delete | Insert

  /** `notifications.filter { $0.isHidden == false }`: the shown ones, in list order. */
  function Visible(ns: seq<Notification>): (r: seq<Notification>)
    reads set n | n in ns
    ensures |r| <= |ns|
  {
    if ns == [] then []
    else if !ns[0].isHidden then [ns[0]] + Visible(ns[1..])
    else Visible(ns[1..])
  }

  /** The filter keeps exactly the shown notifications of the list. */
  lemma {:induction false} VisibleKeepsExactlyShown(ns: seq<Notification>)
    ensures forall n :: n in Visible(ns) <==> n in ns && !n.isHidden
  {
    if ns != [] {
      VisibleKeepsExactlyShown(ns[1..]);
      assert forall n :: n in ns <==> n == ns[0] || n in ns[1..];
    }
  }

  /** Filtering a concatenation filters each part and keeps their order. */
  lemma {:induction false} VisibleConcat(a: seq<Notification>, b: seq<Notification>)
    ensures Visible(a + b) == Visible(a) + Visible(b)
  {
    if a == [] {
      assert a + b == b;
    } else {
      var ab := a + b;
      assert ab[0] == a[0];
      assert ab[1..] == a[1..] + b;
      VisibleConcat(a[1..], b);
      if !a[0].isHidden {
        assert Visible(ab) == [a[0]] + Visible(a[1..] + b);
        assert Visible(a) == [a[0]] + Visible(a[1..]);
      } else {
        assert Visible(ab) == Visible(a[1..] + b);
        assert Visible(a) == Visible(a[1..]);
      }
    }
  }

  /** A list without hidden notifications passes the filter unchanged. */
  lemma {:induction false} VisibleOfShown(ns: seq<Notification>)
    requires forall i :: 0 <= i < |ns| ==> !ns[i].isHidden
    ensures Visible(ns) == ns
  {
    if ns != [] {
      VisibleOfShown(ns[1..]);
    }
  }

  /**
   * When every notification but the one in row `row` is shown, the filter
   * removes exactly that row and keeps the rest in order.
   */
  lemma {:induction false} VisibleDropsRow(ns: seq<Notification>, row: nat)
    requires row < |ns|
    requires ns[row].isHidden
    requires forall i :: 0 <= i < |ns| && i != row ==> !ns[i].isHidden
    ensures Visible(ns) == ns[..row] + ns[row + 1..]
    decreases row
  {
    var tail := ns[1..];
    if row == 0 {
      assert forall i :: 0 <= i < |tail| ==> tail[i] == ns[i + 1];
      VisibleOfShown(tail);
      assert ns[..0] + ns[1..] == tail;
    } else {
      assert forall i :: 0 <= i < |tail| && i != row - 1 ==> tail[i] == ns[i + 1];
      VisibleDropsRow(tail, row - 1);
      assert Visible(ns) == [ns[0]] + Visible(tail);
      assert tail[..row - 1] == ns[1..row];
      assert tail[row..] == ns[row + 1..];
      assert [ns[0]] + ns[1..row] == ns[..row];
    }
  }

  /**
   * `NotificationsViewController`: the list it shows and the `isHidden`
   * flags of the empty-state label and of the table; `db` is the store.
   */
  class NotificationsViewController {
    var notifications: seq<Notification>
    var noNotificationsLabelHidden: bool
    var tableViewHidden: bool
    const db: DatabaseManager

    /** The controller after `setupViews`: an empty list with both the label and the table hidden. */
    constructor (db: DatabaseManager)
      ensures this.db == db && notifications == []
      ensures noNotificationsLabelHidden && tableViewHidden
    {
      this.db := db;
      notifications := [];
      noNotificationsLabelHidden := true;
      tableViewHidden := true;
    }

    /** `updateUI`: the empty-state label when the list is empty, the table otherwise. */
    method UpdateUI()
      modifies this
      ensures notifications == old(notifications)
      ensures noNotificationsLabelHidden <==> notifications != []
      ensures tableViewHidden <==> notifications == []
    {
      if notifications == [] {
        noNotificationsLabelHidden := false;
        tableViewHidden := true;
      } else {
        noNotificationsLabelHidden := true;
        tableViewHidden := false;
      }
    }

    /** `fetchNotifications`: replaces the list with what the store returns, then updates the UI. */
    method FetchNotifications(ids: nat -> string, dates: nat -> Date)
      modifies this
      ensures IsMockData(notifications)
      ensures forall i :: 0 <= i < |notifications| ==> fresh(notifications[i])
      ensures noNotificationsLabelHidden <==> notifications != []
      ensures tableViewHidden <==> notifications == []
    {
      var fetched := db.GetNotifications(ids, dates);
      notifications := fetched;
      UpdateUI();
    }

    /** `didPullRefresh`: replaces the list as a fetch does but leaves the label and the table as they were. */
    method Refresh(ids: nat -> string, dates: nat -> Date)
      modifies this
      ensures IsMockData(notifications)
      ensures forall i :: 0 <= i < |notifications| ==> fresh(notifications[i])
      ensures noNotificationsLabelHidden == old(noNotificationsLabelHidden)
      ensures tableViewHidden == old(tableViewHidden)
    {
      var fetched := db.GetNotifications(ids, dates);
      notifications := fetched;
    }

    /**
     * `commit editingStyle forRowAt`: any style but delete does nothing; a
     * delete hides the row's notification, asks the store to mark it, and
     * on success keeps only the shown notifications. The row is one the
     * table displays.
     */
    method CommitEditing(style: EditingStyle, row: nat)
      requires row < |notifications|
      modifies this, notifications[row]
      ensures style != Delete ==> notifications == old(notifications)
      ensures forall n :: n in old(notifications) && (style != Delete || n != old(notifications[row])) ==>
        n.isHidden == old(n.isHidden)
      ensures style == Delete ==> old(notifications[row]).isHidden
      ensures style == Delete ==> notifications == Visible(old(notifications))
      ensures noNotificationsLabelHidden == old(noNotificationsLabelHidden) && tableViewHidden == old(tableViewHidden)
    {
      if style != Delete {
        return;
      }
      var model := notifications[row];
      model.isHidden := true;
      var success := db.MarkNotificationAsHidden(model.id);
      if success {
        notifications := Visible(notifications);
      }
    }
  }
}
