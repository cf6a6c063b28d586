/**
 * `src/components/student/notification-center.tsx`: the bell menu. The set
 * of read notification ids is the component's state; it is loaded once from
 * browser storage and changed by "Mark as read" and "Mark all read".
 */
module Notifications {

  import opened Common
  import opened Seqs
  import opened Text
  import opened Dialogs

  datatype NotificationItem = NotificationItem(id: string, title: string, description: string, createdAt: string)

  function IsUnread(readIds: set<string>): NotificationItem -> bool
  {
    (item: NotificationItem) => item.id !in readIds
  }

  /** `unreadCount`: how many items are not in the read set. */
  function UnreadCount(items: seq<NotificationItem>, readIds: set<string>): (n: nat)
    ensures n <= |items|
    ensures n == 0 <==> forall i :: 0 <= i < |items| ==> items[i].id in readIds
  {
    var unread := Filter(items, IsUnread(readIds));
    assert |unread| > 0 ==> unread[0].id !in readIds;
    |unread|
  }

  /** Reading more never makes more unread: the count is antitone in the read set. */
  lemma {:induction false} UnreadCountAntitone(items: seq<NotificationItem>, fewer: set<string>, more: set<string>)
    requires fewer <= more
    ensures UnreadCount(items, more) <= UnreadCount(items, fewer)
  {
    if items != [] {
      UnreadCountAntitone(items[1..], fewer, more);
    }
  }

  /** The ids of all items: what "Mark all read" stores. */
  function ItemIds(items: seq<NotificationItem>): (ids: set<string>)
    ensures forall i :: 0 <= i < |items| ==> items[i].id in ids
    ensures forall id :: id in ids ==> exists i :: 0 <= i < |items| && items[i].id == id
  {
    set i | 0 <= i < |items| :: items[i].id
  }

  /**
   * The updater `markRead` passes to `setReadIds`: `id` becomes read, every
   * other id keeps its status, and an id already read gives back the same set.
   */
  function MarkReadNext(prev: set<string>, id: string): (next: set<string>)
    ensures id in next
    ensures forall x :: x != id ==> (x in next <==> x in prev)
    ensures id in prev ==> next == prev
  {
    if id in prev then prev else prev + {id}
  }

  lemma MarkReadIdempotent(prev: set<string>, id: string)
    ensures MarkReadNext(MarkReadNext(prev, id), id) == MarkReadNext(prev, id)
  {
  }

  /** "Mark as read" never raises the unread count. */
  lemma MarkReadLowersCount(items: seq<NotificationItem>, prev: set<string>, id: string)
    ensures UnreadCount(items, MarkReadNext(prev, id)) <= UnreadCount(items, prev)
  {
    UnreadCountAntitone(items, prev, MarkReadNext(prev, id));
  }

  /** "Mark as read" on an item that is listed and unread lowers the count by at least one. */
  lemma {:induction false} MarkUnreadLowersCount(items: seq<NotificationItem>, prev: set<string>, id: string)
    requires id !in prev
    requires exists i :: 0 <= i < |items| && items[i].id == id
    ensures UnreadCount(items, MarkReadNext(prev, id)) < UnreadCount(items, prev)
  {
    var next := MarkReadNext(prev, id);
    assert items == [items[0]] + items[1..];
    if items[0].id == id {
      UnreadCountAntitone(items[1..], prev, next);
    } else {
      var i :| 0 <= i < |items| && items[i].id == id;
      assert items[1..][i - 1].id == id;
      MarkUnreadLowersCount(items[1..], prev, id);
    }
  }

  /** `'s'` unless the count is exactly one. */
  function PluralS(n: nat): (s: string)
    ensures s == [] <==> n == 1
  {
    if n == 1 then "" else "s"
  }

  const ConfirmPrefix := "This will clear "

  /** The message of the "Mark all as read?" confirmation. */
  function ConfirmMessage(n: nat): (m: string)
    ensures |m| >= |ConfirmPrefix| + |NatToString(n)| + 21
    ensures m[|ConfirmPrefix|..|ConfirmPrefix| + |NatToString(n)|] == NatToString(n)
    ensures m[|m| - 2] == 's' <==> n != 1
  {
    var digits := NatToString(n);
    var m := ConfirmPrefix + digits + " unread notification" + PluralS(n) + ".";
    assert m[|ConfirmPrefix|..|ConfirmPrefix| + |digits|] == digits;
    m
  }

  /** The message ends in the singular noun for one notification and in the plural otherwise. */
  lemma ConfirmMessageEnds(n: nat)
    ensures n == 1 ==> EndsWith(ConfirmMessage(n), "notification.")
    ensures n != 1 ==> EndsWith(ConfirmMessage(n), "notifications.")
  {
    var head := ConfirmPrefix + NatToString(n) + " unread ";
    var noun := if n == 1 then "notification." else "notifications.";
    assert ConfirmMessage(n) == head + noun;
    assert (head + noun)[|head|..] == noun;
  }

  /** The count can be read back from the message. */
  lemma ConfirmMessageReadsBack(n: nat)
    ensures ParseDigits(ConfirmMessage(n)[|ConfirmPrefix|..|ConfirmPrefix| + |NatToString(n)|]) == n
  {
    NatToStringRoundTrip(n);
  }

  const CaughtUpAlert := DialogOptions("All caught up", "You have already read every notification.", Some(Info), None, None)
  const UpdatedAlert := DialogOptions("Updated", "All notifications are now marked as read.", Some(Success), None, None)

  function MarkAllConfirm(n: nat): DialogOptions
  {
    DialogOptions("Mark all as read?", ConfirmMessage(n), Some(Warning), Some("Mark all read"), Some("Keep unread"))
  }

  class NotificationCenter {

    const items: seq<NotificationItem>
    var isOpen: bool
    var readIds: set<string>

    constructor (items: seq<NotificationItem>)
      ensures this.items == items && !isOpen && readIds == {}
    {
      this.items := items;
      isOpen := false;
      readIds := {};
    }

    function Unread(): nat
      reads this
    {
      UnreadCount(items, readIds)
    }

    /**
     * The mount effect. `raw` is the stored value (absent or empty: nothing
     * to load); `parsed` is what `JSON.parse` makes of it, `None` when
     * parsing fails.
     */
    method LoadReadState(raw: Option<string>, parsed: Option<seq<string>>)
      modifies this
      ensures raw.None? || raw.value == [] ==> readIds == old(readIds)
      ensures raw.Some? && raw.value != [] && parsed.None? ==> readIds == {}
      ensures raw.Some? && raw.value != [] && parsed.Some? ==>
                forall id :: id in readIds <==> id in parsed.value
      ensures isOpen == old(isOpen)
    {
      if raw.None? || raw.value == [] {
        return;
      }
      if parsed.Some? {
        readIds := set id | id in parsed.value;
      } else {
        readIds := {};
      }
    }

    /** The bell button. */
    method Toggle()
      modifies this
      ensures isOpen == !old(isOpen) && readIds == old(readIds)
    {
      isOpen := !isOpen;
    }

    /** "Mark as read" on one item. */
    method MarkRead(id: string)
      modifies this
      ensures readIds == MarkReadNext(old(readIds), id)
      ensures isOpen == old(isOpen)
      ensures Unread() <= old(Unread())
    {
      MarkReadLowersCount(items, readIds, id);
      readIds := MarkReadNext(readIds, id);
    }

    /**
     * "Mark all read". With nothing unread it only shows an alert; otherwise
     * it asks, and `confirmed` is the answer. `shown` lists the dialogs shown.
     */
    method MarkAllRead(confirmed: bool) returns (shown: seq<DialogOptions>)
      modifies this
      ensures isOpen == old(isOpen)
      ensures old(Unread()) == 0 ==> readIds == old(readIds) && shown == [CaughtUpAlert]
      ensures old(Unread()) > 0 && !confirmed ==>
                readIds == old(readIds) && shown == [MarkAllConfirm(old(Unread()))]
      ensures old(Unread()) > 0 && confirmed ==>
                && readIds == ItemIds(items)
                && Unread() == 0
                && shown == [MarkAllConfirm(old(Unread())), UpdatedAlert]
    {
      var n := Unread();
      if n == 0 {
        return [CaughtUpAlert];
      }
      shown := [MarkAllConfirm(n)];
      if !confirmed {
        return;
      }
      readIds := ItemIds(items);
      shown := shown + [UpdatedAlert];
    }
  }
}
