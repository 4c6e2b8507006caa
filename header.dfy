/** The header's notification panel: a list of activity entries with a
    count badge, a per-entry dismiss button, a "Clear All" button and a
    day-granular age label on each entry. */
module Header {
  import opened Base
  import opened Text
  import opened Types
  import opened Helpers

  const Today := "Today"
  const Yesterday := "Yesterday"
  const DaysAgoSuffix := " days ago"

  /** The age label of an entry stamped `date` (milliseconds) when the clock
      reads `now`: whole days elapsed, rounded down. */
  function FormatTimeAgo(now: int, date: int): string
  {
    var diffDays := (now - date) / DayMs;
    if diffDays == 0 then Today
    else if diffDays == 1 then Yesterday
    else IntToString(diffDays) + DaysAgoSuffix
  }

  /** Less than a day gives "Today", one to two days "Yesterday", and every
      other difference the whole number of days; a timestamp in the future
      gives a negative count. */
  lemma TimeAgoSpec(now: int, date: int)
    ensures var d := (now - date) / DayMs;
      && d * DayMs <= now - date < (d + 1) * DayMs
      && (FormatTimeAgo(now, date) == Today <==> d == 0)
      && (FormatTimeAgo(now, date) == Yesterday <==> d == 1)
      && (d != 0 && d != 1 ==> FormatTimeAgo(now, date) == IntToString(d) + DaysAgoSuffix)
    ensures 0 <= now - date < DayMs ==> FormatTimeAgo(now, date) == Today
    ensures DayMs <= now - date < 2 * DayMs ==> FormatTimeAgo(now, date) == Yesterday
    ensures now < date ==> FormatTimeAgo(now, date)[0] == '-'
  {
    var d := (now - date) / DayMs;
    if d != 0 && d != 1 {
      var r := IntToString(d) + DaysAgoSuffix;
      assert |r| > |Today| && |r| > |Yesterday|;
    }
    if now < date {
      assert d < 0;
    }
  }

  /** The list after dismissing the entries with `id`. */
  function WithoutNotification(notifications: seq<ActivityEntry>, id: string): seq<ActivityEntry>
  {
    Filter(notifications, (n: ActivityEntry) => n.id != id)
  }

  /** Dismissing removes every entry with the id, keeps every other entry in
      its order, and dismissing the same id again changes nothing. */
  lemma WithoutNotificationSpec(notifications: seq<ActivityEntry>, id: string)
    ensures forall n :: n in WithoutNotification(notifications, id) <==> n in notifications && n.id != id
    ensures IsSubsequence(WithoutNotification(notifications, id), notifications)
    ensures |WithoutNotification(notifications, id)|
            == |notifications| - Count(notifications, (n: ActivityEntry) => n.id == id)
    ensures WithoutNotification(WithoutNotification(notifications, id), id) == WithoutNotification(notifications, id)
  {
    var keep := (n: ActivityEntry) => n.id != id;
    var drop := (n: ActivityEntry) => n.id == id;
    var r := Filter(notifications, keep);
    forall n ensures n in r <==> n in notifications && keep(n) {
      FilterMembers(notifications, keep, n);
    }
    FilterIsSubsequence(notifications, keep);
    FilterLength(notifications, keep);
    CountSplit(notifications, drop, keep);
    assert forall i :: 0 <= i < |r| ==> r[i] in r;
    FilterAll(r, keep);
  }

  /** The count badge: the number of entries, shown only when there is at
      least one. The "Clear All" button is shown under the same condition. */
  function Badge(notifications: seq<ActivityEntry>): Option<nat>
  {
    if |notifications| > 0 then Some(|notifications|) else None
  }

  class NotificationPanel {
    var notifications: seq<ActivityEntry>
    var isOpen: bool

    /** The panel starts closed, holding the seeded activity log. */
    constructor (activityLog: seq<ActivityEntry>)
      ensures notifications == activityLog && !isOpen
    {
      notifications := activityLog;
      isOpen := false;
    }

    /** The bell button opens or closes the dropdown. */
    method Toggle()
      modifies this
      ensures isOpen == !old(isOpen) && notifications == old(notifications)
    {
      isOpen := !isOpen;
    }

    /** A press outside the dropdown closes it. */
    method ClickOutside()
      modifies this
      ensures !isOpen && notifications == old(notifications)
    {
      isOpen := false;
    }

    /** The dismiss button of one entry. */
    method ClearNotification(id: string)
      modifies this
      ensures notifications == WithoutNotification(old(notifications), id)
      ensures isOpen == old(isOpen)
    {
      notifications := WithoutNotification(notifications, id);
    }

    /** The "Clear All" button. */
    method ClearAll()
      modifies this
      ensures notifications == [] && isOpen == old(isOpen)
    {
      notifications := [];
    }
  }

  /** The badge shows exactly when the list is non-empty; after "Clear All"
      it is gone, and dismissing an entry lowers it by the number of entries
      with that id. */
  lemma BadgeSpec(notifications: seq<ActivityEntry>, id: string)
    ensures Badge(notifications).Some? <==> notifications != []
    ensures Badge([]).None?
    ensures Badge(notifications).Some? ==> Badge(notifications).value == |notifications|
    ensures Count(notifications, (n: ActivityEntry) => n.id == id) == |notifications| ==> Badge(WithoutNotification(notifications, id)).None?
    ensures var after := Badge(WithoutNotification(notifications, id));
              after.Some? ==> after.value == |notifications| - Count(notifications, (n: ActivityEntry) => n.id == id)
  {
    WithoutNotificationSpec(notifications, id);
  }
}
