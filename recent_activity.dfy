/**
 * The dashboard's recent-activity feed: the newest calls and donations,
 * merged newest first and capped at ten, and then kept current by putting
 * each newly inserted call or donation at the top.
 *
 * An activity is the row's own columns with `type` and `message` (and, for
 * live ones, `time`) written over them, so whatever `type` the row carried,
 * the activity's is the one the feed assigns.
 */
module RecentActivity {
  import opened Common
  import opened Sorting
  import opened Realtime

  /** The most activities the feed holds. */
  const Cap: nat := 10

  /** A `calls` or `donations` row as the feed reads it. */
  datatype Row = Row(createdAt: int, columns: Fields)

  /** An activity: its creation time (the sort key) and its columns. */
  datatype Activity = Activity(createdAt: int, columns: Fields)

  function CreatedAt(a: Activity): int {
    a.createdAt
  }

  /** `{ ...row, type, message }`: the row's columns with the two written over them. */
  function TagRow(row: Row, kind: string, message: string): (a: Activity)
    ensures a.createdAt == row.createdAt
    ensures a.columns.Keys == row.columns.Keys + {"type", "message"}
    ensures a.columns["type"] == Str(kind) && a.columns["message"] == Str(message)
    ensures forall k :: k in row.columns && k !in {"type", "message"} ==> a.columns[k] == row.columns[k]
  {
    Activity(row.createdAt, row.columns["type" := Str(kind)]["message" := Str(message)])
  }

  /** `{ ...row, type, message, time: row.created_at }`, the form of a live activity. */
  function TaggedLive(row: Row, kind: string, message: string): (a: Activity)
    ensures a.createdAt == row.createdAt
    ensures a.columns.Keys == row.columns.Keys + {"type", "message", "time"}
    ensures a.columns["type"] == Str(kind) && a.columns["message"] == Str(message)
    ensures a.columns["time"] == Num(row.createdAt)
    ensures forall k :: k in row.columns && k !in {"type", "message", "time"} ==> a.columns[k] == row.columns[k]
  {
    Activity(row.createdAt, TagRow(row, kind, message).columns["time" := Num(row.createdAt)])
  }

  const LoadedCallMessage := "Call completed"
  const LiveCallMessage := "New call started"
  const LoadedDonationHead := "Donation: $"
  const LiveDonationHead := "Donation received: $"

  /** `Donation received: $${amount}`, and the loaded form `Donation: $${amount}`. */
  function DonationMessage(head: string, amount: int): (m: string)
    ensures IsPrefix(head, m) && IsSuffix(IntToString(amount), m)
    ensures |m| == |head| + |IntToString(amount)|
  {
    var m := head + IntToString(amount);
    assert m[..|head|] == head && m[|m| - |IntToString(amount)|..] == IntToString(amount);
    m
  }

  /** The text after the head reads back as the amount, for a non-negative amount. */
  lemma DonationMessageAmount(head: string, amount: int)
    requires amount >= 0
    ensures var m := DonationMessage(head, amount);
      && (forall i :: |head| <= i < |m| ==> IsDigit(m[i]))
      && DigitsValue(m[|head|..]) == amount
  {
    var m := DonationMessage(head, amount);
    assert m[|head|..] == NatToString(amount);
    NatToStringDigits(amount);
    NatToStringRoundTrip(amount);
  }

  /** The amount column of a donation row: its `amount`, when numeric. */
  function AmountOf(row: Row): int {
    if "amount" in row.columns && row.columns["amount"].Num? then row.columns["amount"].n else 0
  }

  /** The combined list before sorting: the calls, then the donations, each tagged. */
  function Combined(calls: seq<Row>, donations: seq<Row>): (r: seq<Activity>)
    ensures |r| == |calls| + |donations|
    ensures forall i :: 0 <= i < |calls| ==> r[i] == TagRow(calls[i], "call", LoadedCallMessage)
    ensures forall i :: 0 <= i < |donations| ==>
              r[|calls| + i] == TagRow(donations[i], "donation", DonationMessage(LoadedDonationHead, AmountOf(donations[i])))
  {
    seq(|calls|, i requires 0 <= i < |calls| => TagRow(calls[i], "call", LoadedCallMessage))
    + seq(|donations|, i requires 0 <= i < |donations| =>
        TagRow(donations[i], "donation", DonationMessage(LoadedDonationHead, AmountOf(donations[i]))))
  }

  /** The initial feed: the combined activities, newest first, at most ten. */
  function Initial(calls: Option<seq<Row>>, donations: Option<seq<Row>>): seq<Activity> {
    var c := if calls.Some? then calls.value else [];
    var d := if donations.Some? then donations.value else [];
    Take(SortDesc(Combined(c, d), CreatedAt), Cap)
  }

  /**
   * The initial feed is a newest-first selection of at most ten of the
   * combined activities, and none left out is newer than one shown.
   */
  lemma InitialSpec(calls: seq<Row>, donations: seq<Row>)
    ensures var feed := Initial(Some(calls), Some(donations));
      var all := Combined(calls, donations);
      && |feed| == (if |all| <= Cap then |all| else Cap)
      && SortedDesc(feed, CreatedAt)
      && multiset(feed) <= multiset(all)
      && (forall a, i :: a in multiset(all) - multiset(feed) && 0 <= i < |feed| ==>
            CreatedAt(a) <= CreatedAt(feed[i]))
  {
    TopOfSortDesc(Combined(calls, donations), Cap, CreatedAt);
  }

  /** The activity is tagged as a call or as a donation. */
  predicate CallOrDonation(a: Activity) {
    "type" in a.columns && (a.columns["type"] == Str("call") || a.columns["type"] == Str("donation"))
  }

  lemma CombinedKinds(calls: seq<Row>, donations: seq<Row>)
    ensures forall i :: 0 <= i < |Combined(calls, donations)| ==> CallOrDonation(Combined(calls, donations)[i])
  {
    var all := Combined(calls, donations);
    forall i | 0 <= i < |all|
      ensures CallOrDonation(all[i])
    {
      if i >= |calls| {
        assert all[|calls| + (i - |calls|)] == all[i];
      }
    }
  }

  /** Every activity of the initial feed is a tagged call or a tagged donation. */
  lemma InitialKinds(calls: seq<Row>, donations: seq<Row>)
    ensures forall a :: a in Initial(Some(calls), Some(donations)) ==> CallOrDonation(a)
  {
    var all := Combined(calls, donations);
    var sorted := SortDesc(all, CreatedAt);
    var feed := Initial(Some(calls), Some(donations));
    SortDescPermutes(all, CreatedAt);
    CombinedKinds(calls, donations);
    forall a | a in feed
      ensures CallOrDonation(a)
    {
      var p :| 0 <= p < |feed| && feed[p] == a;
      assert sorted[p] == a;
      assert a in multiset(all);
      var i :| 0 <= i < |all| && all[i] == a;
    }
  }

  /** `[activity, ...prev].slice(0, 10)`. */
  function PushCapped(prev: seq<Activity>, a: Activity): (r: seq<Activity>)
    ensures 1 <= |r| <= Cap
    ensures |r| == if |prev| < Cap then |prev| + 1 else Cap
    ensures r[0] == a
    ensures r[1..] == prev[..|r| - 1]
  {
    Take([a] + prev, Cap)
  }

  class Feed {
    var activities: seq<Activity>

    constructor ()
      ensures activities == []
    {
      activities := [];
    }

    method Load(calls: Option<seq<Row>>, donations: Option<seq<Row>>)
      modifies this
      ensures activities == Initial(calls, donations)
      ensures |activities| <= Cap
    {
      activities := Initial(calls, donations);
    }

    /** A call was inserted: it goes on top as a new call. */
    method OnCallInsert(row: Row)
      modifies this
      ensures activities == PushCapped(old(activities), TaggedLive(row, "call", LiveCallMessage))
      ensures activities[0].columns["type"] == Str("call")
      ensures |activities| <= Cap
    {
      activities := PushCapped(activities, TaggedLive(row, "call", LiveCallMessage));
    }

    /** A donation was inserted: it goes on top with its amount in the message. */
    method OnDonationInsert(row: Row)
      modifies this
      ensures activities == PushCapped(old(activities),
                TaggedLive(row, "donation", DonationMessage(LiveDonationHead, AmountOf(row))))
      ensures activities[0].columns["type"] == Str("donation")
      ensures |activities| <= Cap
    {
      activities := PushCapped(activities, TaggedLive(row, "donation", DonationMessage(LiveDonationHead, AmountOf(row))));
    }
  }
}
