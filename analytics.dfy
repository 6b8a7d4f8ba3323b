/**
 * The analytics page: the aggregations it computes from the rows it reads
 * for a date range. Each query's result is an input (`None` when the
 * response has no data); only the columns a computation reads are kept.
 * The ratios are exact rationals here; the page computes them in floating
 * point.
 */
module Analytics {
  import opened Common
  import opened Records
  import opened Sorting
  import opened Tally

  /** `den > 0 ? num / den : 0`. */
  function Ratio(num: int, den: int): (r: real)
    ensures den <= 0 ==> r == 0.0
    ensures den > 0 ==> r * den as real == num as real
    ensures den > 0 && 0 <= num <= den ==> 0.0 <= r <= 1.0
  {
    if den > 0 then num as real / den as real else 0.0
  }

  /** `den > 0 ? (num / den) * 100 : 0`. */
  function Percent(num: int, den: int): (r: real)
    ensures den <= 0 ==> r == 0.0
    ensures den > 0 ==> r * den as real == 100.0 * num as real
    ensures den > 0 && 0 <= num <= den ==> 0.0 <= r <= 100.0
  {
    var q := Ratio(num, den);
    assert den > 0 ==> q * 100.0 * den as real == (q * den as real) * 100.0;
    q * 100.0
  }

  // ---------------------------------------------------------------------
  // Overview (loadOverviewStats)
  // ---------------------------------------------------------------------

  datatype Overview = Overview(
    totalCalls: int,
    totalDonations: int,
    totalRaised: int,
    avgDonation: real,
    conversionRate: real,
    avgCallDuration: real,
    growthRate: real,
    dollarsPerCall: real
  )

  function OrEmpty<T>(data: Option<seq<T>>): (r: seq<T>)
    ensures data.None? ==> r == []
    ensures data.Some? ==> r == data.value
  {
    if data.Some? then data.value else []
  }

  /** `c.duration || 0` for each call. */
  function DurationsOrZero(calls: seq<Option<int>>): (r: seq<int>)
    ensures |r| == |calls| && forall i :: 0 <= i < |calls| ==> r[i] == IntOr(calls[i], 0)
  {
    seq(|calls|, i requires 0 <= i < |calls| => IntOr(calls[i], 0))
  }

  /**
   * The headline numbers. `callDurations` is the `duration` column of the
   * period's calls, `amounts` the amounts of its donations and `prevAmounts`
   * those of the period before it.
   */
  function OverviewStats(callDurations: Option<seq<Option<int>>>, amounts: Option<seq<int>>,
                         prevAmounts: Option<seq<int>>): (o: Overview)
    ensures o.totalCalls == |OrEmpty(callDurations)| && o.totalDonations == |OrEmpty(amounts)|
    ensures o.totalRaised == SumSeq(OrEmpty(amounts))
    ensures o.avgDonation == Ratio(o.totalRaised, o.totalDonations)
    ensures o.conversionRate == Percent(o.totalDonations, o.totalCalls)
    ensures o.dollarsPerCall == Ratio(o.totalRaised, o.totalCalls)
    ensures o.avgCallDuration == Ratio(SumSeq(DurationsOrZero(OrEmpty(callDurations))), o.totalCalls)
    ensures o.growthRate == Percent(o.totalRaised - SumSeq(OrEmpty(prevAmounts)), SumSeq(OrEmpty(prevAmounts)))
    ensures o.totalCalls == 0 ==> o.conversionRate == 0.0 && o.avgCallDuration == 0.0 && o.dollarsPerCall == 0.0
    ensures o.totalDonations == 0 ==> o.avgDonation == 0.0
  {
    var calls := OrEmpty(callDurations);
    var donations := OrEmpty(amounts);
    var totalRaised := SumSeq(donations);
    var prevRaised := SumSeq(OrEmpty(prevAmounts));
    Overview(
      |calls|,
      |donations|,
      totalRaised,
      Ratio(totalRaised, |donations|),
      Percent(|donations|, |calls|),
      Ratio(SumSeq(DurationsOrZero(calls)), |calls|),
      Percent(totalRaised - prevRaised, prevRaised),
      Ratio(totalRaised, |calls|))
  }

  // ---------------------------------------------------------------------
  // Daily totals (loadDailyStats)
  // ---------------------------------------------------------------------

  /** A donation with its local calendar day already worked out. */
  datatype DatedDonation = DatedDonation(day: string, amount: int)

  datatype DayTotal = DayTotal(date: string, amount: int, count: nat)

  /** The grouping rows of the daily loop: one per donation, keyed by its day, each a hit. */
  function DayItems(rows: seq<DatedDonation>): (items: seq<Item>)
    ensures |items| == |rows|
    ensures forall i :: 0 <= i < |rows| ==> items[i] == Item(rows[i].day, rows[i].day, true, rows[i].amount)
  {
    seq(|rows|, i requires 0 <= i < |rows| => Item(rows[i].day, rows[i].day, true, rows[i].amount))
  }

  /** The donations' amounts, in row order: the amounts of the rows as grouping items. */
  function RowAmounts(rows: seq<DatedDonation>): (r: seq<int>)
    ensures |r| == |rows| && forall i :: 0 <= i < |rows| ==> r[i] == rows[i].amount
  {
    ItemAmounts(DayItems(rows))
  }

  /**
   * One total per calendar day, in the order the days first occur: each
   * day's count and amount are those of its donations, so the counts add up
   * to the number of donations and the amounts to their total.
   */
  method DailyStats(data: Option<seq<DatedDonation>>) returns (days: seq<DayTotal>)
    ensures var items := DayItems(OrEmpty(data));
      && |days| == |FirstKeys(items)|
      && forall j :: 0 <= j < |days| ==>
           var g := Summary(items, FirstKeys(items)[j]);
           days[j] == DayTotal(g.key, g.amount, g.count)
    ensures SumSeq(seq(|days|, j requires 0 <= j < |days| => days[j].count as int)) == |OrEmpty(data)|
    ensures SumSeq(seq(|days|, j requires 0 <= j < |days| => days[j].amount)) == SumSeq(RowAmounts(OrEmpty(data)))
  {
    var rows := OrEmpty(data);
    var items := DayItems(rows);
    var groups := GroupRows(items);
    days := seq(|groups|, j requires 0 <= j < |groups| => DayTotal(groups[j].key, groups[j].amount, groups[j].count));
    assert seq(|days|, j requires 0 <= j < |days| => days[j].count as int) == Counts(groups);
    assert seq(|days|, j requires 0 <= j < |days| => days[j].amount) == Amounts(groups);
    forall j | 0 <= j < |days|
      ensures days[j] == DayTotal(Summary(items, FirstKeys(items)[j]).key,
                                  Summary(items, FirstKeys(items)[j]).amount,
                                  Summary(items, FirstKeys(items)[j]).count)
    {
      assert KeysOf(groups)[j] == groups[j].key;
    }
  }

  // ---------------------------------------------------------------------
  // Top performers (loadTopPerformers)
  // ---------------------------------------------------------------------

  /** A call with the caller's member rows (when the embed is an array) and its donations' amounts. */
  datatype CallerCall = CallerCall(callerId: Option<Id>, members: Option<seq<string>>, donations: Option<seq<int>>)

  datatype Performer = Performer(name: string, calls: nat, donations: nat, raised: int)

  /** The object key a caller id becomes; a null id becomes the key "null". */
  function CallerKey(id: Option<Id>): (k: string)
    ensures id.Some? ==> k == id.value
  {
    if id.Some? then id.value else "null"
  }

  /** The first member's full name, or "Unknown" when there is no member array or it is empty. */
  function CallerName(c: CallerCall): (name: string)
    ensures c.members.None? || c.members.value == [] ==> name == "Unknown"
    ensures c.members.Some? && c.members.value != [] ==> name == c.members.value[0]
  {
    if c.members.Some? && |c.members.value| > 0 then c.members.value[0] else "Unknown"
  }

  /** `call.donations?.length > 0`. */
  predicate HasDonation(c: CallerCall) {
    c.donations.Some? && |c.donations.value| > 0
  }

  /** The grouping row of a call: a hit when it has a donation, worth the first donation's amount. */
  function CallerItem(c: CallerCall): (x: Item)
    ensures x.key == CallerKey(c.callerId) && x.name == CallerName(c) && x.hit == HasDonation(c)
    ensures x.amount == if HasDonation(c) then c.donations.value[0] else 0
  {
    Item(CallerKey(c.callerId), CallerName(c), HasDonation(c), if HasDonation(c) then c.donations.value[0] else 0)
  }

  function CallerItems(calls: seq<CallerCall>): (items: seq<Item>)
    ensures |items| == |calls| && forall i :: 0 <= i < |calls| ==> items[i] == CallerItem(calls[i])
  {
    seq(|calls|, i requires 0 <= i < |calls| => CallerItem(calls[i]))
  }

  function PerformerOf(g: Group): (p: Performer)
    ensures p.calls == g.count && p.donations == g.hits && p.raised == g.amount
  {
    Performer(g.name, g.count, g.hits, g.amount)
  }

  function PerformerRaised(p: Performer): int {
    p.raised
  }

  /** Every caller's totals, in the order callers first occur. */
  function AllPerformers(calls: seq<CallerCall>): (ps: seq<Performer>)
    ensures |ps| == |FirstKeys(CallerItems(calls))|
    ensures forall j :: 0 <= j < |ps| ==> ps[j].donations <= ps[j].calls
  {
    var keys := FirstKeys(CallerItems(calls));
    seq(|keys|, j requires 0 <= j < |keys| => PerformerOf(Summary(CallerItems(calls), keys[j])))
  }

  /**
   * The ten callers who raised most: non-increasing by amount raised, taken
   * from the callers' totals, no caller left out ranking above one kept,
   * and no caller with more donations than calls.
   */
  method TopPerformers(data: Option<seq<CallerCall>>) returns (top: seq<Performer>)
    ensures var all := AllPerformers(OrEmpty(data));
      && |top| == (if |all| <= 10 then |all| else 10)
      && SortedDesc(top, PerformerRaised)
      && multiset(top) <= multiset(all)
      && (forall p, i :: p in multiset(all) - multiset(top) && 0 <= i < |top| ==>
            PerformerRaised(p) <= PerformerRaised(top[i]))
    ensures forall i :: 0 <= i < |top| ==> top[i].donations <= top[i].calls
  {
    var performers := CallerTotals(OrEmpty(data));
    top := Take(SortDesc(performers, PerformerRaised), 10);
    TopOfSortDesc(performers, 10, PerformerRaised);
    DonationsWithinCalls(performers, top);
  }

  /** A selection from callers' totals keeps every total's donations within its calls. */
  lemma DonationsWithinCalls(all: seq<Performer>, top: seq<Performer>)
    requires forall j :: 0 <= j < |all| ==> all[j].donations <= all[j].calls
    requires multiset(top) <= multiset(all)
    ensures forall i :: 0 <= i < |top| ==> top[i].donations <= top[i].calls
  {
    forall i | 0 <= i < |top|
      ensures top[i].donations <= top[i].calls
    {
      assert top[i] in multiset(all);
      var j :| 0 <= j < |all| && all[j] == top[i];
    }
  }

  /** The grouping loop over the calls, keyed by caller. */
  method CallerTotals(calls: seq<CallerCall>) returns (performers: seq<Performer>)
    ensures performers == AllPerformers(calls)
  {
    var groups := GroupRows(CallerItems(calls));
    performers := seq(|groups|, j requires 0 <= j < |groups| => PerformerOf(groups[j]));
    PerformersOfGroups(calls, groups, performers);
  }

  /** The totals of the grouping loop's groups are the callers' totals. */
  lemma PerformersOfGroups(calls: seq<CallerCall>, groups: seq<Group>, performers: seq<Performer>)
    requires KeysOf(groups) == FirstKeys(CallerItems(calls))
    requires forall j :: 0 <= j < |groups| ==> groups[j] == Summary(CallerItems(calls), groups[j].key)
    requires performers == seq(|groups|, j requires 0 <= j < |groups| => PerformerOf(groups[j]))
    ensures performers == AllPerformers(calls)
  {
    var all := AllPerformers(calls);
    forall j | 0 <= j < |groups|
      ensures performers[j] == all[j]
    {
      assert KeysOf(groups)[j] == groups[j].key;
    }
  }

  // ---------------------------------------------------------------------
  // Outcome distribution (loadOutcomeDistribution)
  // ---------------------------------------------------------------------

  /** `call.outcome || 'no_answer'`. */
  function OutcomeKey(outcome: Option<string>): (k: string)
    ensures StrTruthy(outcome) ==> k == outcome.value
    ensures !StrTruthy(outcome) ==> k == "no_answer"
  {
    if StrTruthy(outcome) then outcome.value else "no_answer"
  }

  function OutcomeItems(outcomes: seq<Option<string>>): (items: seq<Item>)
    ensures |items| == |outcomes|
    ensures forall i :: 0 <= i < |outcomes| ==> items[i] == Item(OutcomeKey(outcomes[i]), OutcomeKey(outcomes[i]), false, 0)
  {
    seq(|outcomes|, i requires 0 <= i < |outcomes| => Item(OutcomeKey(outcomes[i]), OutcomeKey(outcomes[i]), false, 0))
  }

  /** A word character of a regular expression: `\w`. */
  predicate WordChar(c: char) {
    'a' <= c <= 'z' || 'A' <= c <= 'Z' || '0' <= c <= '9' || c == '_'
  }

  function UpperChar(c: char): (r: char)
    ensures 'a' <= c <= 'z' ==> 'A' <= r <= 'Z' && LowerChar(r) == c
    ensures !('a' <= c <= 'z') ==> r == c
  {
    if 'a' <= c <= 'z' then (c as int - 32) as char else c
  }

  /** The index of the first `a` in `s`. */
  function FirstIndex(s: string, a: char): (i: nat)
    requires a in s
    ensures i < |s| && s[i] == a && a !in s[..i]
    decreases |s|
  {
    if s[0] == a then 0
    else
      var i := FirstIndex(s[1..], a);
      assert s[..i + 1] == [s[0]] + s[1..][..i];
      i + 1
  }

  /** `s.replace(a, b)` with a string pattern: only the first occurrence. */
  function ReplaceFirst(s: string, a: char, b: char): (r: string)
    ensures |r| == |s|
    ensures a !in s ==> r == s
    ensures a in s ==> r[FirstIndex(s, a)] == b
    ensures a in s ==> forall j :: 0 <= j < |s| && j != FirstIndex(s, a) ==> r[j] == s[j]
  {
    if a in s then
      var i := FirstIndex(s, a);
      s[..i] + [b] + s[i + 1..]
    else s
  }

  /** `s.replace(/\b\w/g, l => l.toUpperCase())`: the first character of every word upper-cased. */
  function CapitalizeWords(s: string): (r: string)
    ensures |r| == |s|
    ensures forall i :: 0 <= i < |s| ==> r[i] == if WordChar(s[i]) && (i == 0 || !WordChar(s[i - 1])) then UpperChar(s[i]) else s[i]
  {
    seq(|s|, i requires 0 <= i < |s| =>
      if WordChar(s[i]) && (i == 0 || !WordChar(s[i - 1])) then UpperChar(s[i]) else s[i])
  }

  /** The label of an outcome: its first underscore made a space, then every word capitalised. */
  function OutcomeName(key: string): (name: string)
    ensures |name| == |key|
  {
    CapitalizeWords(ReplaceFirst(key, '_', ' '))
  }

  /** A two-word outcome shows as two capitalised words. */
  lemma OutcomeNameNoAnswer()
    ensures OutcomeName("no_answer") == "No Answer"
  {
    var s := "no_answer";
    assert s[2] == '_' && '_' !in s[..2];
    assert FirstIndex(s, '_') == 2;
    assert ReplaceFirst(s, '_', ' ') == "no answer";
    CapitalizeNoAnswer();
  }

  lemma CapitalizeNoAnswer()
    ensures CapitalizeWords("no answer") == "No Answer"
  {
    var r := CapitalizeWords("no answer");
    assert r[0] == 'N' && r[3] == 'A';
    assert r[1..3] == "o " && r[4..] == "nswer";
    assert r == r[..1] + r[1..3] + r[3..4] + r[4..];
  }

  /** A one-word outcome only has its first letter capitalised. */
  lemma OutcomeNameDonated()
    ensures OutcomeName("donated") == "Donated"
  {
    assert '_' !in "donated";
  }

  /** Only the first underscore becomes a space: `a_b_c` shows as `A B_c`. */
  lemma OutcomeNameReplacesFirstUnderscoreOnly()
    ensures OutcomeName("a_b_c") == "A B_c"
  {
    var s := "a_b_c";
    assert s[1] == '_' && '_' !in s[..1];
    assert FirstIndex(s, '_') == 1;
    assert ReplaceFirst(s, '_', ' ') == "a b_c";
  }

  /** The colour of an outcome's slice; outcomes outside the table get the default. */
  function OutcomeColor(key: string): (color: string)
    ensures key == "donated" ==> color == "#10b981"
    ensures key == "callback" ==> color == "#f59e0b"
    ensures key == "not_interested" ==> color == "#ef4444"
    ensures key == "no_answer" ==> color == "#6b7280"
    ensures key == "voicemail" ==> color == "#8b5cf6"
    ensures key !in {"donated", "callback", "not_interested", "no_answer", "voicemail"} ==> color == "#6366f1"
  {
    if key == "donated" then "#10b981"
    else if key == "callback" then "#f59e0b"
    else if key == "not_interested" then "#ef4444"
    else if key == "no_answer" then "#6b7280"
    else if key == "voicemail" then "#8b5cf6"
    else "#6366f1"
  }

  datatype Slice = Slice(name: string, value: nat, color: string)

  /**
   * One slice per outcome, in the order outcomes first occur (a missing or
   * empty outcome counts as `no_answer`): its label, its number of calls and
   * its colour. The values add up to the number of calls.
   */
  method OutcomeDistribution(data: Option<seq<Option<string>>>) returns (slices: seq<Slice>)
    ensures var items := OutcomeItems(OrEmpty(data));
      && |slices| == |FirstKeys(items)|
      && forall j :: 0 <= j < |slices| ==>
           var k := FirstKeys(items)[j];
           slices[j] == Slice(OutcomeName(k), Summary(items, k).count, OutcomeColor(k))
    ensures SumSeq(seq(|slices|, j requires 0 <= j < |slices| => slices[j].value as int)) == |OrEmpty(data)|
  {
    var items := OutcomeItems(OrEmpty(data));
    var groups := GroupRows(items);
    slices := seq(|groups|, j requires 0 <= j < |groups| =>
      Slice(OutcomeName(groups[j].key), groups[j].count, OutcomeColor(groups[j].key)));
    assert seq(|slices|, j requires 0 <= j < |slices| => slices[j].value as int) == Counts(groups);
    forall j | 0 <= j < |slices|
      ensures slices[j] == Slice(OutcomeName(FirstKeys(items)[j]), Summary(items, FirstKeys(items)[j]).count,
                                 OutcomeColor(FirstKeys(items)[j]))
    {
      assert KeysOf(groups)[j] == groups[j].key;
    }
  }

  // ---------------------------------------------------------------------
  // Hourly performance (loadHourlyPerformance)
  // ---------------------------------------------------------------------

  /** An hour of the local day, as `getHours()` returns it. */
  type Hour = h: int | 0 <= h < 24

  datatype HourCall = HourCall(hour: Hour, outcome: Option<string>)

  datatype HourBucket = HourBucket(hour: string, calls: nat, conversions: nat, conversionRate: real)

  /** Calls started in hour `h`. */
  function CallsAt(s: seq<HourCall>, h: int): nat
    decreases |s|
  {
    if s == [] then 0 else CallsAt(s[..|s| - 1], h) + (if s[|s| - 1].hour == h then 1 else 0)
  }

  /** Calls started in hour `h` that ended as donated. */
  function ConversionsAt(s: seq<HourCall>, h: int): nat
    decreases |s|
  {
    if s == [] then 0
    else ConversionsAt(s[..|s| - 1], h) + (if s[|s| - 1].hour == h && s[|s| - 1].outcome == Some("donated") then 1 else 0)
  }

  lemma {:induction false} ConversionsAtMost(s: seq<HourCall>, h: int)
    ensures ConversionsAt(s, h) <= CallsAt(s, h)
    decreases |s|
  {
    if s != [] {
      ConversionsAtMost(s[..|s| - 1], h);
    }
  }

  /**
   * Twenty-four buckets, hour 0 to 23, each with the calls started in that
   * hour and how many of them were donations; the calls add up to the
   * number of calls, and a bucket without calls has a conversion rate of 0.
   */
  method HourlyPerformance(data: Option<seq<HourCall>>) returns (buckets: seq<HourBucket>)
    ensures |buckets| == 24
    ensures forall h :: 0 <= h < 24 ==>
      && buckets[h].hour == NatToString(h) + ":00"
      && buckets[h].calls == CallsAt(OrEmpty(data), h)
      && buckets[h].conversions == ConversionsAt(OrEmpty(data), h)
      && buckets[h].conversions <= buckets[h].calls
      && buckets[h].conversionRate == Percent(buckets[h].conversions, buckets[h].calls)
      && (buckets[h].calls == 0 ==> buckets[h].conversionRate == 0.0)
    ensures SumSeq(seq(24, h requires 0 <= h < 24 => buckets[h].calls as int)) == |OrEmpty(data)|
  {
    var rows := OrEmpty(data);
    var calls: seq<int> := [];
    var conversions: seq<int> := [];
    for h := 0 to 24
      invariant |calls| == h && |conversions| == h
      invariant forall k :: 0 <= k < h ==> calls[k] == 0 && conversions[k] == 0
    {
      calls := calls + [0];
      conversions := conversions + [0];
    }
    SumSeqZeros(calls);
    var i := 0;
    while i < |rows|
      invariant 0 <= i <= |rows|
      invariant |calls| == 24 && |conversions| == 24
      invariant forall h :: 0 <= h < 24 ==> calls[h] == CallsAt(rows[..i], h)
      invariant forall h :: 0 <= h < 24 ==> conversions[h] == ConversionsAt(rows[..i], h)
      invariant SumSeq(calls) == i
    {
      var call := rows[i];
      assert rows[..i + 1][..i] == rows[..i] && rows[..i + 1][i] == call;
      SumSeqUpdate(calls, call.hour, calls[call.hour] + 1);
      calls := calls[call.hour := calls[call.hour] + 1];
      if call.outcome == Some("donated") {
        conversions := conversions[call.hour := conversions[call.hour] + 1];
      }
      i := i + 1;
    }
    assert rows[..|rows|] == rows;
    forall h | 0 <= h < 24
      ensures conversions[h] <= calls[h]
    {
      ConversionsAtMost(rows, h);
    }
    buckets := seq(24, h requires 0 <= h < 24 =>
      HourBucket(NatToString(h) + ":00", calls[h] as nat, conversions[h] as nat,
                 Percent(conversions[h], calls[h])));
    assert seq(24, h requires 0 <= h < 24 => buckets[h].calls as int) == calls;
  }

  // ---------------------------------------------------------------------
  // Donor segments (loadDonorSegments)
  // ---------------------------------------------------------------------

  const SegmentNames: seq<string> := ["New Prospects", "Small Donors", "Mid-Level", "Major Donors", "VIP"]
  const SegmentColors: seq<string> := ["#6366f1", "#10b981", "#f59e0b", "#ef4444", "#8b5cf6"]

  /** The segment of a previous donation amount: exactly one of the five bands. */
  function SegmentOf(amount: int): (k: nat)
    ensures k < 5
    ensures k == 0 <==> amount == 0
    ensures k == 1 <==> amount != 0 && amount < 100
    ensures k == 2 <==> 100 <= amount < 500
    ensures k == 3 <==> 500 <= amount < 2000
    ensures k == 4 <==> 2000 <= amount
  {
    if amount == 0 then 0
    else if amount < 100 then 1
    else if amount < 500 then 2
    else if amount < 2000 then 3
    else 4
  }

  /** Donors whose amount (`|| 0`) falls in segment `k`. */
  function InSegment(s: seq<Option<int>>, k: nat): nat
    decreases |s|
  {
    if s == [] then 0 else InSegment(s[..|s| - 1], k) + (if SegmentOf(IntOr(s[|s| - 1], 0)) == k then 1 else 0)
  }

  /**
   * The five segments in their fixed order, with their colours; each
   * counts the donors in its band, and the counts add up to the number of
   * donors.
   */
  method DonorSegments(data: Option<seq<Option<int>>>) returns (segments: seq<Slice>)
    ensures |segments| == 5
    ensures forall k :: 0 <= k < 5 ==>
      segments[k] == Slice(SegmentNames[k], InSegment(OrEmpty(data), k), SegmentColors[k])
    ensures SumSeq(seq(5, k requires 0 <= k < 5 => segments[k].value as int)) == |OrEmpty(data)|
  {
    var amounts := OrEmpty(data);
    var counts: seq<int> := [0, 0, 0, 0, 0];
    SumSeqZeros(counts);
    var i := 0;
    while i < |amounts|
      invariant 0 <= i <= |amounts|
      invariant |counts| == 5
      invariant forall k :: 0 <= k < 5 ==> counts[k] == InSegment(amounts[..i], k)
      invariant SumSeq(counts) == i
    {
      assert amounts[..i + 1][..i] == amounts[..i] && amounts[..i + 1][i] == amounts[i];
      var k := SegmentOf(IntOr(amounts[i], 0));
      SumSeqUpdate(counts, k, counts[k] + 1);
      counts := counts[k := counts[k] + 1];
      i := i + 1;
    }
    assert amounts[..|amounts|] == amounts;
    segments := seq(5, k requires 0 <= k < 5 => Slice(SegmentNames[k], counts[k] as nat, SegmentColors[k]));
    assert seq(5, k requires 0 <= k < 5 => segments[k].value as int) == counts;
  }

  // ---------------------------------------------------------------------
  // Campaign comparison (loadCampaignComparison)
  // ---------------------------------------------------------------------

  /** A campaign with the amounts of its donations (`None` when the embed is missing). */
  datatype Campaign = Campaign(name: string, donations: Option<seq<int>>)

  datatype CampaignTotal = CampaignTotal(name: string, raised: int, donations: nat)

  function TotalOf(c: Campaign): (t: CampaignTotal)
    ensures t.name == c.name && t.raised == SumSeq(OrEmpty(c.donations)) && t.donations == |OrEmpty(c.donations)|
  {
    CampaignTotal(c.name, SumSeq(OrEmpty(c.donations)), |OrEmpty(c.donations)|)
  }

  function CampaignRaised(t: CampaignTotal): int {
    t.raised
  }

  function Totals(cs: seq<Campaign>): (ts: seq<CampaignTotal>)
    ensures |ts| == |cs| && forall i :: 0 <= i < |cs| ==> ts[i] == TotalOf(cs[i])
  {
    seq(|cs|, i requires 0 <= i < |cs| => TotalOf(cs[i]))
  }

  /** The five campaigns that raised most, by their donations' total; [] without data. */
  function CampaignComparison(data: Option<seq<Campaign>>): (top: seq<CampaignTotal>)
  {
    Take(SortDesc(Totals(OrEmpty(data)), CampaignRaised), 5)
  }

  /**
   * The comparison keeps at most five campaigns, non-increasing by amount
   * raised, each with its own donations' count and total, and no campaign
   * left out raised more than one kept.
   */
  lemma CampaignComparisonSpec(data: Option<seq<Campaign>>)
    ensures var top := CampaignComparison(data);
      var all := Totals(OrEmpty(data));
      && |top| == (if |all| <= 5 then |all| else 5)
      && SortedDesc(top, CampaignRaised)
      && multiset(top) <= multiset(all)
      && (forall t, i :: t in multiset(all) - multiset(top) && 0 <= i < |top| ==>
            CampaignRaised(t) <= CampaignRaised(top[i]))
    ensures forall t :: t in CampaignComparison(data) ==>
              exists i :: 0 <= i < |OrEmpty(data)| && t == TotalOf(OrEmpty(data)[i])
  {
    var all := Totals(OrEmpty(data));
    TopOfSortDesc(all, 5, CampaignRaised);
    TotalsOfCampaigns(OrEmpty(data), CampaignComparison(data));
  }

  /** Whatever is picked from the totals is the total of one of the campaigns. */
  lemma TotalsOfCampaigns(cs: seq<Campaign>, top: seq<CampaignTotal>)
    requires multiset(top) <= multiset(Totals(cs))
    ensures forall t :: t in top ==> exists i :: 0 <= i < |cs| && t == TotalOf(cs[i])
  {
    var all := Totals(cs);
    forall t | t in top
      ensures exists i :: 0 <= i < |cs| && t == TotalOf(cs[i])
    {
      assert t in multiset(all);
      var i :| 0 <= i < |all| && all[i] == t;
    }
  }
}
