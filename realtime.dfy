/**
 * The live views of the dashboard: the pending call queue, today's calls
 * with their running counters, today's donations with their running total,
 * and the broadcast event feed. Each view is a hook state that an initial
 * load replaces and change events (INSERT, UPDATE, DELETE on a table, or a
 * broadcast message) update one at a time; the list transforms are
 * functions, the hook states are classes whose methods apply them.
 *
 * Subscription wiring and transport order are not modelled: events arrive
 * as method calls, and each read the handler makes is an input.
 */
module Realtime {
  import opened Common
  import opened Records

  /** A column value of a row received in a change event. */
  datatype Value = Str(s: string) | Num(n: int) | Null

  /** A row as a JavaScript object: column name to value. */
  type Fields = map<string, Value>

  // ---------------------------------------------------------------------
  // Queue (useRealtimeQueue)
  // ---------------------------------------------------------------------

  /** A `call_queue` row as carried by a change event. */
  datatype QueueRow = QueueRow(id: Id, fields: Fields)

  /** A queue item on screen: the row's columns and the donor read for it. */
  datatype QueueEntry = QueueEntry(id: Id, fields: Fields, donor: Option<Donor>)

  /** INSERT: `[...prev, { ...new, donor }]`, one entry at the end. */
  function QueueInsert(q: seq<QueueEntry>, row: QueueRow, donor: Option<Donor>): (r: seq<QueueEntry>)
    ensures |r| == |q| + 1 && r[..|q|] == q
    ensures r[|q|].id == row.id && r[|q|].fields == row.fields && r[|q|].donor == donor
  {
    q + [QueueEntry(row.id, row.fields, donor)]
  }

  /** UPDATE: every entry with the row's id gets the row's columns spread over its own. */
  function QueueUpdate(q: seq<QueueEntry>, row: QueueRow): (r: seq<QueueEntry>)
    ensures |r| == |q|
    ensures forall i :: 0 <= i < |q| ==> r[i].id == q[i].id && r[i].donor == q[i].donor
    ensures forall i :: 0 <= i < |q| && q[i].id != row.id ==> r[i] == q[i]
    ensures forall i :: 0 <= i < |q| && q[i].id == row.id ==>
              r[i].fields.Keys == q[i].fields.Keys + row.fields.Keys
    ensures forall i, k :: 0 <= i < |q| && q[i].id == row.id && k in row.fields ==>
              r[i].fields[k] == row.fields[k]
    ensures forall i, k :: 0 <= i < |q| && q[i].id == row.id && k in q[i].fields && k !in row.fields ==>
              r[i].fields[k] == q[i].fields[k]
  {
    seq(|q|, i requires 0 <= i < |q| =>
      if q[i].id == row.id then q[i].(fields := q[i].fields + row.fields) else q[i])
  }

  /** DELETE: `prev.filter(item => item.id !== old.id)`. */
  function QueueDelete(q: seq<QueueEntry>, id: Id): (r: seq<QueueEntry>)
    ensures |r| <= |q|
    ensures forall i :: 0 <= i < |r| ==> r[i].id != id
    ensures forall e :: e in r <==> e in q && e.id != id
    decreases |q|
  {
    if q == [] then []
    else if q[0].id == id then QueueDelete(q[1..], id)
    else [q[0]] + QueueDelete(q[1..], id)
  }

  /** Deleting keeps the relative order of the others: it distributes over concatenation. */
  lemma {:induction false} QueueDeleteAppend(a: seq<QueueEntry>, b: seq<QueueEntry>, id: Id)
    ensures QueueDelete(a + b, id) == QueueDelete(a, id) + QueueDelete(b, id)
    decreases |a|
  {
    if a == [] {
      assert a + b == b;
    } else {
      assert (a + b)[1..] == a[1..] + b;
      QueueDeleteAppend(a[1..], b, id);
    }
  }

  /** An entry inserted and then deleted by its id leaves the list as a delete alone would. */
  lemma InsertThenDelete(q: seq<QueueEntry>, row: QueueRow, donor: Option<Donor>)
    ensures QueueDelete(QueueInsert(q, row, donor), row.id) == QueueDelete(q, row.id)
  {
    var e := QueueEntry(row.id, row.fields, donor);
    QueueDeleteAppend(q, [e], row.id);
    assert QueueDelete([e], row.id) == QueueDelete([], row.id);
  }

  /** Applying the same UPDATE twice is the same as applying it once. */
  lemma QueueUpdateIdempotent(q: seq<QueueEntry>, row: QueueRow)
    ensures QueueUpdate(QueueUpdate(q, row), row) == QueueUpdate(q, row)
  {
    var once := QueueUpdate(q, row);
    var twice := QueueUpdate(once, row);
    forall i | 0 <= i < |q|
      ensures twice[i] == once[i]
    {
      if q[i].id == row.id {
        assert twice[i].fields == once[i].fields;
      }
    }
  }

  class RealtimeQueue {
    var queue: seq<QueueEntry>
    var loading: bool

    constructor ()
      ensures queue == [] && loading
    {
      queue := [];
      loading := true;
    }

    /**
     * The initial load of pending rows: the fetched list, or [] when the
     * response has no data; an error keeps the list. Loading ends either way.
     */
    method Load(result: Remote<Option<seq<QueueEntry>>>)
      modifies this
      ensures result.Failed? ==> queue == old(queue)
      ensures result == Ok(None) ==> queue == []
      ensures result.Ok? && result.value.Some? ==> queue == result.value.value
      ensures !loading
    {
      if result.Ok? {
        queue := if result.value.Some? then result.value.value else [];
      }
      loading := false;
    }

    method OnInsert(row: QueueRow, donor: Option<Donor>)
      modifies this`queue
      ensures queue == QueueInsert(old(queue), row, donor)
    {
      queue := QueueInsert(queue, row, donor);
    }

    method OnUpdate(row: QueueRow)
      modifies this`queue
      ensures queue == QueueUpdate(old(queue), row)
    {
      queue := QueueUpdate(queue, row);
    }

    method OnDelete(id: Id)
      modifies this`queue
      ensures queue == QueueDelete(old(queue), id)
    {
      queue := QueueDelete(queue, id);
    }
  }

  // ---------------------------------------------------------------------
  // Calls (useRealtimeCalls)
  // ---------------------------------------------------------------------

  datatype CallStats = CallStats(total: int, successful: int, totalRaised: int)

  /** UPDATE on the list: the call with the row's id is replaced by the row, in place. */
  function ReplaceCall(calls: seq<Call>, c: Call): (r: seq<Call>)
    ensures |r| == |calls|
    ensures forall i :: 0 <= i < |calls| ==> r[i].id == calls[i].id
    ensures forall i :: 0 <= i < |calls| ==> r[i] == if calls[i].id == c.id then c else calls[i]
  {
    seq(|calls|, i requires 0 <= i < |calls| => if calls[i].id == c.id then c else calls[i])
  }

  /** `filter(c => c.id !== id)` on the active calls. */
  function WithoutCall(calls: seq<Call>, id: Id): (r: seq<Call>)
    ensures |r| <= |calls|
    ensures forall c :: c in r <==> c in calls && c.id != id
    decreases |calls|
  {
    if calls == [] then []
    else if calls[0].id == id then WithoutCall(calls[1..], id)
    else [calls[0]] + WithoutCall(calls[1..], id)
  }

  /** `filter(c => !c.ended_at)`: the calls still in progress. */
  function OpenCalls(calls: seq<Call>): (r: seq<Call>)
    ensures |r| <= |calls|
    ensures forall c :: c in r <==> c in calls && c.endedAt.None?
    decreases |calls|
  {
    if calls == [] then []
    else if calls[0].endedAt.None? then [calls[0]] + OpenCalls(calls[1..])
    else OpenCalls(calls[1..])
  }

  /** `filter(c => c.outcome === 'donated')`. */
  function DonatedCalls(calls: seq<Call>): (r: seq<Call>)
    ensures |r| <= |calls|
    ensures forall c :: c in r <==> c in calls && c.outcome == Some("donated")
    decreases |calls|
  {
    if calls == [] then []
    else if calls[0].outcome == Some("donated") then [calls[0]] + DonatedCalls(calls[1..])
    else DonatedCalls(calls[1..])
  }

  /** `reduce((sum, c) => sum + (c.donation_amount || 0), 0)`. */
  function Raised(calls: seq<Call>): int
    decreases |calls|
  {
    if calls == [] then 0 else IntOr(calls[0].donationAmount, 0) + Raised(calls[1..])
  }

  /** The counters the initial load computes from today's calls. */
  function LoadedStats(calls: seq<Call>): (s: CallStats)
    ensures s.total == |calls|
    ensures 0 <= s.successful <= s.total
    ensures s.successful == |DonatedCalls(calls)|
    ensures s.totalRaised == Raised(DonatedCalls(calls))
  {
    var successful := DonatedCalls(calls);
    CallStats(|calls|, |successful|, Raised(successful))
  }

  /** A live UPDATE counts a donation only when the call has ended as donated with a truthy amount. */
  predicate CountsAsDonation(c: Call) {
    c.endedAt.Some? && c.outcome == Some("donated") && IntTruthy(c.donationAmount)
  }

  /** The counters after a live INSERT: one more call. */
  function StatsAfterInsert(s: CallStats): (r: CallStats)
    ensures r.total == s.total + 1 && r.successful == s.successful && r.totalRaised == s.totalRaised
  {
    s.(total := s.total + 1)
  }

  /** The counters after a live UPDATE: a counted donation adds one success and its amount. */
  function StatsAfterUpdate(s: CallStats, c: Call): (r: CallStats)
    ensures r.total == s.total
    ensures CountsAsDonation(c) ==> r.successful == s.successful + 1
                                    && r.totalRaised == s.totalRaised + c.donationAmount.value
    ensures !CountsAsDonation(c) ==> r == s
  {
    if CountsAsDonation(c) then
      s.(successful := s.successful + 1, totalRaised := s.totalRaised + c.donationAmount.value)
    else s
  }

  /** No call in the list has the id. */
  predicate FreshId(calls: seq<Call>, id: Id) {
    forall i :: 0 <= i < |calls| ==> calls[i].id != id
  }

  /**
   * The running counters agree with a reload across a whole call: starting
   * from the loaded counters, a fresh call inserted without an outcome and
   * then updated as an ended donation with a truthy amount gives exactly
   * the counters a reload of the resulting list would.
   */
  lemma LiveStatsAgreeWithReload(calls: seq<Call>, started: Call, finished: Call)
    requires FreshId(calls, started.id)
    requires started.outcome.None? && finished.id == started.id
    requires CountsAsDonation(finished)
    ensures ReplaceCall([started] + calls, finished) == [finished] + calls
    ensures StatsAfterUpdate(StatsAfterInsert(LoadedStats(calls)), finished)
            == LoadedStats([finished] + calls)
  {
    var r := ReplaceCall([started] + calls, finished);
    assert r[0] == finished;
    forall i | 1 <= i < |r|
      ensures r[i] == calls[i - 1]
    {
      assert ([started] + calls)[i] == calls[i - 1];
    }
    assert r == [finished] + calls;
    assert ([finished] + calls)[1..] == calls;
  }

  /**
   * Where the two computations part: a call recorded as donated without an
   * amount is a success for a reload but not for the running counters.
   */
  lemma DonationWithoutAmountCountsOnlyOnReload(calls: seq<Call>, finished: Call)
    requires finished.endedAt.Some? && finished.outcome == Some("donated") && finished.donationAmount.None?
    ensures StatsAfterUpdate(LoadedStats(calls), finished).successful == LoadedStats(calls).successful
    ensures LoadedStats([finished] + calls).successful == LoadedStats(calls).successful + 1
  {
    assert ([finished] + calls)[1..] == calls;
  }

  class RealtimeCalls {
    var calls: seq<Call>
    var activeCalls: seq<Call>
    var stats: CallStats

    /** Every active call is still in progress. */
    predicate ActiveAreOpen()
      reads this
    {
      forall i :: 0 <= i < |activeCalls| ==> activeCalls[i].endedAt.None?
    }

    /** The call counter matches the list. */
    predicate TotalMatches()
      reads this
    {
      stats.total == |calls|
    }

    constructor ()
      ensures calls == [] && activeCalls == [] && stats == CallStats(0, 0, 0)
      ensures ActiveAreOpen() && TotalMatches()
    {
      calls := [];
      activeCalls := [];
      stats := CallStats(0, 0, 0);
    }

    /** The initial load of today's calls; an error keeps everything. */
    method Load(result: Remote<Option<seq<Call>>>)
      modifies this
      ensures result.Failed? ==> calls == old(calls) && activeCalls == old(activeCalls) && stats == old(stats)
      ensures result.Ok? ==>
        var data := if result.value.Some? then result.value.value else [];
        calls == data && activeCalls == OpenCalls(data) && stats == LoadedStats(data)
      ensures result.Ok? ==> ActiveAreOpen() && TotalMatches()
    {
      if result.Failed? {
        return;
      }
      var data := if result.value.Some? then result.value.value else [];
      calls := data;
      activeCalls := OpenCalls(data);
      stats := LoadedStats(data);
    }

    /** INSERT: prepend, count it, and track it as active when it has not ended. */
    method OnInsert(c: Call)
      modifies this
      ensures calls == [c] + old(calls)
      ensures stats == StatsAfterInsert(old(stats))
      ensures activeCalls == if c.endedAt.None? then old(activeCalls) + [c] else old(activeCalls)
      ensures old(ActiveAreOpen()) ==> ActiveAreOpen()
      ensures old(TotalMatches()) ==> TotalMatches()
    {
      calls := [c] + calls;
      stats := StatsAfterInsert(stats);
      if c.endedAt.None? {
        activeCalls := activeCalls + [c];
      }
    }

    /** UPDATE: replace in place; an ended call leaves the active list and may count as a donation. */
    method OnUpdate(c: Call)
      modifies this
      ensures calls == ReplaceCall(old(calls), c)
      ensures c.endedAt.Some? ==> activeCalls == WithoutCall(old(activeCalls), c.id)
      ensures c.endedAt.None? ==> activeCalls == old(activeCalls)
      ensures stats == StatsAfterUpdate(old(stats), c)
      ensures old(ActiveAreOpen()) ==> ActiveAreOpen()
      ensures old(TotalMatches()) ==> TotalMatches()
    {
      calls := ReplaceCall(calls, c);
      if c.endedAt.Some? {
        activeCalls := WithoutCall(activeCalls, c.id);
      }
      stats := StatsAfterUpdate(stats, c);
    }
  }

  // ---------------------------------------------------------------------
  // Donations (useRealtimeDonations)
  // ---------------------------------------------------------------------

  /** The donor columns read alongside a donation: only `full_name`. */
  datatype DonorName = DonorName(fullName: Option<string>)

  /** A `donations` row as carried by a change event. */
  datatype DonationRow = DonationRow(id: Id, donorId: Id, amount: int, createdAt: int)

  /** A donation on screen: the row and the donor read for it. */
  datatype DonationEntry = DonationEntry(row: DonationRow, donor: Option<DonorName>)

  /** `reduce((sum, d) => sum + d.amount, 0)`. */
  function SumAmounts(s: seq<DonationEntry>): int
    decreases |s|
  {
    if s == [] then 0 else s[0].row.amount + SumAmounts(s[1..])
  }

  /** The sum of a concatenation is the sum of the parts. */
  lemma {:induction false} SumAmountsAppend(a: seq<DonationEntry>, b: seq<DonationEntry>)
    ensures SumAmounts(a + b) == SumAmounts(a) + SumAmounts(b)
    decreases |a|
  {
    if a == [] {
      assert a + b == b;
    } else {
      assert (a + b)[1..] == a[1..] + b;
      SumAmountsAppend(a[1..], b);
    }
  }

  lemma SumAmountsSingle(x: DonationEntry)
    ensures SumAmounts([x]) == x.row.amount
  {
    assert [x][1..] == [];
  }

  lemma SplitAround<T>(b: seq<T>, j: nat)
    requires j < |b|
    ensures b == (b[..j] + [b[j]]) + b[j + 1..]
  {
  }

  /** Taking one entry out of a list takes its amount out of the sum and its copy out of the multiset. */
  lemma SumAmountsRemove(b: seq<DonationEntry>, j: nat)
    requires j < |b|
    ensures SumAmounts(b) == b[j].row.amount + SumAmounts(b[..j] + b[j + 1..])
    ensures multiset(b[..j] + b[j + 1..]) == multiset(b) - multiset{b[j]}
  {
    var x, p, q := b[j], b[..j], b[j + 1..];
    var px := p + [x];
    SplitAround(b, j);
    SumAmountsAppend(px, q);
    SumAmountsAppend(p, [x]);
    SumAmountsSingle(x);
    SumAmountsAppend(p, q);
    assert multiset(b) == multiset(p) + multiset{x} + multiset(q);
  }

  /** Summing does not depend on the order of the list. */
  lemma {:induction false} SumAmountsPermutation(a: seq<DonationEntry>, b: seq<DonationEntry>)
    requires multiset(a) == multiset(b)
    ensures SumAmounts(a) == SumAmounts(b)
    decreases |a|
  {
    if a == [] {
      assert |b| == |multiset(b)| == 0;
    } else {
      var x := a[0];
      assert x in multiset(b);
      var j :| 0 <= j < |b| && b[j] == x;
      SumAmountsRemove(b, j);
      assert a == [x] + a[1..];
      assert multiset(a[1..]) == multiset(a) - multiset{x};
      SumAmountsPermutation(a[1..], b[..j] + b[j + 1..]);
    }
  }

  class RealtimeDonations {
    var donations: seq<DonationEntry>
    var todaysTotal: int

    /** The running total is the sum of the listed donations. */
    predicate TotalMatches()
      reads this
    {
      todaysTotal == SumAmounts(donations)
    }

    constructor ()
      ensures donations == [] && todaysTotal == 0 && TotalMatches()
    {
      donations := [];
      todaysTotal := 0;
    }

    /** The initial load: the fetched list (or []) and the sum of its amounts; an error keeps both. */
    method Load(result: Remote<Option<seq<DonationEntry>>>)
      modifies this
      ensures result.Failed? ==> donations == old(donations) && todaysTotal == old(todaysTotal)
      ensures result.Ok? ==> donations == (if result.value.Some? then result.value.value else [])
      ensures result.Ok? ==> TotalMatches()
    {
      if result.Ok? {
        donations := if result.value.Some? then result.value.value else [];
        todaysTotal := SumAmounts(donations);
      }
    }

    /**
     * INSERT: prepend the row with its donor, add its amount to the total,
     * and hand the same entry to the celebration callback when there is one.
     */
    method OnInsert(row: DonationRow, donor: Option<DonorName>, hasCallback: bool)
      returns (celebrated: Option<DonationEntry>)
      modifies this
      ensures donations == [DonationEntry(row, donor)] + old(donations)
      ensures todaysTotal == old(todaysTotal) + row.amount
      ensures celebrated == if hasCallback then Some(DonationEntry(row, donor)) else None
      ensures old(TotalMatches()) ==> TotalMatches()
    {
      var entry := DonationEntry(row, donor);
      donations := [entry] + donations;
      todaysTotal := todaysTotal + row.amount;
      assert donations[1..] == old(donations);
      celebrated := if hasCallback then Some(entry) else None;
    }
  }

  // ---------------------------------------------------------------------
  // Broadcast events (useBroadcast)
  // ---------------------------------------------------------------------

  /** The tag a received broadcast is stored under, for the three events the feed listens to. */
  function EventTag(event: string): (tag: Option<string>)
    ensures tag.Some? <==> event in {"donation", "milestone", "call-started"}
    ensures event == "call-started" ==> tag == Some("call")
    ensures event in {"donation", "milestone"} ==> tag == Some(event)
  {
    if event == "donation" then Some("donation")
    else if event == "milestone" then Some("milestone")
    else if event == "call-started" then Some("call")
    else None
  }

  /** `{ type: tag, ...payload }`: the payload's own columns, and `type` unless the payload has one. */
  function Tagged(tag: string, payload: Fields): (r: Fields)
    ensures r.Keys == payload.Keys + {"type"}
    ensures forall k :: k in payload ==> r[k] == payload[k]
    ensures "type" !in payload ==> r["type"] == Str(tag)
  {
    map["type" := Str(tag)] + payload
  }

  /** The message `broadcast(event, payload)` sends, when the channel is open. */
  datatype Message = Message(kind: string, event: string, payload: Fields)

  function BroadcastMessage(channelOpen: bool, event: string, payload: Fields): (m: Option<Message>)
    ensures m.Some? <==> channelOpen
    ensures m.Some? ==> m.value.kind == "broadcast" && m.value.event == event && m.value.payload == payload
  {
    if channelOpen then Some(Message("broadcast", event, payload)) else None
  }

  class Broadcasts {
    var events: seq<Fields>

    constructor ()
      ensures events == []
    {
      events := [];
    }

    /** A received broadcast: one tagged event appended for the three listened-to events; others are ignored. */
    method Receive(event: string, payload: Fields)
      modifies this
      ensures EventTag(event).Some? ==> events == old(events) + [Tagged(EventTag(event).value, payload)]
      ensures EventTag(event).None? ==> events == old(events)
    {
      var tag := EventTag(event);
      if tag.Some? {
        events := events + [Tagged(tag.value, payload)];
      }
    }
  }
}
