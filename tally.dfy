/**
 * Grouping rows by a key into an object of running totals, as the analytics
 * page does with `forEach` over a fetched list: the first row of a key
 * creates its group (and gives it its name), every row of the key adds one
 * to its count, one to its hits when it is a hit, and its amount to its
 * amount. JavaScript objects with non-numeric keys enumerate in insertion
 * order, so the groups come out in the order their keys first occur.
 */
module Tally {

  /** A row as the grouping loop sees it. */
  datatype Item = Item(key: string, name: string, hit: bool, amount: int)

  /** The running totals of one key. */
  datatype Group = Group(key: string, name: string, count: nat, hits: nat, amount: int)

  /** Sum of a list of integers, taken from the end (the way a loop over a prefix grows it). */
  function SumSeq(s: seq<int>): int
    decreases |s|
  {
    if s == [] then 0 else SumSeq(s[..|s| - 1]) + s[|s| - 1]
  }

  lemma SumSeqAppend(s: seq<int>, x: int)
    ensures SumSeq(s + [x]) == SumSeq(s) + x
  {
    assert (s + [x])[..|s|] == s;
  }

  /** A list of zeros sums to 0. */
  lemma {:induction false} SumSeqZeros(s: seq<int>)
    requires forall i :: 0 <= i < |s| ==> s[i] == 0
    ensures SumSeq(s) == 0
    decreases |s|
  {
    if s != [] {
      SumSeqZeros(s[..|s| - 1]);
    }
  }

  /** Changing one element changes the sum by the difference. */
  lemma {:induction false} SumSeqUpdate(s: seq<int>, j: nat, v: int)
    requires j < |s|
    ensures SumSeq(s[j := v]) == SumSeq(s) - s[j] + v
    decreases |s|
  {
    var n := |s| - 1;
    if j < n {
      assert s[j := v][..n] == s[..n][j := v];
      SumSeqUpdate(s[..n], j, v);
    } else {
      assert s[j := v][..n] == s[..n];
    }
  }

  /** The group of `key` folded over the rows of `s`, one row at a time. */
  function Summary(s: seq<Item>, key: string): (g: Group)
    ensures g.key == key
    ensures g.hits <= g.count
    decreases |s|
  {
    if s == [] then Group(key, "", 0, 0, 0)
    else
      var g := Summary(s[..|s| - 1], key);
      var x := s[|s| - 1];
      if x.key != key then g
      else if g.count == 0 then Group(key, x.name, 1, if x.hit then 1 else 0, x.amount)
      else Group(key, g.name, g.count + 1, g.hits + (if x.hit then 1 else 0), g.amount + x.amount)
  }

  /** The keys of `s` without repeats, in the order they first occur. */
  function FirstKeys(s: seq<Item>): (r: seq<string>)
    ensures forall a, b :: 0 <= a < b < |r| ==> r[a] != r[b]
    decreases |s|
  {
    if s == [] then []
    else
      var p := FirstKeys(s[..|s| - 1]);
      if s[|s| - 1].key in p then p else p + [s[|s| - 1].key]
  }

  /** Keys listed by FirstKeys are exactly the keys of some row. */
  lemma {:induction false} FirstKeysMembers(s: seq<Item>, k: string)
    ensures k in FirstKeys(s) <==> exists i :: 0 <= i < |s| && s[i].key == k
    decreases |s|
  {
    if s != [] {
      var n := |s| - 1;
      FirstKeysMembers(s[..n], k);
      if exists i :: 0 <= i < n && s[..n][i].key == k {
        var i :| 0 <= i < n && s[..n][i].key == k;
        assert s[i].key == k;
      }
      if exists i :: 0 <= i < |s| && s[i].key == k {
        var i :| 0 <= i < |s| && s[i].key == k;
        if i < n {
          assert s[..n][i].key == k;
        }
      }
    }
  }

  /** A key has rows (a non-zero count) exactly when FirstKeys lists it. */
  lemma {:induction false} SummaryCount(s: seq<Item>, k: string)
    ensures Summary(s, k).count > 0 <==> k in FirstKeys(s)
    decreases |s|
  {
    if s != [] {
      SummaryCount(s[..|s| - 1], k);
    }
  }

  function KeysOf(gs: seq<Group>): (r: seq<string>)
    ensures |r| == |gs| && forall j :: 0 <= j < |gs| ==> r[j] == gs[j].key
  {
    seq(|gs|, j requires 0 <= j < |gs| => gs[j].key)
  }

  function Counts(gs: seq<Group>): (r: seq<int>)
    ensures |r| == |gs| && forall j :: 0 <= j < |gs| ==> r[j] == gs[j].count
  {
    seq(|gs|, j requires 0 <= j < |gs| => gs[j].count as int)
  }

  function Hits(gs: seq<Group>): (r: seq<int>)
    ensures |r| == |gs| && forall j :: 0 <= j < |gs| ==> r[j] == gs[j].hits
  {
    seq(|gs|, j requires 0 <= j < |gs| => gs[j].hits as int)
  }

  function Amounts(gs: seq<Group>): (r: seq<int>)
    ensures |r| == |gs| && forall j :: 0 <= j < |gs| ==> r[j] == gs[j].amount
  {
    seq(|gs|, j requires 0 <= j < |gs| => gs[j].amount)
  }

  /** 1 for each hit row, 0 for the others. */
  function HitFlags(s: seq<Item>): (r: seq<int>)
    ensures |r| == |s| && forall i :: 0 <= i < |s| ==> r[i] == if s[i].hit then 1 else 0
  {
    seq(|s|, i requires 0 <= i < |s| => if s[i].hit then 1 else 0)
  }

  function ItemAmounts(s: seq<Item>): (r: seq<int>)
    ensures |r| == |s| && forall i :: 0 <= i < |s| ==> r[i] == s[i].amount
  {
    seq(|s|, i requires 0 <= i < |s| => s[i].amount)
  }

  /** The group a key's first row starts. */
  function Start(x: Item): (g: Group)
    ensures g.key == x.key && g.count == 1
  {
    Group(x.key, x.name, 1, if x.hit then 1 else 0, x.amount)
  }

  /** A later row of the group's key added to its totals. */
  function Bump(g: Group, x: Item): (g': Group)
    ensures g'.key == g.key && g'.count == g.count + 1
  {
    Group(g.key, g.name, g.count + 1, g.hits + (if x.hit then 1 else 0), g.amount + x.amount)
  }

  /** `slot` finds the group of each key, and the keys are those of `s` in first-occurrence order. */
  ghost predicate Indexed(s: seq<Item>, groups: seq<Group>, slot: map<string, nat>) {
    && KeysOf(groups) == FirstKeys(s)
    && (forall k :: k in slot <==> k in KeysOf(groups))
    && (forall k :: k in slot ==> slot[k] < |groups| && groups[slot[k]].key == k)
  }

  /** Each group is its key's summary over `s`. */
  ghost predicate Summarised(s: seq<Item>, groups: seq<Group>) {
    && (forall j :: 0 <= j < |groups| ==> groups[j] == Summary(s, groups[j].key))
    && (forall j :: 0 <= j < |groups| ==> groups[j].count > 0)
  }

  /** The group totals add up to the row totals of `s`. */
  ghost predicate Balanced(s: seq<Item>, groups: seq<Group>) {
    && SumSeq(Counts(groups)) == |s|
    && SumSeq(Hits(groups)) == SumSeq(HitFlags(s))
    && SumSeq(Amounts(groups)) == SumSeq(ItemAmounts(s))
  }

  /** What the loop keeps after the rows `s`. */
  ghost predicate Tallied(s: seq<Item>, groups: seq<Group>, slot: map<string, nat>) {
    Indexed(s, groups, slot) && Summarised(s, groups) && Balanced(s, groups)
  }

  lemma RowSums(s: seq<Item>, x: Item)
    ensures SumSeq(HitFlags(s + [x])) == SumSeq(HitFlags(s)) + (if x.hit then 1 else 0)
    ensures SumSeq(ItemAmounts(s + [x])) == SumSeq(ItemAmounts(s)) + x.amount
  {
    assert HitFlags(s + [x]) == HitFlags(s) + [if x.hit then 1 else 0];
    assert ItemAmounts(s + [x]) == ItemAmounts(s) + [x.amount];
    SumSeqAppend(HitFlags(s), if x.hit then 1 else 0);
    SumSeqAppend(ItemAmounts(s), x.amount);
  }

  lemma RowSummary(s: seq<Item>, x: Item, k: string)
    ensures k != x.key ==> Summary(s + [x], k) == Summary(s, k)
    ensures k == x.key && Summary(s, k).count > 0 ==> Summary(s + [x], k) == Bump(Summary(s, k), x)
    ensures k == x.key && Summary(s, k).count == 0 ==> Summary(s + [x], k) == Start(x)
  {
    assert (s + [x])[..|s|] == s;
  }

  lemma RowKeys(s: seq<Item>, x: Item)
    ensures FirstKeys(s + [x]) == if x.key in FirstKeys(s) then FirstKeys(s) else FirstKeys(s) + [x.key]
  {
    assert (s + [x])[..|s|] == s;
  }

  lemma ExistingSummarised(s: seq<Item>, x: Item, groups: seq<Group>, j: nat)
    requires Summarised(s, groups) && j < |groups| && groups[j].key == x.key
    requires forall i :: 0 <= i < |groups| && i != j ==> groups[i].key != x.key
    ensures Summarised(s + [x], groups[j := Bump(groups[j], x)])
  {
    var gs := groups[j := Bump(groups[j], x)];
    forall i | 0 <= i < |gs|
      ensures gs[i] == Summary(s + [x], gs[i].key)
    {
      RowSummary(s, x, groups[i].key);
    }
  }

  lemma ExistingBalanced(s: seq<Item>, x: Item, groups: seq<Group>, j: nat)
    requires Balanced(s, groups) && j < |groups|
    ensures Balanced(s + [x], groups[j := Bump(groups[j], x)])
  {
    var updated := Bump(groups[j], x);
    var gs := groups[j := updated];
    RowSums(s, x);
    assert Counts(gs) == Counts(groups)[j := updated.count];
    assert Hits(gs) == Hits(groups)[j := updated.hits];
    assert Amounts(gs) == Amounts(groups)[j := updated.amount];
    SumSeqUpdate(Counts(groups), j, updated.count);
    SumSeqUpdate(Hits(groups), j, updated.hits);
    SumSeqUpdate(Amounts(groups), j, updated.amount);
  }

  /** A row whose key already has a group bumps that group. */
  lemma StepExisting(s: seq<Item>, x: Item, groups: seq<Group>, slot: map<string, nat>)
    requires Tallied(s, groups, slot) && x.key in slot
    ensures Tallied(s + [x], groups[slot[x.key] := Bump(groups[slot[x.key]], x)], slot)
  {
    var j := slot[x.key];
    var gs := groups[j := Bump(groups[j], x)];
    assert x.key in FirstKeys(s);
    RowKeys(s, x);
    assert KeysOf(gs) == KeysOf(groups);
    forall i | 0 <= i < |groups| && i != j
      ensures groups[i].key != x.key
    {
      assert KeysOf(groups)[i] != KeysOf(groups)[j];
    }
    ExistingSummarised(s, x, groups, j);
    ExistingBalanced(s, x, groups, j);
  }

  lemma NewIndexed(s: seq<Item>, x: Item, groups: seq<Group>, slot: map<string, nat>)
    requires Indexed(s, groups, slot) && x.key !in slot
    ensures Indexed(s + [x], groups + [Start(x)], slot[x.key := |groups|])
  {
    var gs := groups + [Start(x)];
    assert x.key !in FirstKeys(s);
    RowKeys(s, x);
    assert KeysOf(gs) == KeysOf(groups) + [x.key];
  }

  lemma NewSummarised(s: seq<Item>, x: Item, groups: seq<Group>)
    requires Summarised(s, groups) && x.key !in FirstKeys(s)
    requires forall j :: 0 <= j < |groups| ==> groups[j].key != x.key
    ensures Summarised(s + [x], groups + [Start(x)])
  {
    var gs := groups + [Start(x)];
    SummaryCount(s, x.key);
    forall i | 0 <= i < |gs|
      ensures gs[i] == Summary(s + [x], gs[i].key)
    {
      RowSummary(s, x, gs[i].key);
    }
  }

  lemma NewBalanced(s: seq<Item>, x: Item, groups: seq<Group>)
    requires Balanced(s, groups)
    ensures Balanced(s + [x], groups + [Start(x)])
  {
    var created := Start(x);
    var gs := groups + [created];
    RowSums(s, x);
    assert Counts(gs) == Counts(groups) + [1];
    assert Hits(gs) == Hits(groups) + [created.hits];
    assert Amounts(gs) == Amounts(groups) + [x.amount];
    SumSeqAppend(Counts(groups), 1);
    SumSeqAppend(Hits(groups), created.hits);
    SumSeqAppend(Amounts(groups), x.amount);
  }

  /** A row with a new key starts a group at the end. */
  lemma StepNew(s: seq<Item>, x: Item, groups: seq<Group>, slot: map<string, nat>)
    requires Tallied(s, groups, slot) && x.key !in slot
    ensures Tallied(s + [x], groups + [Start(x)], slot[x.key := |groups|])
  {
    NewIndexed(s, x, groups, slot);
    assert x.key !in FirstKeys(s);
    forall j | 0 <= j < |groups|
      ensures groups[j].key != x.key
    {
      assert KeysOf(groups)[j] == groups[j].key;
    }
    NewSummarised(s, x, groups);
    NewBalanced(s, x, groups);
  }

  /**
   * The body of the loop: a row with a key already seen bumps that key's
   * group, a row with a new key appends a group and records its slot.
   */
  method AddRow(ghost s: seq<Item>, groups: seq<Group>, slot: map<string, nat>, x: Item)
    returns (groups': seq<Group>, slot': map<string, nat>)
    requires Tallied(s, groups, slot)
    ensures Tallied(s + [x], groups', slot')
    ensures x.key in slot ==> groups' == groups[slot[x.key] := Bump(groups[slot[x.key]], x)] && slot' == slot
    ensures x.key !in slot ==> groups' == groups + [Start(x)] && slot' == slot[x.key := |groups|]
  {
    if x.key in slot {
      StepExisting(s, x, groups, slot);
      var j := slot[x.key];
      groups', slot' := groups[j := Bump(groups[j], x)], slot;
    } else {
      StepNew(s, x, groups, slot);
      groups', slot' := groups + [Start(x)], slot[x.key := |groups|];
    }
  }

  lemma NoRowsTallied()
    ensures Tallied([], [], map[])
  {
  }

  /** What the invariant says once every row has been seen. */
  lemma AllRowsTallied(items: seq<Item>, groups: seq<Group>, slot: map<string, nat>)
    requires Tallied(items[..|items|], groups, slot)
    ensures KeysOf(groups) == FirstKeys(items)
    ensures forall j :: 0 <= j < |groups| ==> groups[j] == Summary(items, groups[j].key)
    ensures forall j :: 0 <= j < |groups| ==> groups[j].count > 0
    ensures SumSeq(Counts(groups)) == |items|
    ensures SumSeq(Hits(groups)) == SumSeq(HitFlags(items))
    ensures SumSeq(Amounts(groups)) == SumSeq(ItemAmounts(items))
  {
    assert items[..|items|] == items;
  }

  /**
   * The grouping loop. Its groups are, in first-occurrence order, exactly
   * the folded summaries of the keys that occur; so the counts add up to
   * the number of rows, the hits to the number of hit rows and the amounts
   * to the total amount.
   */
  method GroupRows(items: seq<Item>) returns (groups: seq<Group>)
    ensures KeysOf(groups) == FirstKeys(items)
    ensures forall j :: 0 <= j < |groups| ==> groups[j] == Summary(items, groups[j].key)
    ensures forall j :: 0 <= j < |groups| ==> groups[j].count > 0
    ensures SumSeq(Counts(groups)) == |items|
    ensures SumSeq(Hits(groups)) == SumSeq(HitFlags(items))
    ensures SumSeq(Amounts(groups)) == SumSeq(ItemAmounts(items))
  {
    groups := [];
    var slot: map<string, nat> := map[];
    var i := 0;
    NoRowsTallied();
    while i < |items|
      invariant 0 <= i <= |items|
      invariant Tallied(items[..i], groups, slot)
    {
      assert items[..i + 1] == items[..i] + [items[i]];
      groups, slot := AddRow(items[..i], groups, slot, items[i]);
      i := i + 1;
    }
    AllRowsTallied(items, groups, slot);
  }
}
