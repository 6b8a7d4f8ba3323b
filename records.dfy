/**
 * Rows of the hosted database that several parts of the client read.
 * Column names follow the `donors` and `calls` tables; a column that may be
 * null or absent is an `Option`. Amounts and scores are whole numbers, and
 * timestamps are abstract instants (milliseconds since the epoch).
 */
module Records {
  import opened Common

  type Id = string

  /** A row of `donors`. */
  datatype Donor = Donor(
    id: Id,
    firstName: Option<string>,          // first_name
    fullName: Option<string>,           // full_name
    email: Option<string>,
    phone: Option<string>,
    status: Option<string>,
    score: Option<int>,
    previousDonationAmount: Option<int>, // previous_donation_amount
    totalDonated: Option<int>,          // total_donated
    notes: Option<string>,
    lastContactDate: Option<int>        // last_contact_date
  )

  /** A row of `calls`. */
  datatype Call = Call(
    id: Id,
    donorId: Id,                        // donor_id
    status: string,                     // 'active' | 'completed'
    outcome: Option<string>,
    donationAmount: Option<int>,        // donation_amount
    endedAt: Option<int>,               // ended_at
    createdAt: int                      // created_at
  )

  /** `s.filter(d => d.id !== donorId)`: the entries with another id, in their original order. */
  function WithoutId(s: seq<Donor>, donorId: Id): (r: seq<Donor>)
    ensures |r| <= |s|
    ensures forall i :: 0 <= i < |r| ==> r[i].id != donorId
    ensures forall d :: d in s && d.id != donorId ==> d in r
    ensures forall d :: d in r ==> d in s
    decreases |s|
  {
    if s == [] then []
    else if s[0].id == donorId then WithoutId(s[1..], donorId)
    else [s[0]] + WithoutId(s[1..], donorId)
  }

  /** Filtering twice by the same id removes nothing more. */
  lemma {:induction false} WithoutIdIdempotent(s: seq<Donor>, donorId: Id)
    ensures WithoutId(WithoutId(s, donorId), donorId) == WithoutId(s, donorId)
    decreases |s|
  {
    if s != [] {
      WithoutIdIdempotent(s[1..], donorId);
    }
  }

  /** Filtering keeps the relative order: it distributes over concatenation. */
  lemma {:induction false} WithoutIdAppend(a: seq<Donor>, b: seq<Donor>, donorId: Id)
    ensures WithoutId(a + b, donorId) == WithoutId(a, donorId) + WithoutId(b, donorId)
    decreases |a|
  {
    if a == [] {
      assert a + b == b;
    } else {
      assert (a + b)[1..] == a[1..] + b;
      WithoutIdAppend(a[1..], b, donorId);
    }
  }
}
