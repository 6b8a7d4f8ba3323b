/**
 * The donor card on the dialer screen: the badge that classifies a donor
 * by previous donation, and the figures the card shows with their
 * fallbacks.
 */
module DonorCard {
  import opened Common
  import opened Records

  datatype Tier = MajorDonor | HighValue | PreviousDonor | NewProspect

  datatype Badge = Badge(text: string, color: string)

  /**
   * The tier of a previous donation amount. A missing amount compares as
   * no donation (`null > 0` is false), so it is a new prospect.
   */
  function TierOf(amount: Option<int>): (t: Tier)
    ensures t == MajorDonor <==> IntOr(amount, 0) > 1000
    ensures t == HighValue <==> 500 < IntOr(amount, 0) <= 1000
    ensures t == PreviousDonor <==> 0 < IntOr(amount, 0) <= 500
    ensures t == NewProspect <==> IntOr(amount, 0) <= 0
  {
    var a := IntOr(amount, 0);
    if a > 1000 then MajorDonor
    else if a > 500 then HighValue
    else if a > 0 then PreviousDonor
    else NewProspect
  }

  function BadgeFor(t: Tier): Badge {
    match t
    case MajorDonor => Badge("Major Donor", "bg-yellow-500")
    case HighValue => Badge("High Value", "bg-purple-500")
    case PreviousDonor => Badge("Previous Donor", "bg-green-500")
    case NewProspect => Badge("New Prospect", "bg-blue-500")
  }

  /** `getDonorBadge()`. */
  function DonorBadge(d: Donor): (b: Badge)
    ensures IntOr(d.previousDonationAmount, 0) > 1000 ==> b == Badge("Major Donor", "bg-yellow-500")
    ensures 500 < IntOr(d.previousDonationAmount, 0) <= 1000 ==> b == Badge("High Value", "bg-purple-500")
    ensures 0 < IntOr(d.previousDonationAmount, 0) <= 500 ==> b == Badge("Previous Donor", "bg-green-500")
    ensures IntOr(d.previousDonationAmount, 0) <= 0 ==> b == Badge("New Prospect", "bg-blue-500")
  {
    BadgeFor(TierOf(d.previousDonationAmount))
  }

  /** The four badges are told apart by their text: the text shown names the tier. */
  lemma BadgeTextsDistinct(t1: Tier, t2: Tier)
    ensures BadgeFor(t1).text == BadgeFor(t2).text <==> t1 == t2
  {
    assert |"Major Donor"| == 11 && |"High Value"| == 10 && |"Previous Donor"| == 14 && |"New Prospect"| == 12;
  }

  /** The order of the tiers, from new prospect up to major donor. */
  function Rank(t: Tier): nat {
    match t
    case NewProspect => 0
    case PreviousDonor => 1
    case HighValue => 2
    case MajorDonor => 3
  }

  /** A higher previous donation never earns a lower badge. */
  lemma TierMonotone(a: int, b: int)
    requires a <= b
    ensures Rank(TierOf(Some(a))) <= Rank(TierOf(Some(b)))
  {
  }

  /** `donor.score || 50`: a missing or zero score shows as 50. */
  function DisplayedScore(d: Donor): (score: int)
    ensures !IntTruthy(d.score) ==> score == 50
    ensures IntTruthy(d.score) ==> score == d.score.value
  {
    IntOr(d.score, 50)
  }

  /** `$${amount || 0}`, as the card shows the previous donation and the total donated. */
  function MoneyText(amount: Option<int>): (s: string)
    ensures !IntTruthy(amount) ==> s == "$0"
    ensures IntTruthy(amount) ==> s == "$" + IntToString(amount.value)
  {
    "$" + IntToString(IntOr(amount, 0))
  }

  /** The last contact is shown as a date (`dateText`, its locale rendering) or as "Never". */
  function LastContactText(d: Donor, dateText: string): (s: string)
    ensures d.lastContactDate.None? ==> s == "Never"
    ensures d.lastContactDate.Some? ==> s == dateText
  {
    if d.lastContactDate.Some? then dateText else "Never"
  }

  /** The notes panel appears only for non-empty notes. */
  predicate ShowsNotes(d: Donor) {
    StrTruthy(d.notes)
  }
}
