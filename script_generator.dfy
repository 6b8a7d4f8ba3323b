/**
 * The call script generator: a pure function of a donor row and the hour
 * of the day (`new Date().getHours()` in the application, a parameter
 * here). It greets by time of day, addresses the donor by a display name,
 * and words every section differently for a repeat donor (a positive
 * previous donation) and for a new prospect.
 */
module ScriptGenerator {
  import opened Common
  import opened Records

  /** The five objections the script answers; `ObjectionText` is the key the script object uses. */
  datatype Objection = NoMoney | AlreadyDonated | ThinkAboutIt | NotInterested | HowUsed

  function ObjectionText(o: Objection): string {
    match o
    case NoMoney => "I don't have money right now"
    case AlreadyDonated => "I already donated"
    case ThinkAboutIt => "I need to think about it"
    case NotInterested => "Not interested"
    case HowUsed => "How will the money be used?"
  }

  const AllObjections: set<Objection> := {NoMoney, AlreadyDonated, ThinkAboutIt, NotInterested, HowUsed}

  /** The five sections of a script; `objections` maps an objection to its response. */
  datatype Script = Script(
    opening: string,
    pitch: string,
    ask: string,
    objections: map<Objection, string>,
    closing: string
  )

  const RepeatPitch :=
    "As you know from your previous involvement, we're working hard to [campaign goal]. Thanks to supporters like you, we've already [achievement]. Now we're in the final push and every contribution matters."
  const NewPitch :=
    "We're working to [campaign goal] and we're reaching out to community members who might be interested in supporting our cause. We've already [achievement] and with your help, we can [future goal]."
  const NewAsk :=
    "Would you be willing to support our campaign today? We have supporters contributing anywhere from $25 to $500, and every amount makes a difference."
  const RepeatClosingLine := "Your continued support means everything to us."
  const NewClosingLine := "We're grateful for your consideration."

  /** A repeat donor gave before: `previous_donation_amount > 0` (false when it is null). */
  predicate IsPreviousDonor(d: Donor) {
    d.previousDonationAmount.Some? && d.previousDonationAmount.value > 0
  }

  /** The greeting band: before noon, before five in the afternoon, and after. */
  function Greeting(hour: int): (g: string)
    ensures g == "Good morning" <==> hour < 12
    ensures g == "Good afternoon" <==> 12 <= hour < 17
    ensures g == "Good evening" <==> 17 <= hour
  {
    if hour < 12 then "Good morning" else if hour < 17 then "Good afternoon" else "Good evening"
  }

  /** `s.split(' ')[0]`: everything before the first space. */
  function FirstToken(s: string): (t: string)
    ensures IsPrefix(t, s)
    ensures ' ' !in t
    ensures |t| < |s| ==> s[|t|] == ' '
    decreases |s|
  {
    if s == [] || s[0] == ' ' then [] else [s[0]] + FirstToken(s[1..])
  }

  /** `first_name || full_name?.split(' ')[0] || 'there'`. */
  function DonorName(d: Donor): (name: string)
    ensures StrTruthy(d.firstName) ==> name == d.firstName.value
    ensures !StrTruthy(d.firstName) && d.fullName.Some? && FirstToken(d.fullName.value) != "" ==>
              name == FirstToken(d.fullName.value)
    ensures !StrTruthy(d.firstName) && (d.fullName.None? || FirstToken(d.fullName.value) == "") ==>
              name == "there"
    ensures name != ""
  {
    if StrTruthy(d.firstName) then d.firstName.value
    else if d.fullName.Some? && FirstToken(d.fullName.value) != "" then FirstToken(d.fullName.value)
    else "there"
  }

  /** `$` followed by the previous donation, as a template literal prints it. */
  function AmountText(d: Donor): string
    requires IsPreviousDonor(d)
  {
    "$" + NatToString(d.previousDonationAmount.value)
  }

  lemma ContainsTransitive(s: string, t: string, u: string)
    requires Contains(s, t) && Contains(t, u)
    ensures Contains(s, u)
  {
    var i :| 0 <= i <= |s| && IsPrefix(t, s[i..]);
    var j :| 0 <= j <= |t| && IsPrefix(u, t[j..]);
    forall k | 0 <= k < |u|
      ensures s[i + j + k] == u[k]
    {
      assert t[j..][k] == u[k];
      assert s[i..][j + k] == t[j + k];
    }
    assert s[i + j..][..|u|] == u;
  }

  /** The sentence between the introduction and the question of the opening. */
  function OpeningMiddle(d: Donor): (m: string)
    ensures IsPreviousDonor(d) ==> Contains(m, AmountText(d))
  {
    if IsPreviousDonor(d) then
      var before := "Thank you so much for your previous support of ";
      var after := ". Your generosity made a real difference.";
      ContainsInfix(before, AmountText(d), after);
      before + AmountText(d) + after
    else "I'm reaching out to supporters in our community who care about making a difference."
  }

  /** The opening starts with the greeting and the display name. */
  function Opening(d: Donor, hour: int): (s: string)
    ensures IsPrefix(Greeting(hour) + " " + DonorName(d), s)
    ensures Contains(s, OpeningMiddle(d))
  {
    var head := Greeting(hour) + " " + DonorName(d);
    var intro := head + ", this is {fundraiser_name} from {campaign_name}. ";
    var s := intro + OpeningMiddle(d) + " Do you have a moment to talk?";
    assert s[..|head|] == head;
    ContainsInfix(intro, OpeningMiddle(d), " Do you have a moment to talk?");
    s
  }

  function Pitch(d: Donor): (s: string)
    ensures s == RepeatPitch <==> IsPreviousDonor(d)
    ensures s == NewPitch <==> !IsPreviousDonor(d)
  {
    assert |RepeatPitch| != |NewPitch|;
    if IsPreviousDonor(d) then RepeatPitch else NewPitch
  }

  const RepeatAskHead := "Would you consider matching or even increasing your previous donation of "

  function Ask(d: Donor): (s: string)
    ensures IsPreviousDonor(d) ==> IsPrefix(RepeatAskHead + AmountText(d), s)
    ensures IsPreviousDonor(d) ==> Contains(s, AmountText(d))
    ensures !IsPreviousDonor(d) ==> s == NewAsk
  {
    if IsPreviousDonor(d) then
      var after := "? Many of our supporters are doubling their impact this time around.";
      ContainsInfix(RepeatAskHead, AmountText(d), after);
      var s := RepeatAskHead + AmountText(d) + after;
      assert s[..|RepeatAskHead + AmountText(d)|] == RepeatAskHead + AmountText(d);
      s
    else NewAsk
  }

  const RepeatNoMoney :=
    "I completely understand. Would you consider a smaller amount, even " + "$25"
    + " would help us reach our goal. Or we could schedule a pledge for next month?"
  const NewNoMoney :=
    "I understand completely. Even a small contribution of " + "$10 or $15"
    + " can make a difference. Or if you'd prefer, I can follow up with you next month."

  /** The response to `NoMoney` suggests $25 to a repeat donor and $10 or $15 to a new prospect. */
  function NoMoneyResponse(repeat: bool): (s: string)
    ensures repeat ==> Contains(s, "$25")
    ensures !repeat ==> Contains(s, "$10 or $15")
    ensures s != ""
  {
    ContainsInfix("I completely understand. Would you consider a smaller amount, even ", "$25",
                  " would help us reach our goal. Or we could schedule a pledge for next month?");
    ContainsInfix("I understand completely. Even a small contribution of ", "$10 or $15",
                  " can make a difference. Or if you'd prefer, I can follow up with you next month.");
    if repeat then RepeatNoMoney else NewNoMoney
  }

  const AlreadyDonatedResponse :=
    "Thank you so much for your support! Your previous contribution means a lot. Many of our strongest supporters are choosing to give again to help us reach our goal. Would you consider an additional contribution?"
  const ThinkAboutItResponse :=
    "Of course, it's an important decision. Can I answer any questions about how the funds will be used? I'd also be happy to send you more information and follow up in a few days."
  const NotInterestedResponse :=
    "I understand, and I appreciate you taking the time to speak with me. Before I go, is there anything specific about our campaign that concerns you? Your feedback is valuable to us."
  const HowUsedResponse :=
    "Great question! [Specific breakdown of fund usage]. We're committed to transparency and can provide detailed reports on how every dollar is spent."

  /** The fixed response to each objection; only `NoMoney` depends on the donor. */
  function Response(repeat: bool, o: Objection): (r: string)
    ensures r != ""
  {
    match o
    case NoMoney => NoMoneyResponse(repeat)
    case AlreadyDonated => AlreadyDonatedResponse
    case ThinkAboutIt => ThinkAboutItResponse
    case NotInterested => NotInterestedResponse
    case HowUsed => HowUsedResponse
  }

  function Objections(repeat: bool): (m: map<Objection, string>)
    ensures m.Keys == AllObjections
    ensures forall o :: o in m ==> m[o] != ""
    ensures m[NoMoney] == NoMoneyResponse(repeat)
  {
    map o | o in AllObjections :: Response(repeat, o)
  }

  /** The closing thanks the donor by name and wishes a good evening from five o'clock, a good day before. */
  function Closing(d: Donor, hour: int): (s: string)
    ensures Contains(s, DonorName(d))
    ensures IsPreviousDonor(d) ==> Contains(s, RepeatClosingLine)
    ensures !IsPreviousDonor(d) ==> Contains(s, NewClosingLine)
    ensures IsSuffix("Have a wonderful evening!", s) <==> hour >= 17
    ensures IsSuffix("Have a wonderful day!", s) <==> hour < 17
  {
    var thanks := "Thank you so much for your time today, ";
    var line := if IsPreviousDonor(d) then RepeatClosingLine else NewClosingLine;
    var tail := if hour >= 17 then " Have a wonderful evening!" else " Have a wonderful day!";
    var s := thanks + DonorName(d) + ". " + line + tail;
    ContainsInfix(thanks, DonorName(d), ". " + line + tail);
    assert s == thanks + DonorName(d) + (". " + line + tail);
    ContainsInfix(thanks + DonorName(d) + ". ", line, tail);
    ClosingTail(thanks + DonorName(d) + ". " + line, hour >= 17);
    s
  }

  /** Which of the two wishes a string ends with. */
  lemma ClosingTail(body: string, evening: bool)
    ensures evening ==> IsSuffix("Have a wonderful evening!", body + " Have a wonderful evening!")
    ensures evening ==> !IsSuffix("Have a wonderful day!", body + " Have a wonderful evening!")
    ensures !evening ==> IsSuffix("Have a wonderful day!", body + " Have a wonderful day!")
    ensures !evening ==> !IsSuffix("Have a wonderful evening!", body + " Have a wonderful day!")
  {
    var e := body + " Have a wonderful evening!";
    var y := body + " Have a wonderful day!";
    assert e[|e| - 25..] == "Have a wonderful evening!";
    assert y[|y| - 21..] == "Have a wonderful day!";
    assert e[|e| - 2] == 'g' && "Have a wonderful day!"[19] == 'y';
    assert y[|y| - 2] == 'y' && "Have a wonderful evening!"[23] == 'g';
  }

  /** `generateScript(donor)` at the given hour. */
  function GenerateScript(d: Donor, hour: int): (s: Script)
    ensures IsPrefix(Greeting(hour) + " " + DonorName(d), s.opening)
    ensures Contains(s.closing, DonorName(d))
    ensures IsPreviousDonor(d) ==> Contains(s.opening, AmountText(d)) && Contains(s.ask, AmountText(d))
    ensures s.pitch == RepeatPitch <==> IsPreviousDonor(d)
    ensures s.pitch == NewPitch <==> !IsPreviousDonor(d)
    ensures IsPreviousDonor(d) ==> IsPrefix(RepeatAskHead + AmountText(d), s.ask)
    ensures !IsPreviousDonor(d) ==> s.ask == NewAsk
    ensures IsPreviousDonor(d) ==> Contains(s.closing, RepeatClosingLine)
    ensures !IsPreviousDonor(d) ==> Contains(s.closing, NewClosingLine)
    ensures s.objections == Objections(IsPreviousDonor(d))
    ensures s.objections.Keys == AllObjections
    ensures forall o :: o in s.objections ==> s.objections[o] != ""
    ensures IsPreviousDonor(d) ==> Contains(s.objections[NoMoney], "$25")
    ensures !IsPreviousDonor(d) ==> Contains(s.objections[NoMoney], "$10 or $15")
    ensures IsSuffix("Have a wonderful evening!", s.closing) <==> hour >= 17
    ensures IsSuffix("Have a wonderful day!", s.closing) <==> hour < 17
  {
    var s := Script(Opening(d, hour), Pitch(d), Ask(d), Objections(IsPreviousDonor(d)), Closing(d, hour));
    if IsPreviousDonor(d) then
      ContainsTransitive(s.opening, OpeningMiddle(d), AmountText(d));
      s
    else s
  }

  /** The two wordings of the response to "I don't have money right now" differ. */
  lemma NoMoneyResponsesDiffer()
    ensures NoMoneyResponse(true) != NoMoneyResponse(false)
  {
    assert |RepeatNoMoney| == 146;
    assert |NewNoMoney| != 146;
  }

  /**
   * Only the response to "I don't have money right now" depends on the donor,
   * and it depends on whether the donor gave before; with the `objections`
   * clause of `GenerateScript` this holds of any two scripts.
   */
  lemma ObjectionsDifferOnlyInNoMoney(repeat1: bool, repeat2: bool)
    ensures forall o :: o != NoMoney ==> Objections(repeat1)[o] == Objections(repeat2)[o]
    ensures Objections(repeat1)[NoMoney] == Objections(repeat2)[NoMoney] <==> repeat1 == repeat2
  {
    forall o | o != NoMoney
      ensures Objections(repeat1)[o] == Objections(repeat2)[o]
    {
      assert o in AllObjections;
    }
    NoMoneyResponsesDiffer();
  }
}
