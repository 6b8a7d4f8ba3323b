/**
 * The dialer: a store holding the donor on screen, the call in progress and
 * its timing, and the four workflow steps that move it along (load the next
 * donor, start a call, end it, record its outcome).
 *
 * Every remote operation (the ranking procedure, reads, inserts, updates)
 * is an input: the result the backend returned, or only whether it
 * succeeded. The requests the store would send are returned so that their
 * contents and their order can be stated. Clock readings are inputs too.
 */
module Dialer {
  import opened Common
  import opened Records

  /** The row `startCall` inserts into `calls`. */
  datatype NewCall = NewCall(donorId: Id, phoneNumber: Option<string>, status: string, startedAt: int)

  /** The update `endCall` sends for the current call. */
  datatype CallEnd = CallEnd(callId: Id, endedAt: int, durationSeconds: int, status: string)

  /** The writes of `recordOutcome`, in the order it issues them. */
  datatype Write =
    | CallOutcome(callId: Id, outcome: string, donationAmount: Option<int>, notes: string,
                  endedAt: int, durationSeconds: int)
    | DonorContact(donorId: Id, status: string, lastContactDate: int, donorNotes: Option<string>)
    | DonationInsert(donorId: Id, callId: Id, amount: int, paymentStatus: string, notes: string)
    | QueueCompleted(donorId: Id, status: string)

  /** `outcome === 'donated' ? 'donated' : outcome`: both branches give the outcome itself. */
  function DonorStatusFor(outcome: string): (status: string)
    ensures status == outcome
  {
    if outcome == "donated" then "donated" else outcome
  }

  /**
   * The donor's notes after an outcome: with non-empty notes, the old notes
   * (or nothing), a blank line, the date and the new notes; otherwise the old
   * notes as they were.
   */
  function AppendedNotes(previous: Option<string>, date: string, notes: string): (r: Option<string>)
    ensures notes == "" ==> r == previous
    ensures notes != "" ==> r.Some? && IsPrefix(StrOr(previous, "") + "\n\n" + date + ": ", r.value)
    ensures notes != "" ==> r.Some? && IsSuffix(notes, r.value)
    ensures notes != "" ==> r.Some? && |r.value| == |StrOr(previous, "")| + 4 + |date| + |notes|
  {
    if notes != "" then
      var head := StrOr(previous, "") + "\n\n" + date + ": ";
      var s := head + notes;
      assert s[..|head|] == head && s[|s| - |notes|..] == notes;
      Some(s)
    else previous
  }

  /** A donation is recorded only for a `donated` outcome with a truthy amount. */
  predicate DonationDue(outcome: string, amount: Option<int>) {
    outcome == "donated" && IntTruthy(amount)
  }

  /** Every write `recordOutcome` issues when no step fails, in order. */
  function OutcomePlan(call: Call, donor: Donor, outcome: string, amount: Option<int>, notes: string,
                       duration: int, now: int, date: string): (plan: seq<Write>)
    ensures |plan| == if DonationDue(outcome, amount) then 4 else 3
    ensures plan[0] == CallOutcome(call.id, outcome, amount, notes, now, duration)
    ensures plan[1].DonorContact? && plan[1].donorId == donor.id && plan[1].status == outcome
    ensures plan[1].donorNotes == AppendedNotes(donor.notes, date, notes)
    ensures plan[|plan| - 1] == QueueCompleted(donor.id, "completed")
    ensures forall i :: 0 <= i < |plan| && plan[i].DonationInsert? <==> DonationDue(outcome, amount) && i == 2
    ensures DonationDue(outcome, amount) ==>
      plan[2] == DonationInsert(donor.id, call.id, amount.value, "pending", notes)
  {
    var callWrite := CallOutcome(call.id, outcome, amount, notes, now, duration);
    var donorWrite := DonorContact(donor.id, DonorStatusFor(outcome), now, AppendedNotes(donor.notes, date, notes));
    var queueWrite := QueueCompleted(donor.id, "completed");
    if DonationDue(outcome, amount) then
      [callWrite, donorWrite, DonationInsert(donor.id, call.id, amount.value, "pending", notes), queueWrite]
    else [callWrite, donorWrite, queueWrite]
  }

  /** The whole seconds from `start` to `now`; a null start reads as 0, as `Date.now() - null` does. */
  function ElapsedSeconds(start: Option<int>, now: int): (secs: int)
    ensures start.Some? && start.value <= now ==> secs >= 0
    ensures start.Some? ==> secs * 1000 <= now - start.value < (secs + 1) * 1000
  {
    (now - (if start.Some? then start.value else 0)) / 1000
  }

  /**
   * The running timer as written: `Math.floor((Date.now() - Date.now()) / 1000)`
   * reads the clock twice, `first` and then `second`, and ignores the start.
   */
  function TickDurationAsWritten(first: int, second: int): int {
    (first - second) / 1000
  }

  /**
   * The timer as written shows 0 however long the call has run, or -1 when
   * the clock moves on between its two reads; five seconds in, the elapsed
   * time is 5.
   */
  lemma TickAsWrittenIgnoresStart(start: int, first: int, second: int)
    requires start + 5000 <= first <= second < first + 1000
    ensures TickDurationAsWritten(first, second) == if first == second then 0 else -1
    ensures ElapsedSeconds(Some(start), first) >= 5
  {
  }

  class DialerStore {
    var currentDonor: Option<Donor>
    var currentCall: Option<Call>
    var isCallActive: bool
    var callStartTime: Option<int>
    var callDuration: int
    var queue: seq<Donor>

    constructor ()
      ensures currentDonor == None && currentCall == None && !isCallActive
      ensures callStartTime == None && callDuration == 0 && queue == []
    {
      currentDonor := None;
      currentCall := None;
      isCallActive := false;
      callStartTime := None;
      callDuration := 0;
      queue := [];
    }

    method SetCurrentDonor(donor: Option<Donor>)
      modifies this`currentDonor
      ensures currentDonor == donor
    {
      currentDonor := donor;
    }

    method SetCurrentCall(call: Option<Call>)
      modifies this`currentCall
      ensures currentCall == call
    {
      currentCall := call;
    }

    method SetCallActive(active: bool)
      modifies this`isCallActive
      ensures isCallActive == active
    {
      isCallActive := active;
    }

    method SetCallStartTime(time: Option<int>)
      modifies this`callStartTime
      ensures callStartTime == time
    {
      callStartTime := time;
    }

    method SetCallDuration(duration: int)
      modifies this`callDuration
      ensures callDuration == duration
    {
      callDuration := duration;
    }

    method SetQueue(q: seq<Donor>)
      modifies this`queue
      ensures queue == q
    {
      queue := q;
    }

    /** `reset()`: forget the donor and the call; the queue stays. */
    method Reset()
      modifies this
      ensures currentDonor == None && currentCall == None && !isCallActive
      ensures callStartTime == None && callDuration == 0
      ensures queue == old(queue)
    {
      currentDonor := None;
      currentCall := None;
      isCallActive := false;
      callStartTime := None;
      callDuration := 0;
    }

    /**
     * `loadNextDonor()`: ask the ranking procedure for the next donor and load
     * its row. `ranking` is the procedure's answer (a list of donor ids; null
     * data reads as the empty list), `fetched` the row read for the first id.
     */
    method LoadNextDonor(ranking: Remote<seq<Id>>, fetched: Option<Donor>) returns (loaded: Option<Donor>)
      modifies this`currentDonor
      ensures ranking.Failed? ==> loaded == None && currentDonor == old(currentDonor)
      ensures ranking == Ok([]) ==> loaded == None && currentDonor == None
      ensures ranking.Ok? && ranking.value != [] && fetched.Some? ==>
                loaded == fetched && currentDonor == fetched
      ensures ranking.Ok? && ranking.value != [] && fetched.None? ==>
                loaded == None && currentDonor == old(currentDonor)
    {
      loaded := None;
      if ranking.Failed? {
        return;
      }
      if |ranking.value| > 0 {
        if fetched.Some? {
          currentDonor := fetched;
          loaded := fetched;
        }
      } else {
        currentDonor := None;
      }
    }

    /**
     * `startCall(donorId)`: insert an active call and start timing it.
     * Reading the phone of a missing current donor throws before anything
     * is sent; a failed insert changes nothing either.
     */
    method StartCall(donorId: Id, created: Remote<Call>, sentAt: int, now: int) returns (sent: Option<NewCall>, call: Option<Call>)
      modifies this`currentCall, this`isCallActive, this`callStartTime
      ensures old(currentDonor).None? ==> sent == None
      ensures old(currentDonor).Some? ==> sent == Some(NewCall(donorId, old(currentDonor).value.phone, "active", sentAt))
      ensures call.Some? <==> sent.Some? && created.Ok?
      ensures call.Some? ==> call == Some(created.value) && currentCall == call && isCallActive
                             && callStartTime == Some(now)
      ensures call.None? ==> currentCall == old(currentCall) && isCallActive == old(isCallActive)
                             && callStartTime == old(callStartTime)
    {
      sent, call := None, None;
      if currentDonor.None? {
        return;
      }
      sent := Some(NewCall(donorId, currentDonor.value.phone, "active", sentAt));
      if created.Failed? {
        return;
      }
      currentCall := Some(created.value);
      isCallActive := true;
      callStartTime := Some(now);
      call := currentCall;
    }

    /** One second of the running call: the duration shown is the whole seconds since the start. */
    method TimerTick(now: int)
      modifies this`callDuration
      ensures callDuration == ElapsedSeconds(callStartTime, now)
    {
      callDuration := ElapsedSeconds(callStartTime, now);
    }

    /**
     * `endCall()`: send the end time and duration of the current call; when
     * the update succeeds the call is no longer active and the timer is back
     * at 0. Without a current call the update throws before it is sent.
     */
    method EndCall(now: int, updated: bool) returns (sent: Option<CallEnd>)
      modifies this`isCallActive, this`callDuration
      ensures old(currentCall).None? ==> sent == None
      ensures old(currentCall).Some? ==>
        sent == Some(CallEnd(old(currentCall).value.id, now, ElapsedSeconds(callStartTime, now), "completed"))
      ensures sent.Some? && updated ==> !isCallActive && callDuration == 0
      ensures !(sent.Some? && updated) ==> isCallActive == old(isCallActive) && callDuration == old(callDuration)
    {
      var duration := ElapsedSeconds(callStartTime, now);
      sent := None;
      if currentCall.None? {
        return;
      }
      sent := Some(CallEnd(currentCall.value.id, now, duration, "completed"));
      if updated {
        isCallActive := false;
        callDuration := 0;
      }
    }

    /**
     * `recordOutcome(outcome, donationAmount, notes)`: update the call, then
     * the donor, then (for a donation) insert it, then mark the queue entry
     * completed. The first failure ends the step: it reports false, keeps the
     * store as it was and undoes none of the writes already made. The queue
     * update's result is not checked. On success the call state is cleared and
     * the donor stays on screen.
     */
    method RecordOutcome(outcome: string, donationAmount: Option<int>, notes: string, now: int, date: string,
                         callOk: bool, donorOk: bool, donationOk: bool)
      returns (ok: bool, writes: seq<Write>)
      modifies this`isCallActive, this`currentCall, this`callDuration
      ensures ok <==> old(currentCall).Some? && callOk && currentDonor.Some? && donorOk
                      && (DonationDue(outcome, donationAmount) ==> donationOk)
      ensures old(currentCall).Some? && currentDonor.Some? ==>
        var plan := OutcomePlan(old(currentCall).value, currentDonor.value, outcome, donationAmount, notes,
                                old(callDuration), now, date);
        && |writes| <= |plan| && writes == plan[..|writes|]
        && (ok <==> writes == plan)
        && |writes| == (if !callOk then 1 else if !donorOk then 2 else if !ok then 3 else |plan|)
      ensures old(currentCall).None? ==> writes == []
      ensures old(currentCall).Some? && currentDonor.None? ==> |writes| == 1 && writes[0].CallOutcome?
      ensures ok ==> !isCallActive && currentCall == None && callDuration == 0
      ensures !ok ==> isCallActive == old(isCallActive) && currentCall == old(currentCall)
                      && callDuration == old(callDuration)
    {
      writes := [];
      ok := false;
      if currentCall.None? {
        return;
      }
      var call := currentCall.value;
      writes := writes + [CallOutcome(call.id, outcome, donationAmount, notes, now, callDuration)];
      if !callOk {
        return;
      }
      if currentDonor.None? {
        return;
      }
      var donor := currentDonor.value;
      var plan := OutcomePlan(call, donor, outcome, donationAmount, notes, callDuration, now, date);
      writes := writes + [DonorContact(donor.id, DonorStatusFor(outcome), now, AppendedNotes(donor.notes, date, notes))];
      assert writes == plan[..2];
      if !donorOk {
        return;
      }
      if outcome == "donated" && IntTruthy(donationAmount) {
        writes := writes + [DonationInsert(donor.id, call.id, donationAmount.value, "pending", notes)];
        assert writes == plan[..3];
        if !donationOk {
          return;
        }
      }
      writes := writes + [QueueCompleted(donor.id, "completed")];
      assert writes == plan;
      isCallActive := false;
      currentCall := None;
      callDuration := 0;
      ok := true;
    }
  }
}
