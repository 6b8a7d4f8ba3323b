/**
 * The call-queue store: a priority sequence that is always served first,
 * and a regular sequence read through a cursor (`currentPosition`). Serving
 * a regular entry moves the cursor; it never removes the entry.
 *
 * The abstract view of the store is `Pending`: the entries still to be
 * served, in the order they will be served.
 */
module QueueStore {
  import opened Common
  import opened Records

  /** Entries still to be served: all priority entries, then the regular ones from the cursor on. */
  function Pending(priorityQueue: seq<Donor>, queue: seq<Donor>, currentPosition: nat): seq<Donor> {
    priorityQueue + (if currentPosition <= |queue| then queue[currentPosition..] else [])
  }

  /** `getTotalQueueSize`: `priorityQueue.length + Math.max(0, queue.length - currentPosition)`. */
  function TotalQueueSize(priorityQueue: seq<Donor>, queue: seq<Donor>, currentPosition: nat): (n: nat)
    ensures n == |Pending(priorityQueue, queue, currentPosition)|
  {
    |priorityQueue| + (if |queue| - currentPosition > 0 then |queue| - currentPosition else 0)
  }

  /** Advancing removes exactly the head of the pending entries. */
  lemma AdvancePending(priorityQueue: seq<Donor>, queue: seq<Donor>, currentPosition: nat)
    requires Pending(priorityQueue, queue, currentPosition) != []
    ensures priorityQueue != [] ==>
      Pending(priorityQueue[1..], queue, currentPosition) == Pending(priorityQueue, queue, currentPosition)[1..]
    ensures priorityQueue == [] ==>
      Pending(priorityQueue, queue, currentPosition + 1) == Pending(priorityQueue, queue, currentPosition)[1..]
  {
  }

  /**
   * The cursor is an index into the regular sequence, so removing an entry
   * that was already served shifts the next pending entry under the cursor:
   * with regular entries [a, b, c] and the cursor at 1, removing `a` leaves
   * [b, c] with the cursor still at 1, and `b` is never served.
   */
  lemma RemoveServedEntrySkipsNext(a: Donor, b: Donor, c: Donor)
    requires a.id != b.id && a.id != c.id
    ensures Pending([], [a, b, c], 1) == [b, c]
    ensures Pending([], WithoutId([a, b, c], a.id), 1) == [c]
  {
    assert WithoutId([a, b, c], a.id) == [b, c] by {
      assert [a, b, c][1..] == [b, c];
      assert [b, c][1..] == [c];
      assert [c][1..] == [];
    }
  }

  /**
   * Advancing past the end of the regular sequence keeps moving the cursor,
   * so entries added afterwards are served from the cursor on: the first ones
   * are skipped. Here one regular entry was served and one more advance
   * happened on an empty store, so of the two new entries only the second
   * is pending.
   */
  lemma AddAfterOverrunSkips(a: Donor, b: Donor, c: Donor)
    ensures TotalQueueSize([], [a], 2) == 0
    ensures Pending([], [a] + [b, c], 2) == [c]
  {
  }

  class QueueStore {
    var queue: seq<Donor>
    var priorityQueue: seq<Donor>
    var isAutoDialing: bool
    var dialDelay: int
    var currentPosition: nat

    /** The entries still to be served, in serving order. */
    ghost function Contents(): seq<Donor>
      reads this
    {
      Pending(priorityQueue, queue, currentPosition)
    }

    constructor ()
      ensures queue == [] && priorityQueue == [] && currentPosition == 0
      ensures !isAutoDialing && dialDelay == 5
      ensures Contents() == []
    {
      queue := [];
      priorityQueue := [];
      isAutoDialing := false;
      dialDelay := 5;
      currentPosition := 0;
    }

    method SetQueue(q: seq<Donor>)
      modifies this
      ensures queue == q
      ensures priorityQueue == old(priorityQueue) && currentPosition == old(currentPosition)
      ensures isAutoDialing == old(isAutoDialing) && dialDelay == old(dialDelay)
    {
      queue := q;
    }

    method SetPriorityQueue(q: seq<Donor>)
      modifies this
      ensures priorityQueue == q
      ensures queue == old(queue) && currentPosition == old(currentPosition)
      ensures isAutoDialing == old(isAutoDialing) && dialDelay == old(dialDelay)
    {
      priorityQueue := q;
    }

    method SetAutoDialing(on: bool)
      modifies this
      ensures isAutoDialing == on
      ensures queue == old(queue) && priorityQueue == old(priorityQueue)
      ensures currentPosition == old(currentPosition) && dialDelay == old(dialDelay)
    {
      isAutoDialing := on;
    }

    method SetDialDelay(delay: int)
      modifies this
      ensures dialDelay == delay
      ensures queue == old(queue) && priorityQueue == old(priorityQueue)
      ensures currentPosition == old(currentPosition) && isAutoDialing == old(isAutoDialing)
    {
      dialDelay := delay;
    }

    /**
     * `addToQueue(donors, priority)`: append to one sequence, without removing
     * duplicates. Priority entries are served after the priority entries
     * already there and before every regular entry.
     */
    method AddToQueue(donors: seq<Donor>, priority: bool)
      modifies this
      ensures priority ==> priorityQueue == old(priorityQueue) + donors && queue == old(queue)
      ensures !priority ==> queue == old(queue) + donors && priorityQueue == old(priorityQueue)
      ensures currentPosition == old(currentPosition)
      ensures isAutoDialing == old(isAutoDialing) && dialDelay == old(dialDelay)
      ensures priority ==> Contents() == old(priorityQueue) + donors + old(Contents())[|old(priorityQueue)|..]
      ensures !priority && currentPosition <= old(|queue|) ==> Contents() == old(Contents()) + donors
    {
      if priority {
        priorityQueue := priorityQueue + donors;
      } else {
        queue := queue + donors;
      }
    }

    /** `removeFromQueue(donorId)`: drop every entry with that id from both sequences; the cursor stays. */
    method RemoveFromQueue(donorId: Id)
      modifies this
      ensures queue == WithoutId(old(queue), donorId)
      ensures priorityQueue == WithoutId(old(priorityQueue), donorId)
      ensures currentPosition == old(currentPosition)
      ensures isAutoDialing == old(isAutoDialing) && dialDelay == old(dialDelay)
    {
      queue := WithoutId(queue, donorId);
      priorityQueue := WithoutId(priorityQueue, donorId);
    }

    /** `getNextInQueue()`: the head of the pending entries, or null when there is none. */
    method GetNextInQueue() returns (next: Option<Donor>)
      ensures next == if Contents() == [] then None else Some(Contents()[0])
      ensures priorityQueue != [] ==> next == Some(priorityQueue[0])
      ensures priorityQueue == [] && currentPosition < |queue| ==> next == Some(queue[currentPosition])
      ensures priorityQueue == [] && currentPosition >= |queue| ==> next == None
    {
      if |priorityQueue| > 0 {
        return Some(priorityQueue[0]);
      }
      if |queue| > currentPosition {
        return Some(queue[currentPosition]);
      }
      return None;
    }

    /** `advanceQueue()`: pop the priority head if there is one, otherwise move the cursor by one. */
    method AdvanceQueue()
      modifies this
      ensures old(priorityQueue) != [] ==>
        priorityQueue == old(priorityQueue)[1..] && currentPosition == old(currentPosition)
      ensures old(priorityQueue) == [] ==>
        priorityQueue == [] && currentPosition == old(currentPosition) + 1
      ensures queue == old(queue)
      ensures isAutoDialing == old(isAutoDialing) && dialDelay == old(dialDelay)
      ensures old(Contents()) != [] ==> Contents() == old(Contents())[1..]
      ensures old(Contents()) == [] ==> Contents() == []
      ensures TotalQueueSize(priorityQueue, queue, currentPosition)
           == if old(Contents()) == [] then 0 else |old(Contents())| - 1
    {
      if |priorityQueue| > 0 {
        priorityQueue := priorityQueue[1..];
      } else {
        currentPosition := currentPosition + 1;
      }
    }

    /** `resetQueue()`: empty both sequences, cursor to 0, auto-dialing off; the delay is kept. */
    method ResetQueue()
      modifies this
      ensures queue == [] && priorityQueue == [] && currentPosition == 0 && !isAutoDialing
      ensures dialDelay == old(dialDelay)
      ensures Contents() == []
    {
      queue := [];
      priorityQueue := [];
      currentPosition := 0;
      isAutoDialing := false;
    }

    /** `getTotalQueueSize()`: the number of pending entries. */
    method GetTotalQueueSize() returns (n: nat)
      ensures n == |Contents()|
      ensures n == |priorityQueue| + (if currentPosition < |queue| then |queue| - currentPosition else 0)
    {
      n := TotalQueueSize(priorityQueue, queue, currentPosition);
    }
  }

  /** Resetting twice leaves the store as resetting once does. */
  method ResetIsIdempotent(store: QueueStore)
    modifies store
    ensures store.queue == [] && store.priorityQueue == [] && store.currentPosition == 0
    ensures !store.isAutoDialing && store.dialDelay == old(store.dialDelay)
  {
    store.ResetQueue();
    var once := (store.queue, store.priorityQueue, store.currentPosition, store.isAutoDialing, store.dialDelay);
    store.ResetQueue();
    assert (store.queue, store.priorityQueue, store.currentPosition, store.isAutoDialing, store.dialDelay) == once;
  }
}
