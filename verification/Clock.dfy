/** The discrete clock of the simulation (TimeManagerSimulator). */
module Clock {
  import opened Sequences

  function Earlier(): (nat, nat) -> bool { (a, b) => a < b }

  lemma EarlierIsStrictWeak()
    ensures StrictWeakOrder(Earlier())
  {
  }

  class TimeManagerSimulator {
    var currentTime: nat
    /** A heap, earliest event first. */
    var nextEventOccuringTimeQueue: seq<nat>

    ghost predicate Valid()
      reads this
    {
      HeapBy(Earlier(), nextEventOccuringTimeQueue)
    }

    ghost function Events(): multiset<nat>
      reads this
    {
      multiset(nextEventOccuringTimeQueue)
    }

    constructor ()
      ensures Valid() && currentTime == 0 && Events() == multiset{}
    {
      currentTime, nextEventOccuringTimeQueue := 0, [];
    }

    /** Goes to the earliest pending event and takes it out. */
    method UpdateTime()
      requires Valid()
      modifies this
      ensures Valid()
      ensures old(Events()) == multiset{} ==> currentTime == old(currentTime) && Events() == multiset{}
      ensures old(Events()) != multiset{} ==>
                currentTime in old(Events()) && Events() == old(Events()) - multiset{currentTime}
      ensures forall t :: t in old(Events()) ==> currentTime <= t
    {
      if |nextEventOccuringTimeQueue| > 0 {
        currentTime := nextEventOccuringTimeQueue[0];
        forall t | t in Events() ensures currentTime <= t {
          var i :| 0 <= i < |nextEventOccuringTimeQueue| && nextEventOccuringTimeQueue[i] == t;
          assert !Earlier()(nextEventOccuringTimeQueue[i], nextEventOccuringTimeQueue[0]);
        }
        EarlierIsStrictWeak();
        nextEventOccuringTimeQueue := Heapify(Earlier(), RemoveAt(nextEventOccuringTimeQueue, 0));
      }
    }

    method PushNextEventOccuringTime(t: nat)
      requires Valid()
      modifies `nextEventOccuringTimeQueue
      ensures Valid() && Events() == old(Events()) + multiset{t}
    {
      EarlierIsStrictWeak();
      nextEventOccuringTimeQueue := Heapify(Earlier(), nextEventOccuringTimeQueue + [t]);
    }
  }
}
