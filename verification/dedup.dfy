/**
 The Mollie handler's duplicate suppressor: a process-wide set of payment
 ids already seen, consulted and extended before any other work, and emptied
 wholesale by a periodic timer. The timer is the explicit `Clear` operation.
 */
module Dedup {

  datatype Verdict = Process | Duplicate

  /** One webhook receipt: a key already in the set is a duplicate and leaves
      the set alone; any other key is recorded and must be processed. */
  function Receive<K>(seen: set<K>, key: K): (r: (Verdict, set<K>))
    ensures r.0 == Duplicate <==> key in seen
    ensures r.0 == Duplicate ==> r.1 == seen
    ensures r.0 == Process ==> r.1 == seen + {key}
    ensures key in r.1
  {
    if key in seen then (Duplicate, seen) else (Process, seen + {key})
  }

  /** The timer tick: afterwards every key is treated as new. */
  function Clear<K(!new)>(seen: set<K>): (r: set<K>)
    ensures forall key :: Receive(r, key).0 == Process
  {
    {}
  }

  /** Two receipts of one key with no clear between them: the first is
      processed (unless the key was already seen) and the second is a duplicate. */
  lemma ReceiveTwice<K>(seen: set<K>, key: K)
    ensures Receive(Receive(seen, key).1, key).0 == Duplicate
    ensures key !in seen ==> Receive(seen, key).0 == Process
  {
  }

  /** A receipt never forgets a key: the set only grows until the next clear. */
  lemma ReceiveKeeps<K>(seen: set<K>, key: K, other: K)
    requires other in seen
    ensures Receive(Receive(seen, key).1, other).0 == Duplicate
  {
  }

  /** After a clear, a key seen before is processed again, and a repeat after
      that is a duplicate once more. */
  lemma ReceiveAfterClear<K(!new)>(seen: set<K>, key: K)
    ensures Receive(Clear(seen), key).0 == Process
    ensures Receive(Receive(Clear(seen), key).1, key).0 == Duplicate
  {
  }
}
