/** The lock word alone: try_lock_context and unlock_context as the accesses they are made of. */
module CoreLock {

  /** interlocked_compare_exchange_64: the new content, and the old one as the result. */
  function CompareExchange(word: int, expected: int, desired: int): (int, int) {
    (if word == expected then desired else word, word)
  }

  /** The word, and how many parties believe that they own it. */
  datatype Lock = Lock(word: int, owners: int)

  /** The lock is set iff there is an owner, and there is at most one. */
  predicate Exclusive(l: Lock) { (l.word == 0 && l.owners == 0) || (l.word == 1 && l.owners == 1) }

  function TryLock(l: Lock): Lock {
    var r := CompareExchange(l.word, 0, 1);
    Lock(r.0, if r.1 == 0 then l.owners + 1 else l.owners)
  }

  function TryLocks(l: Lock, n: nat): Lock { if n == 0 then l else TryLock(TryLocks(l, n - 1)) }

  /** The two halves of unlock_context, with n attempts of other cores in between. */
  function Unlock(l: Lock, n: nat): Lock {
    var between := TryLocks(Lock(0, l.owners - 1), n);
    between.(word := CompareExchange(between.word, 1, 0).0)
  }

  lemma {:induction false} TryLocksKeep(l: Lock, n: nat)
    requires Exclusive(l)
    ensures Exclusive(TryLocks(l, n)) && TryLocks(l, n).owners == if l.owners == 1 || n > 0 then 1 else 0
  {
    if n > 0 {
      TryLocksKeep(l, n - 1);
    }
  }

  /** Released by its owner, the lock stays exclusive iff no other core tries to take it between the
      store and the compare-exchange. CoreRelease says what that means for whole runs. */
  lemma UnlockExclusive(l: Lock, n: nat)
    requires Exclusive(l) && l.owners == 1
    ensures Exclusive(Unlock(l, n)) <==> n == 0
  {
    TryLocksKeep(Lock(0, 0), n);
  }
}
