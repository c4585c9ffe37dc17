/**
 * What the delegation protocol asks of a mutual exclusion lock. The holder is the thread
 * between the return of a successful locking call and its next call of unlock. If is_locked
 * answers false, the lock was without a holder at some moment of that call.
 */
module LockContract {
  import opened Prelude

  /** held[t] tells whether thread t is at such a point; at most one is. */
  ghost predicate HeldBy(held: seq<bool>, h: Option<Tid>) {
    && (forall t :: 0 <= t < |held| ==> (held[t] <==> h == Some(t)))
    && (h.Some? ==> h.value < |held|)
  }

  /** A step of thread t may only take a lock nobody holds, or give back the one it holds. */
  ghost predicate Permitted(h: Option<Tid>, h': Option<Tid>, t: Tid) {
    || h' == h
    || (h == None && h' == Some(t))
    || (h == Some(t) && h' == None)
  }

  /** At some moment from i to j nobody held the lock. */
  ghost predicate FreeWithin(held: seq<seq<bool>>, i: nat, j: nat) {
    exists m :: i <= m <= j && m < |held| && HeldBy(held[m], None)
  }

  lemma OneChange(held: seq<bool>, h: Option<Tid>, t: Tid, now: bool) returns (h': Option<Tid>)
    requires HeldBy(held, h) && t < |held| && (now && !held[t] ==> h == None)
    ensures HeldBy(held[t := now], h') && Permitted(h, h', t)
  {
    h' := if now then Some(t) else if held[t] then None else h;
  }
}
