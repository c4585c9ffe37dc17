/** thread_id_store: hands out small numbers to threads and takes them back in any order. */
module ThreadIds {
  import opened Prelude

  /** The numbers from 1 to n. */
  function UpTo(n: nat): (r: set<nat>)
    ensures forall i: nat :: i in r <==> 1 <= i <= n
  {
    if n == 0 then {} else UpTo(n - 1) + {n}
  }

  lemma {:induction false} UpToSize(n: nat)
    ensures |UpTo(n)| == n
  {
    if n > 0 {
      UpToSize(n - 1);
      SizeWith(UpTo(n - 1), UpTo(n), n);
    }
  }

  /** The numbers in use: all up to the maximum that are not orphaned. */
  function InUse(maxId: nat, orphans: set<nat>): set<nat> {
    UpTo(maxId) - orphans
  }

  /** Orphans lie strictly below the maximum, which therefore is in use itself. */
  ghost predicate Tight(maxId: nat, orphans: set<nat>) {
    forall i :: i in orphans ==> 1 <= i < maxId
  }

  ghost predicate SmallestFree(used: set<nat>, id: nat) {
    id >= 1 && id !in used && forall i :: 1 <= i < id ==> i in used
  }

  /** Numbers stay as small as the number of threads: a new one is at most one more than the count of those in use. */
  lemma SmallestFreeIsSmall(used: set<nat>, id: nat)
    requires SmallestFree(used, id)
    ensures id <= |used| + 1
  {
    UpToSize(id - 1);
    SubsetSize(UpTo(id - 1), used);
  }

  /** The maximum is the largest number in use. */
  lemma MaxInUse(maxId: nat, orphans: set<nat>)
    requires Tight(maxId, orphans)
    ensures maxId == 0 <==> InUse(maxId, orphans) == {}
    ensures maxId > 0 ==> maxId in InUse(maxId, orphans)
    ensures forall i :: i in InUse(maxId, orphans) ==> i <= maxId
  {
    assert maxId > 0 ==> maxId in UpTo(maxId);
  }

  class ThreadIdStore {
    var maxId: nat
    var orphans: set<nat>

    ghost predicate Valid()
      reads this
    {
      Tight(maxId, orphans)
    }

    ghost function Used(): set<nat>
      reads this
    {
      InUse(maxId, orphans)
    }

    constructor ()
      ensures Valid() && Used() == {}
    {
      maxId, orphans := 0, {};
    }

    /** orphans.begin(): the set is ordered. */
    method First() returns (first: nat)
      requires orphans != {}
      ensures first in orphans && forall i :: i in orphans ==> first <= i
    {
      first :| first in orphans;
      var rest := orphans - {first};
      while rest != {}
        invariant rest <= orphans && first in orphans
        invariant forall i :: i in orphans && i !in rest ==> first <= i
        decreases rest
      {
        var i :| i in rest;
        if i < first {
          first := i;
        }
        rest := rest - {i};
      }
    }

    /** get: the smallest number not in use. */
    method Get() returns (id: nat)
      requires Valid()
      modifies this
      ensures Valid() && SmallestFree(old(Used()), id) && Used() == old(Used()) + {id}
    {
      if orphans == {} {
        maxId := maxId + 1;
        id := maxId;
      } else {
        id := First();
        orphans := orphans - {id};
      }
    }

    /** free: exactly this number is no longer in use, and the maximum shrinks past orphans. */
    method Free(id: nat)
      requires Valid() && id in Used()
      modifies this
      ensures Valid() && Used() == old(Used()) - {id}
    {
      if id == maxId {
        maxId := maxId - 1;
        while maxId in orphans
          invariant forall i :: i in orphans ==> 1 <= i <= maxId
          invariant Used() == old(Used()) - {id}
          decreases maxId
        {
          orphans := orphans - {maxId};
          maxId := maxId - 1;
        }
      } else {
        orphans := orphans + {id};
      }
    }
  }
}
