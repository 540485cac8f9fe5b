/** Accounting for allocations by serial number, as the heaps of several objects use it. */
module Allocation {

  /** `ids` gives the serial number of each live node: every number below `serial` belongs to exactly
      one node, which is either live or deleted. */
  ghost predicate Accounts(ids: map<nat, nat>, freed: set<nat>, serial: nat) {
    && (forall a :: a in ids ==> ids[a] < serial && ids[a] !in freed)
    && (forall a, b :: a in ids && b in ids && a != b ==> ids[a] != ids[b])
    && (forall x :: x in freed ==> x < serial)
    && |freed| + |ids| == serial
  }

  lemma NewAccounted(ids: map<nat, nat>, freed: set<nat>, serial: nat, a: nat)
    requires Accounts(ids, freed, serial) && a !in ids
    ensures Accounts(ids[a := serial], freed, serial + 1)
  {
    assert ids[a := serial].Keys == ids.Keys + {a};
  }

  lemma FreeAccounted(ids: map<nat, nat>, freed: set<nat>, serial: nat, a: nat)
    requires Accounts(ids, freed, serial) && a in ids
    ensures Accounts(ids - {a}, freed + {ids[a]}, serial)
  {
    assert (ids - {a}).Keys == ids.Keys - {a};
  }
}
