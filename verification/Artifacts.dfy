/** Keeping the files of operations within a budget (cn_futures_bridge/artifacts.py).

    The directory is a map from artifact names to records.  A listing is what `_entries` returns: every name once,
    oldest first; names of the same age may come in any order.
 */
module Artifacts {
  import opened Base

  type Name = nat

  datatype Life = Active | Ended | Protected

  datatype Artifact = Artifact(created: int, life: Life, size: nat)

  type Store = map<Name, Artifact>

  datatype Budget = Budget(maximum: nat, minimumFree: int)

  // ----- Listings -----

  ghost predicate Lists(listing: seq<Name>, store: Store) {
    && (forall i :: 0 <= i < |listing| ==> listing[i] in store)
    && (forall name :: name in store ==> name in listing)
    && (forall i, j :: 0 <= i < j < |listing| ==>
          listing[i] != listing[j] && store[listing[i]].created <= store[listing[j]].created)
  }

  predicate Known(listing: seq<Name>, store: Store) {
    forall i :: 0 <= i < |listing| ==> listing[i] in store
  }

  function Total(listing: seq<Name>, store: Store): nat
    requires Known(listing, store)
  {
    if listing == [] then 0 else Total(listing[..|listing| - 1], store) + store[listing[|listing| - 1]].size
  }

  /** What removing the ended artifacts among the first k gains. */
  function Freed(listing: seq<Name>, store: Store, k: nat): nat
    requires Known(listing, store) && k <= |listing|
  {
    if k == 0 then 0
    else Freed(listing, store, k - 1) + if store[listing[k - 1]].life == Ended then store[listing[k - 1]].size else 0
  }

  function Evicted(listing: seq<Name>, store: Store, k: nat): set<Name>
    requires Known(listing, store) && k <= |listing|
  {
    set i | 0 <= i < k && store[listing[i]].life == Ended :: listing[i]
  }

  predicate Meets(b: Budget, total: int, free: int, reserve: int) {
    total + reserve <= b.maximum && free - reserve >= b.minimumFree
  }

  predicate MeetsAt(b: Budget, listing: seq<Name>, store: Store, free: int, reserve: int, k: nat)
    requires Known(listing, store) && k <= |listing|
  {
    Meets(b, Total(listing, store) - Freed(listing, store, k), free + Freed(listing, store, k), reserve)
  }

  /** The first position at which both budgets are met, or the end. */
  function StopAt(b: Budget, listing: seq<Name>, store: Store, free: int, reserve: int, k: nat): (stop: nat)
    requires Known(listing, store) && k <= |listing|
    ensures k <= stop <= |listing|
    decreases |listing| - k
  {
    if k == |listing| || MeetsAt(b, listing, store, free, reserve, k) then k
    else StopAt(b, listing, store, free, reserve, k + 1)
  }

  lemma EvictedGrows(listing: seq<Name>, store: Store, k: nat)
    requires Lists(listing, store) && k < |listing|
    ensures listing[k] !in Evicted(listing, store, k)
    ensures Evicted(listing, store, k + 1)
            == Evicted(listing, store, k) + if store[listing[k]].life == Ended then {listing[k]} else {}
    ensures Freed(listing, store, k + 1)
            == Freed(listing, store, k) + if store[listing[k]].life == Ended then store[listing[k]].size else 0
  {
  }

  lemma NothingEvicted(listing: seq<Name>, store: Store)
    requires Known(listing, store)
    ensures Evicted(listing, store, 0) == {} && Freed(listing, store, 0) == 0
  {
  }

  method AddUp(listing: seq<Name>, store: Store) returns (total: nat)
    requires Known(listing, store)
    ensures total == Total(listing, store)
  {
    total := 0;
    for i := 0 to |listing|
      invariant total == Total(listing[..i], store)
    {
      assert listing[..i + 1][..i] == listing[..i];
      total := total + store[listing[i]].size;
    }
    assert listing[..|listing|] == listing;
  }

  // ----- The store, changed in place -----

  class ArtifactStore {
    const budget: Budget
    var store: Store
    var free: int

    constructor (budget: Budget, store: Store, free: int)
      ensures this.budget == budget && this.store == store && this.free == free
    {
      this.budget, this.store, this.free := budget, store, free;
    }

    method Ensure(reserve: nat, listing: seq<Name>) returns (ok: bool)
      requires Lists(listing, store)
      modifies this
      ensures var stop := StopAt(budget, listing, old(store), old(free), reserve, 0);
              && store == old(store) - Evicted(listing, old(store), stop)
              && free == old(free) + Freed(listing, old(store), stop)
              && (ok <==> MeetsAt(budget, listing, old(store), old(free), reserve, stop))
    {
      hide Evicted, Freed, Total, Meets;
      ghost var was, had := store, free;
      NothingEvicted(listing, store);
      var total := AddUp(listing, store);
      var i := 0;
      while i < |listing| && !Meets(budget, total, free, reserve)
        invariant 0 <= i <= |listing|
        invariant store == was - Evicted(listing, was, i)
        invariant total == Total(listing, was) - Freed(listing, was, i)
        invariant free == had + Freed(listing, was, i)
        invariant StopAt(budget, listing, was, had, reserve, 0) == StopAt(budget, listing, was, had, reserve, i)
      {
        var name := listing[i];
        EvictedGrows(listing, was, i);
        var artifact := store[name];
        if artifact.life == Ended {
          store := store - {name};
          total := total - artifact.size;
          free := free + artifact.size;
        }
        i := i + 1;
      }
      ok := Meets(budget, total, free, reserve);
    }

    /** A new artifact starts active, and only when its reservation fits. */
    method Create(name: Name, now: int, size: nat, listing: seq<Name>) returns (ok: bool)
      requires Lists(listing, store) && name !in store
      modifies this
      ensures var reserve := if 1048576 < budget.maximum then 1048576 else budget.maximum;
              var stop := StopAt(budget, listing, old(store), old(free), reserve, 0);
              && (ok <==> MeetsAt(budget, listing, old(store), old(free), reserve, stop))
              && store == (old(store) - Evicted(listing, old(store), stop))
                          + (if ok then map[name := Artifact(now, Active, size)] else map[])
              && free == old(free) + Freed(listing, old(store), stop) - (if ok then size else 0)
    {
      ok := Ensure(Least(1048576, budget.maximum), listing);
      if ok {
        store := store[name := Artifact(now, Active, size)];
        free := free - size;
      }
    }

    /** Ends, protects or removes one artifact, then makes room; `listing` is taken afterwards. */
    method Finish(name: Name, keep: bool, protect: bool, listing: seq<Name>) returns (ok: bool)
      requires name in store && Lists(listing, Closed(store, name, keep, protect))
      modifies this
      ensures var after := Closed(old(store), name, keep, protect);
              var gained := if keep || protect then 0 else old(store)[name].size;
              var stop := StopAt(budget, listing, after, old(free) + gained, 0, 0);
              && store == after - Evicted(listing, after, stop)
              && free == old(free) + gained + Freed(listing, after, stop)
              && (ok <==> MeetsAt(budget, listing, after, old(free) + gained, 0, stop))
    {
      if keep || protect {
        store := store[name := store[name].(life := if protect then Protected else Ended)];
      } else {
        free := free + store[name].size;
        store := store - {name};
      }
      ok := Ensure(0, listing);
    }
  }

  function Least(a: nat, b: nat): nat {
    if a < b then a else b
  }

  function Closed(store: Store, name: Name, keep: bool, protect: bool): Store
    requires name in store
  {
    if keep || protect then store[name := store[name].(life := if protect then Protected else Ended)]
       else store - {name}
  }

  // ----- What eviction promises -----

  /** The two budgets: what stays and the reservation fit the total, and what is free then is at least the minimum. */
  lemma BudgetsAreExact(b: Budget, listing: seq<Name>, store: Store, free: int, reserve: int, k: nat)
    requires Known(listing, store) && k <= |listing|
    ensures MeetsAt(b, listing, store, free, reserve, k) <==>
              && Total(listing, store) - Freed(listing, store, k) + reserve <= b.maximum
              && free + Freed(listing, store, k) - reserve >= b.minimumFree
  {
  }

  /** What goes: of the first k artifacts listed those that have ended, and neither active nor protected ones. */
  lemma EvictedAreExactlyEnded(listing: seq<Name>, store: Store, k: nat, i: nat)
    requires Lists(listing, store) && k <= |listing| && i < |listing|
    ensures listing[i] in Evicted(listing, store, k) <==> i < k && store[listing[i]].life == Ended
  {
  }

  /** Ending an operation: its artifact is protected if that was asked, kept as ended if only that was asked, and
      removed otherwise; nothing else changes. */
  lemma EndingIsExact(store: Store, name: Name, keep: bool, protect: bool, other: Name)
    requires name in store
    ensures var after := Closed(store, name, keep, protect);
            && (name in after <==> keep || protect)
            && (protect ==> after[name] == Artifact(store[name].created, Protected, store[name].size))
            && (keep && !protect ==> after[name] == Artifact(store[name].created, Ended, store[name].size))
            && (other != name ==> (other in after <==> other in store))
            && (other != name && other in store ==> after[other] == store[other])
  {
  }

  lemma {:induction false} StopIsFirst(b: Budget, listing: seq<Name>, store: Store, free: int, reserve: int, k: nat,
                                       j: nat)
    requires Known(listing, store) && k <= j <= |listing|
    ensures var stop := StopAt(b, listing, store, free, reserve, k);
            && (j < stop ==> !MeetsAt(b, listing, store, free, reserve, j))
            && (stop < |listing| ==> MeetsAt(b, listing, store, free, reserve, stop))
    decreases |listing| - k
  {
    if k < |listing| && !MeetsAt(b, listing, store, free, reserve, k) {
      StopIsFirst(b, listing, store, free, reserve, k + 1, if j == k then k + 1 else j);
    }
  }

  lemma {:induction false} FreedGrows(listing: seq<Name>, store: Store, j: nat, k: nat)
    requires Known(listing, store) && j <= k <= |listing|
    ensures Freed(listing, store, j) <= Freed(listing, store, k)
  {
    if j < k { FreedGrows(listing, store, j, k - 1); }
  }

  /** Only ended artifacts go, the oldest first: an ended one that stays is no older than any that went. */
  lemma OnlyTheOldestEndedGo(listing: seq<Name>, store: Store, k: nat, gone: Name, kept: Name)
    requires Lists(listing, store) && k <= |listing|
    requires gone in Evicted(listing, store, k) && kept in store && kept !in Evicted(listing, store, k)
    ensures store[gone].life == Ended
    ensures store[kept].life == Ended ==> store[gone].created <= store[kept].created
  {
    var i :| 0 <= i < k && store[listing[i]].life == Ended && listing[i] == gone;
    var j :| 0 <= j < |listing| && listing[j] == kept;
    assert store[kept].life == Ended ==> k <= j;
  }

  /** It stops at the first prefix that meets both budgets, and fails exactly when removing every ended artifact would
      still not meet them. */
  lemma EvictionIsMinimal(b: Budget, listing: seq<Name>, store: Store, free: int, reserve: nat, j: nat)
    requires Lists(listing, store) && j <= |listing|
    ensures var stop := StopAt(b, listing, store, free, reserve, 0);
            && (MeetsAt(b, listing, store, free, reserve, stop)
                <==> MeetsAt(b, listing, store, free, reserve, |listing|))
            && (j < stop ==> !MeetsAt(b, listing, store, free, reserve, j))
            && (MeetsAt(b, listing, store, free, reserve, stop) && stop <= j ==>
                  MeetsAt(b, listing, store, free, reserve, j))
  {
    var stop := StopAt(b, listing, store, free, reserve, 0);
    StopIsFirst(b, listing, store, free, reserve, 0, j);
    FreedGrows(listing, store, stop, |listing|);
    if stop <= j { FreedGrows(listing, store, stop, j); }
  }

  function SizeOf(names: set<Name>, store: Store): nat
    requires names <= store.Keys
  {
    if names == {} then 0
    else var name := Pick(names); store[name].size + SizeOf(names - {name}, store)
  }

  /** The least of a set of names, so that adding sizes up has an order. */
  function Pick(names: set<Name>): (name: Name)
    requires names != {}
    ensures IsLeast(name, names)
  {
    LeastExists(names);
    var name :| IsLeast(name, names);
    name
  }

  predicate IsLeast(name: Name, names: set<Name>) {
    name in names && forall other :: other in names ==> name <= other
  }

  lemma LeastOfMore(name: Name, least: Name, names: set<Name>)
    requires name in names && IsLeast(least, names - {name})
    ensures IsLeast(if name <= least then name else least, names)
  {
    forall other | other in names ensures (if name <= least then name else least) <= other {
      assert other == name || other in names - {name};
    }
  }

  lemma {:induction false} LeastExists(names: set<Name>)
    requires names != {}
    ensures exists name :: IsLeast(name, names)
    decreases |names|
  {
    var name :| name in names;
    if names == {name} {
      assert IsLeast(name, names);
    } else {
      LeastExists(names - {name});
      var least :| IsLeast(least, names - {name});
      LeastOfMore(name, least, names);
    }
  }

  lemma {:induction false} SizeAdds(names: set<Name>, extra: Name, store: Store)
    requires names + {extra} <= store.Keys && extra !in names
    ensures SizeOf(names + {extra}, store) == SizeOf(names, store) + store[extra].size
    decreases |names|
  {
    var all := names + {extra};
    var name := Pick(all);
    if name == extra {
      assert all - {name} == names;
    } else {
      SizeAdds(names - {name}, extra, store);
      assert all - {name} == names - {name} + {extra};
      assert Pick(names) == name;
    }
  }

  function Names(listing: seq<Name>): set<Name> {
    set name | name in listing
  }

  lemma {:induction false} TotalIsSize(listing: seq<Name>, store: Store)
    requires Known(listing, store) && forall i, j :: 0 <= i < j < |listing| ==> listing[i] != listing[j]
    ensures Names(listing) <= store.Keys
    ensures Total(listing, store) == SizeOf(Names(listing), store)
  {
    if listing != [] {
      var n := |listing| - 1;
      TotalIsSize(listing[..n], store);
      SizeAdds(Names(listing[..n]), listing[n], store);
      assert Names(listing) == Names(listing[..n]) + {listing[n]};
    } else {
      assert Names(listing) == {};
    }
  }

  lemma {:induction false} FreedIsSize(listing: seq<Name>, store: Store, k: nat)
    requires Lists(listing, store) && k <= |listing|
    ensures Freed(listing, store, k) == SizeOf(Evicted(listing, store, k), store)
  {
    if k > 0 {
      FreedIsSize(listing, store, k - 1);
      if store[listing[k - 1]].life == Ended {
        SizeAdds(Evicted(listing, store, k - 1), listing[k - 1], store);
        assert Evicted(listing, store, k) == Evicted(listing, store, k - 1) + {listing[k - 1]};
      } else {
        assert Evicted(listing, store, k) == Evicted(listing, store, k - 1);
      }
    }
  }

  lemma {:induction false} SizeSplits(gone: set<Name>, store: Store)
    requires gone <= store.Keys
    ensures SizeOf(store.Keys, store) == SizeOf(store.Keys - gone, store) + SizeOf(gone, store)
    decreases |gone|
  {
    if gone == {} {
      assert store.Keys - gone == store.Keys;
    } else {
      var name := Pick(gone);
      SizeSplits(gone - {name}, store);
      SizeAdds(store.Keys - gone, name, store);
      assert store.Keys - (gone - {name}) == store.Keys - gone + {name};
    }
  }

  /** Eviction moves space: what the artifacts give up is exactly what becomes free, and the loop's running total is the
      size of what is left. */
  lemma SpaceIsConserved(listing: seq<Name>, store: Store, free: int, k: nat)
    requires Lists(listing, store) && k <= |listing|
    ensures var gone := Evicted(listing, store, k);
            && SizeOf(store.Keys - gone, store) == Total(listing, store) - Freed(listing, store, k)
            && SizeOf(store.Keys - gone, store) + (free + Freed(listing, store, k)) == SizeOf(store.Keys, store) + free
  {
    assert Names(listing) == store.Keys;
    TotalIsSize(listing, store);
    FreedIsSize(listing, store, k);
    SizeSplits(Evicted(listing, store, k), store);
  }
}
