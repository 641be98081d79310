/**
 * The reload sweep the column and deck engines share: for every 1-based
 * index of the snapshot, the paths of that index are all unsubscribed, then
 * those the registries demand are subscribed again, in the same order.
 * Whatever the remote side held, it ends up holding each swept path exactly
 * when it is demanded.
 */
module Sweep {
  import opened Paths
  import opened Remote

  /** The unsubscribe calls for `ps`, in order. */
  function Unsubscribes(ps: seq<Path>): seq<Call>
    decreases |ps|
  {
    if ps == [] then [] else Unsubscribes(ps[..|ps| - 1]) + [UnsubscribePath(ps[|ps| - 1])]
  }

  /** The subscribe calls for the demanded paths of `ps`, in order. */
  function Resubscribes(ps: seq<Path>, demanded: set<Path>): seq<Call>
    decreases |ps|
  {
    if ps == [] then []
    else
      var p := ps[|ps| - 1];
      Resubscribes(ps[..|ps| - 1], demanded) + (if p in demanded then [SubscribePath(p)] else [])
  }

  function Elems(ps: seq<Path>): set<Path>
  {
    set p | p in ps
  }

  lemma ElemsSnoc(ps: seq<Path>)
    requires ps != []
    ensures Elems(ps) == Elems(ps[..|ps| - 1]) + {ps[|ps| - 1]}
  {
    assert ps == ps[..|ps| - 1] + [ps[|ps| - 1]];
  }

  lemma {:induction false} UnsubscribesOutcome(active: set<Path>, ps: seq<Path>)
    ensures ApplyAll(active, Unsubscribes(ps)) == active - Elems(ps)
    decreases |ps|
  {
    if ps != [] {
      var init, p := ps[..|ps| - 1], ps[|ps| - 1];
      UnsubscribesOutcome(active, init);
      ApplyAllAppend(active, Unsubscribes(init), [UnsubscribePath(p)]);
      assert [UnsubscribePath(p)][1..] == [];
      ElemsSnoc(ps);
    }
  }

  lemma {:induction false} ResubscribesOutcome(active: set<Path>, ps: seq<Path>, demanded: set<Path>)
    ensures ApplyAll(active, Resubscribes(ps, demanded)) == active + Elems(ps) * demanded
    decreases |ps|
  {
    if ps != [] {
      var init, p := ps[..|ps| - 1], ps[|ps| - 1];
      var tail := if p in demanded then [SubscribePath(p)] else [];
      ResubscribesOutcome(active, init, demanded);
      ApplyAllAppend(active, Resubscribes(init, demanded), tail);
      assert tail != [] ==> tail[1..] == [];
      ElemsSnoc(ps);
    }
  }

  /** One index of the sweep: every path unsubscribed, then the demanded ones
      subscribed again. */
  function ResetCalls(ps: seq<Path>, demanded: set<Path>): seq<Call>
  {
    Unsubscribes(ps) + Resubscribes(ps, demanded)
  }

  /** Resetting a group of paths settles exactly those paths on the demand. */
  lemma ResetOutcome(active: set<Path>, ps: seq<Path>, demanded: set<Path>)
    ensures ApplyAll(active, ResetCalls(ps, demanded)) == Reconcile(active, Elems(ps), demanded)
  {
    ApplyAllAppend(active, Unsubscribes(ps), Resubscribes(ps, demanded));
    UnsubscribesOutcome(active, ps);
    ResubscribesOutcome(active - Elems(ps), ps, demanded);
  }

  /** The calls of a sweep over the indices `1..n`, `at(k)` giving the paths of index `k`. */
  function SweepCalls(at: int -> seq<Path>, n: nat, demanded: set<Path>): seq<Call>
  {
    if n == 0 then [] else SweepCalls(at, n - 1, demanded) + ResetCalls(at(n), demanded)
  }

  /** The paths a sweep over the indices `1..n` touches. */
  function SweepPaths(at: int -> seq<Path>, n: nat): set<Path>
  {
    if n == 0 then {} else SweepPaths(at, n - 1) + Elems(at(n))
  }

  /** A log ending in the sweep of `1..i` extends, by the reset of index
      `i + 1`, to one ending in the sweep of `1..i + 1`. */
  lemma SweepStep(base: seq<Call>, prev: seq<Call>, at: int -> seq<Path>, i: nat, demanded: set<Path>)
    requires prev == base + SweepCalls(at, i, demanded)
    ensures prev + ResetCalls(at(i + 1), demanded) == base + SweepCalls(at, i + 1, demanded)
  {
    LogAppend(base, SweepCalls(at, i, demanded), ResetCalls(at(i + 1), demanded));
  }

  /** A sweep settles every path it touches on the demand and leaves every
      other path as it was. */
  lemma {:induction false} SweepOutcome(active: set<Path>, at: int -> seq<Path>, n: nat, demanded: set<Path>)
    ensures ApplyAll(active, SweepCalls(at, n, demanded)) == Reconcile(active, SweepPaths(at, n), demanded)
  {
    if n == 0 {
      assert Reconcile(active, {}, demanded) == active;
    } else {
      var before := SweepCalls(at, n - 1, demanded);
      SweepOutcome(active, at, n - 1, demanded);
      ResetOutcome(ApplyAll(active, before), at(n), demanded);
      ReconcileInSequence(active, before, ResetCalls(at(n), demanded), SweepPaths(at, n - 1), Elems(at(n)), demanded);
    }
  }

  /** Whatever the remote side held, after a sweep each swept path is
      subscribed exactly when it is demanded; the others keep their state. */
  lemma SweepSettles(active: set<Path>, at: int -> seq<Path>, n: nat, demanded: set<Path>)
    ensures var after := ApplyAll(active, SweepCalls(at, n, demanded));
      forall p :: p in after <==> if p in SweepPaths(at, n) then p in demanded else p in active
  {
    SweepOutcome(active, at, n, demanded);
    ReconcileMembers(active, SweepPaths(at, n), demanded);
  }

  /** A remote side in line with the demand stays in line with it through a sweep. */
  lemma SweepKeepsSynced(log: seq<Call>, at: int -> seq<Path>, n: nat, demanded: set<Path>)
    requires ActivePaths(log) == demanded
    ensures ActivePaths(log + SweepCalls(at, n, demanded)) == demanded
  {
    ApplyAllAppend({}, log, SweepCalls(at, n, demanded));
    SweepOutcome(demanded, at, n, demanded);
    ReconcileKeeps(demanded, SweepPaths(at, n));
  }

  /** The unsubscribe and resubscribe calls of two paths, spelled out. */
  lemma CallsOfTwo(a: Path, b: Path, demanded: set<Path>)
    ensures Unsubscribes([a, b]) == [UnsubscribePath(a), UnsubscribePath(b)]
    ensures Resubscribes([a, b], demanded) ==
      (if a in demanded then [SubscribePath(a)] else []) + (if b in demanded then [SubscribePath(b)] else [])
  {
    assert [a, b][..1] == [a];
    assert [a][..0] == [];
    assert Unsubscribes([a]) == [UnsubscribePath(a)];
    assert Resubscribes([a], demanded) == (if a in demanded then [SubscribePath(a)] else []);
  }

  /** The unsubscribe and resubscribe calls of three paths, spelled out. */
  lemma CallsOfThree(a: Path, b: Path, c: Path, demanded: set<Path>)
    ensures Unsubscribes([a, b, c]) == [UnsubscribePath(a), UnsubscribePath(b), UnsubscribePath(c)]
    ensures Resubscribes([a, b, c], demanded) ==
      (if a in demanded then [SubscribePath(a)] else []) + (if b in demanded then [SubscribePath(b)] else [])
      + (if c in demanded then [SubscribePath(c)] else [])
  {
    assert [a, b, c][..2] == [a, b];
    CallsOfTwo(a, b, demanded);
  }

  /** A log extended by the reset of three paths: three unsubscribes, then
      a subscribe for each of them flagged as demanded, in the same order. */
  lemma ResetThree(log: seq<Call>, a: Path, b: Path, c: Path, demanded: set<Path>, ra: bool, rb: bool, rc: bool)
    requires ra == (a in demanded) && rb == (b in demanded) && rc == (c in demanded)
    ensures log + ResetCalls([a, b, c], demanded) ==
      log + [UnsubscribePath(a), UnsubscribePath(b), UnsubscribePath(c)]
      + (if ra then [SubscribePath(a)] else [])
      + (if rb then [SubscribePath(b)] else [])
      + (if rc then [SubscribePath(c)] else [])
  {
    CallsOfThree(a, b, c, demanded);
  }

  /** A log extended by the reset of two paths: two unsubscribes, then a
      subscribe for each of them flagged as demanded. */
  lemma ResetTwo(log: seq<Call>, a: Path, b: Path, demanded: set<Path>, ra: bool, rb: bool)
    requires ra == (a in demanded) && rb == (b in demanded)
    ensures log + ResetCalls([a, b], demanded) ==
      log + [UnsubscribePath(a), UnsubscribePath(b)]
      + (if ra then [SubscribePath(a)] else [])
      + (if rb then [SubscribePath(b)] else [])
  {
    CallsOfTwo(a, b, demanded);
  }
}
