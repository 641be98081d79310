/**
 * The reference-counted subscription registry: a `Map<string, Set<string>>`
 * from an entity's key to the ids of the feedback consumers watching it. A key
 * is present exactly while its consumer set is non-empty, and the caller issues
 * the remote subscribe on the 0 -> 1 change and the remote unsubscribe on the
 * N -> 0 change that these functions report.
 */
module Registry {

  /** Keyed by the entity: a clip id for clips, the index for columns and decks. */
  type Table<K(!new)> = map<K, set<string>>

  /** No empty consumer set persists. */
  ghost predicate NoEmpty<K(!new)>(t: Table<K>)
  {
    forall k :: k in t ==> t[k] != {}
  }

  /** Consumers registered for `key`, empty when the key is absent. */
  function Members<K(==,!new)>(t: Table<K>, key: K): set<string>
  {
    if key in t then t[key] else {}
  }

  /** `if (!subs.get(key)) { subs.set(key, new Set()); <subscribe> } subs.get(key).add(consumer)`.
      The flag is the 0 -> 1 change that calls for the remote subscribe. */
  function Acquire<K(==,!new)>(t: Table<K>, key: K, consumer: string): (r: (Table<K>, bool))
    ensures r.1 <==> key !in t
    ensures r.0.Keys == t.Keys + {key}
    ensures forall k :: Members(r.0, k) == if k == key then Members(t, k) + {consumer} else Members(t, k)
    ensures NoEmpty(t) ==> NoEmpty(r.0)
  {
    var first := key !in t;
    var members := if first then {} else t[key];
    (t[key := members + {consumer}], first)
  }

  /** `subs.delete(consumer); if (subs.size === 0) { <unsubscribe>; map.delete(key) }`,
      a no-op when the key is absent. The flag is the N -> 0 change that calls
      for the remote unsubscribe. */
  function Release<K(==,!new)>(t: Table<K>, key: K, consumer: string): (r: (Table<K>, bool))
    ensures r.1 <==> key in t && t[key] - {consumer} == {}
    ensures key !in t ==> r.0 == t
    ensures r.0.Keys == if r.1 then t.Keys - {key} else t.Keys
    ensures forall k :: Members(r.0, k) == if k == key then Members(t, k) - {consumer} else Members(t, k)
    ensures NoEmpty(t) ==> NoEmpty(r.0)
  {
    if key !in t then (t, false)
    else
      var rest := t[key] - {consumer};
      if rest == {} then (t - {key}, true) else (t[key := rest], false)
  }

  /** One consumer-lifecycle call. */
  datatype Op<K(!new)> = Add(key: K, consumer: string) | Remove(key: K, consumer: string)

  function Step<K(==,!new)>(t: Table<K>, op: Op<K>): (Table<K>, bool)
  {
    match op
    case Add(key, consumer) => Acquire(t, key, consumer)
    case Remove(key, consumer) => Release(t, key, consumer)
  }

  /** The registry after a sequence of calls on an empty one. */
  function Replay<K(==,!new)>(ops: seq<Op<K>>): Table<K>
  {
    if ops == [] then map[] else Step(Replay(ops[..|ops| - 1]), ops[|ops| - 1]).0
  }

  /** Reference definition: the consumers currently added for `key`, by set
      arithmetic on the call history alone. */
  function Holders<K(==,!new)>(ops: seq<Op<K>>, key: K): set<string>
  {
    if ops == [] then {}
    else
      var before := Holders(ops[..|ops| - 1], key);
      var op := ops[|ops| - 1];
      if op.key != key then before
      else if op.Add? then before + {op.consumer}
      else before - {op.consumer}
  }

  /** The registry holds exactly the consumers currently added, and a key is
      present exactly when it has some. */
  lemma {:induction false} ReplayHolders<K(!new)>(ops: seq<Op<K>>)
    ensures NoEmpty(Replay(ops))
    ensures forall key :: Members(Replay(ops), key) == Holders(ops, key)
    ensures forall key :: key in Replay(ops) <==> Holders(ops, key) != {}
  {
    if ops != [] {
      ReplayHolders(ops[..|ops| - 1]);
    }
  }

  /** A call reports a change (and so makes a remote call) exactly when it
      moves its key between "no consumers" and "some consumers": an Add only
      on 0 -> 1, a Remove only on N -> 0. */
  lemma StepTransition<K(!new)>(ops: seq<Op<K>>, op: Op<K>)
    ensures var before := Holders(ops, op.key);
            var after := Holders(ops + [op], op.key);
            && (Step(Replay(ops), op).1 <==> (before == {}) != (after == {}))
            && (Step(Replay(ops), op).1 && op.Add? ==> before == {})
            && (Step(Replay(ops), op).1 && op.Remove? ==> after == {})
  {
    ReplayHolders(ops);
    assert (ops + [op])[..|ops|] == ops;
  }

  /** Remote-call flags of a whole call sequence, step by step. */
  function Flags<K(==,!new)>(ops: seq<Op<K>>): seq<bool>
  {
    if ops == [] then [] else Flags(ops[..|ops| - 1]) + [Step(Replay(ops[..|ops| - 1]), ops[|ops| - 1]).1]
  }

  /** Two consumers on one key: one remote subscribe when the first arrives,
      none for the second nor when the first leaves, one remote unsubscribe
      when the last leaves, and the key is gone. */
  lemma TwoConsumerScenario<K(!new)>(key: K, a: string, b: string)
    requires a != b
    ensures var ops := [Add(key, a), Add(key, b), Remove(key, a), Remove(key, b)];
            Flags(ops) == [true, false, false, true] && key !in Replay(ops)
  {
    var s1 := [Add(key, a)];
    var s2 := s1 + [Add(key, b)];
    var s3 := s2 + [Remove(key, a)];
    var ops := s3 + [Remove(key, b)];
    assert ops == [Add(key, a), Add(key, b), Remove(key, a), Remove(key, b)];
    assert s1[..0] == [] && s2[..1] == s1 && s3[..2] == s2 && ops[..3] == s3;
    var t0: Table<K> := map[];
    assert Replay(s1) == Acquire(t0, key, a).0;
    var none: set<string> := {};
    assert none + {a} == {a};
    assert Acquire(t0, key, a).0 == t0[key := {a}];
    assert Replay(s1) == map[key := {a}];
    assert Replay(s2) == Acquire(Replay(s1), key, b).0;
    assert Acquire(Replay(s1), key, b).0 == Replay(s1)[key := {a} + {b}];
    assert {a} + {b} == {a, b};
    assert Replay(s2) == map[key := {a, b}];
    assert Replay(s3) == Release(Replay(s2), key, a).0;
    assert Replay(s3) == map[key := {b}];
    assert Replay(ops) == Release(Replay(s3), key, b).0;
    assert Flags(s1) == [true];
    assert Flags(s2) == [true, false];
    assert Flags(s3) == [true, false, false];
  }

  /** A non-empty set of ids has an element: the witness an iteration over
      it picks next. */
  lemma NonEmptyInts(s: set<int>)
    requires s != {}
    ensures exists x :: x in s
  {
    if forall x :: x !in s {
      assert false;
    }
  }
}
