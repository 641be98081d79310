/**
 * The remote subscription channel and the host callbacks, as logs.
 * The channel's operations are idempotent and fire-and-forget, so the state
 * they leave on the remote side is a set of subscribed paths, obtained by
 * replaying the log.
 */
module Remote {
  import opened Wrappers
  import opened Paths

  datatype Call =
    | SubscribePath(path: Path)
    | UnsubscribePath(path: Path)
    | SubscribeParam(id: int)
    | UnsubscribeParam(id: int)

  function After(active: set<Path>, call: Call): set<Path>
  {
    match call
    case SubscribePath(p) => active + {p}
    case UnsubscribePath(p) => active - {p}
    case _ => active
  }

  function ApplyAll(active: set<Path>, calls: seq<Call>): set<Path>
    decreases |calls|
  {
    if calls == [] then active else ApplyAll(After(active, calls[0]), calls[1..])
  }

  /** Paths the remote side holds subscribed after the calls of `log`. */
  function ActivePaths(log: seq<Call>): set<Path>
  {
    ApplyAll({}, log)
  }

  lemma {:induction false} ApplyAllAppend(active: set<Path>, a: seq<Call>, b: seq<Call>)
    ensures ApplyAll(active, a + b) == ApplyAll(ApplyAll(active, a), b)
    decreases |a|
  {
    if a != [] {
      assert (a + b)[0] == a[0];
      assert (a + b)[1..] == a[1..] + b;
      ApplyAllAppend(After(active, a[0]), a[1..], b);
    } else {
      assert a + b == b;
    }
  }

  lemma LogAppend(log: seq<Call>, a: seq<Call>, b: seq<Call>)
    ensures log + a + b == log + (a + b)
  {
  }

  /** Appending nothing leaves a log as it is. */
  lemma AppendNothing<T>(log: seq<T>)
    ensures log + [] == log
  {
  }

  /** Appending one call applies it to the replayed state. */
  lemma ActivePathsSnoc(log: seq<Call>, call: Call)
    ensures ActivePaths(log + [call]) == After(ActivePaths(log), call)
  {
    ApplyAllAppend({}, log, [call]);
    assert [call][1..] == [];
  }

  /** Each path of `touched` ends up subscribed exactly when `demanded` holds
      it; every other path keeps its state. */
  function Reconcile(active: set<Path>, touched: set<Path>, demanded: set<Path>): set<Path>
  {
    (active - touched) + (touched * demanded)
  }

  lemma ReconcileMembers(active: set<Path>, touched: set<Path>, demanded: set<Path>)
    ensures forall p :: p in Reconcile(active, touched, demanded) <==> if p in touched then p in demanded else p in active
  {
  }

  lemma ReconcileCompose(active: set<Path>, t1: set<Path>, t2: set<Path>, demanded: set<Path>)
    ensures Reconcile(Reconcile(active, t1, demanded), t2, demanded) == Reconcile(active, t1 + t2, demanded)
  {
  }

  /** Two call sequences that each reconcile a set of paths reconcile their
      union when sent one after the other. */
  lemma ReconcileInSequence(active: set<Path>, a: seq<Call>, b: seq<Call>, t1: set<Path>, t2: set<Path>, demanded: set<Path>)
    requires ApplyAll(active, a) == Reconcile(active, t1, demanded)
    requires ApplyAll(ApplyAll(active, a), b) == Reconcile(ApplyAll(active, a), t2, demanded)
    ensures ApplyAll(active, a + b) == Reconcile(active, t1 + t2, demanded)
  {
    ApplyAllAppend(active, a, b);
    ReconcileCompose(active, t1, t2, demanded);
  }

  /** Reconciling twice against the same demand is reconciling once. */
  lemma ReconcileIdempotent(active: set<Path>, touched: set<Path>, demanded: set<Path>)
    ensures Reconcile(Reconcile(active, touched, demanded), touched, demanded) == Reconcile(active, touched, demanded)
  {
  }

  /** A remote side already in line with the demand is left as it is. */
  lemma ReconcileKeeps(demanded: set<Path>, touched: set<Path>)
    ensures Reconcile(demanded, touched, demanded) == demanded
  {
  }

  /** A numeric-id call, issued only when the id is truthy (present and non-zero). */
  function ParamCall(id: Option<int>, subscribe: bool): seq<Call>
  {
    if id.Some? && id.value != 0 then
      [if subscribe then SubscribeParam(id.value) else UnsubscribeParam(id.value)]
    else []
  }

  /** The unsubscribe calls for `ids`, in order. */
  function UnsubscribeParams(ids: seq<int>): seq<Call>
    decreases |ids|
  {
    if ids == [] then [] else UnsubscribeParams(ids[..|ids| - 1]) + [UnsubscribeParam(ids[|ids| - 1])]
  }

  /** One more id extends a log that ends with the unsubscribe calls for
      `ids` to one that ends with those for `ids + [x]`. */
  lemma UnsubscribeStep(base: seq<Call>, prev: seq<Call>, ids: seq<int>, x: int)
    requires prev == base + UnsubscribeParams(ids)
    ensures prev + [UnsubscribeParam(x)] == base + UnsubscribeParams(ids + [x])
  {
    assert (ids + [x])[..|ids|] == ids;
    LogAppend(base, UnsubscribeParams(ids), [UnsubscribeParam(x)]);
  }

  predicate ParamCallsOnly(calls: seq<Call>)
  {
    forall i :: 0 <= i < |calls| ==> calls[i].SubscribeParam? || calls[i].UnsubscribeParam?
  }

  /** Numeric-id calls leave the path subscriptions alone. */
  lemma {:induction false} ParamCallsKeepPaths(active: set<Path>, calls: seq<Call>)
    requires ParamCallsOnly(calls)
    ensures ApplyAll(active, calls) == active
    decreases |calls|
  {
    if calls != [] {
      ParamCallsKeepPaths(active, calls[1..]);
    }
  }

  lemma {:induction false} UnsubscribeParamsOnly(ids: seq<int>)
    ensures ParamCallsOnly(UnsubscribeParams(ids))
    ensures |UnsubscribeParams(ids)| == |ids|
    ensures forall i :: 0 <= i < |ids| ==> UnsubscribeParams(ids)[i] == UnsubscribeParam(ids[i])
    decreases |ids|
  {
    if ids != [] {
      UnsubscribeParamsOnly(ids[..|ids| - 1]);
    }
  }
}

/** Host callbacks whose bodies live outside the core: dirty marks, forced
    re-checks and the named output variables. */
module Host {
  import opened Wrappers

  datatype VarValue =
    | VarInt(i: int)
    | VarText(s: string)
    | VarUnset
      /** The JSON object `{layer, column, clipName}` published for a clip. */
    | VarClip(layer: int, column: int, name: Option<string>)

  datatype Notice =
    | MarkDirty(categories: seq<string>)
    | CheckFeedbacks(categories: seq<string>)
      /** `checkFeedbacks(...getOtherClipFeedbacks(except))`, plus the layer feedbacks when asked. */
    | CheckOtherClipFeedbacks(except: string, withLayerFeedbacks: bool)
    | SetVariable(name: string, value: VarValue)
}
