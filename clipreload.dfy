/**
 * What the clip engine's reload loops send to the remote side, as functions
 * of the snapshot and the registries, and what the remote side holds
 * afterwards. A registry is keyed by clip id; the paths a registry demands
 * are the paths of its keys' clips.
 */
module ClipReload {
  import opened Wrappers
  import opened Paths
  import opened Remote
  import opened Composition

  /** The `signal` paths of the clips named by `keys`. */
  function PathsOf(keys: set<ClipId>, signal: ClipSignal): set<Path>
  {
    set id | id in keys :: ClipPath(id, signal)
  }

  /** Registering a clip adds its path to the demand. */
  lemma PathsOfAdd(keys: set<ClipId>, id: ClipId, signal: ClipSignal)
    ensures PathsOf(keys + {id}, signal) == PathsOf(keys, signal) + {ClipPath(id, signal)}
  {
  }

  /** Dropping a clip removes its path from the demand. */
  lemma PathsOfRemove(keys: set<ClipId>, id: ClipId, signal: ClipSignal)
    ensures PathsOf(keys - {id}, signal) == PathsOf(keys, signal) - {ClipPath(id, signal)}
  {
  }

  lemma PathsOfHas(keys: set<ClipId>, id: ClipId, signal: ClipSignal)
    ensures ClipPath(id, signal) in PathsOf(keys, signal) <==> id in keys
  {
  }

  /** Which reload loop: `initConnectedFromComposition` or `initSelectedFromComposition`. */
  datatype ReloadKind = ConnectReload | SelectReload

  function SignalOf(kind: ReloadKind): ClipSignal
  {
    match kind
    case ConnectReload => Connect
    case SelectReload => Select
  }

  /** The calls one snapshot clip gets. Connect: its path is always
      unsubscribed, then subscribed again only when registered, with the
      transport position id unsubscribed and subscribed around it. Select:
      subscribed when registered, unsubscribed otherwise. */
  function ClipCalls(kind: ReloadKind, id: ClipId, clip: Clip, registered: bool): seq<Call>
  {
    var p := ClipPath(id, SignalOf(kind));
    match kind
    case ConnectReload =>
      [UnsubscribePath(p)] + ParamCall(clip.positionId, false)
      + (if registered then [SubscribePath(p)] else []) + ParamCall(clip.positionId, true)
    case SelectReload =>
      if registered then [SubscribePath(p)] else [UnsubscribePath(p)]
  }

  /** A clip's path is subscribed exactly when the clip is registered; the
      connect reload always starts by unsubscribing it, the select reload
      unsubscribes it exactly when it is not registered, and no other path is
      touched. */
  lemma ClipCallsShape(kind: ReloadKind, id: ClipId, clip: Clip, registered: bool)
    ensures var r := ClipCalls(kind, id, clip, registered);
      var p := ClipPath(id, SignalOf(kind));
      && (SubscribePath(p) in r <==> registered)
      && |r| >= 1 && (kind == ConnectReload ==> r[0] == UnsubscribePath(p))
      && (kind == SelectReload ==> (UnsubscribePath(p) in r <==> !registered))
      && (forall c :: c in r && (c.SubscribePath? || c.UnsubscribePath?) ==> c.path == p)
  {
  }

  /** The calls for the first `n` clips of one layer, in column order;
      `layer` is 1-based. */
  function RowCalls(kind: ReloadKind, layer: int, clips: seq<Clip>, n: nat, keys: set<ClipId>): seq<Call>
    requires n <= |clips|
  {
    if n == 0 then []
    else
      var id := ClipId(layer, n);
      RowCalls(kind, layer, clips, n - 1, keys) + ClipCalls(kind, id, clips[n - 1], id in keys)
  }

  function LayerCalls(kind: ReloadKind, layer: int, clips: Option<seq<Clip>>, keys: set<ClipId>): seq<Call>
  {
    if clips.None? then [] else RowCalls(kind, layer, clips.value, |clips.value|, keys)
  }

  /** The calls of a reload of the first `n` layers, layer by layer. */
  function GridCalls(kind: ReloadKind, layers: seq<Layer>, n: nat, keys: set<ClipId>): seq<Call>
    requires n <= |layers|
  {
    if n == 0 then []
    else GridCalls(kind, layers, n - 1, keys) + LayerCalls(kind, n, layers[n - 1].clips, keys)
  }

  /** One more clip extends a log that ends with a row's first `c` clips
      to one that ends with its first `c + 1`. */
  lemma RowStep(base: seq<Call>, prev: seq<Call>, kind: ReloadKind, layer: int, clips: seq<Clip>, c: nat, keys: set<ClipId>)
    requires c < |clips|
    requires prev == base + RowCalls(kind, layer, clips, c, keys)
    ensures var id := ClipId(layer, c + 1);
      prev + ClipCalls(kind, id, clips[c], id in keys) == base + RowCalls(kind, layer, clips, c + 1, keys)
  {
    var id := ClipId(layer, c + 1);
    LogAppend(base, RowCalls(kind, layer, clips, c, keys), ClipCalls(kind, id, clips[c], id in keys));
  }

  /** One more layer extends a log that ends with the first `l` layers of a
      reload to one that ends with the first `l + 1`. */
  lemma GridStep(base: seq<Call>, prev: seq<Call>, kind: ReloadKind, layers: seq<Layer>, l: nat, keys: set<ClipId>)
    requires l < |layers|
    requires prev == base + GridCalls(kind, layers, l, keys)
    ensures prev + LayerCalls(kind, l + 1, layers[l].clips, keys) == base + GridCalls(kind, layers, l + 1, keys)
  {
    LogAppend(base, GridCalls(kind, layers, l, keys), LayerCalls(kind, l + 1, layers[l].clips, keys));
  }

  /** The clip at 1-based `id` exists in the first `n` of the snapshot's
      layers. */
  predicate OnGridBelow(layers: seq<Layer>, n: nat, id: ClipId)
  {
    && 1 <= id.layer <= n
    && id.layer <= |layers|
    && layers[id.layer - 1].clips.Some?
    && 1 <= id.column <= |layers[id.layer - 1].clips.value|
  }

  /** The clip at 1-based `id` exists in the snapshot's layers. */
  predicate OnGrid(layers: seq<Layer>, id: ClipId)
  {
    OnGridBelow(layers, |layers|, id)
  }

  function RowPaths(layer: int, n: nat, signal: ClipSignal): set<Path>
  {
    if n == 0 then {} else RowPaths(layer, n - 1, signal) + {ClipPath(ClipId(layer, n), signal)}
  }

  function LayerPaths(layer: int, clips: Option<seq<Clip>>, signal: ClipSignal): set<Path>
  {
    if clips.None? then {} else RowPaths(layer, |clips.value|, signal)
  }

  /** The `signal` paths of every clip of the first `n` layers, 1-based. */
  function GridPaths(layers: seq<Layer>, n: nat, signal: ClipSignal): set<Path>
    requires n <= |layers|
  {
    if n == 0 then {}
    else GridPaths(layers, n - 1, signal) + LayerPaths(n, layers[n - 1].clips, signal)
  }

  lemma {:induction false} RowPathsMembers(layer: int, n: nat, signal: ClipSignal)
    ensures forall p :: p in RowPaths(layer, n, signal) <==> p.ClipPath? && p.clipSignal == signal && p.clip.layer == layer && 1 <= p.clip.column <= n
  {
    if n > 0 {
      RowPathsMembers(layer, n - 1, signal);
    }
  }

  /** The paths a reload touches are the `signal` paths of the snapshot's
      clips. */
  lemma {:induction false} GridPathsMembers(layers: seq<Layer>, n: nat, signal: ClipSignal)
    requires n <= |layers|
    ensures forall p :: p in GridPaths(layers, n, signal) <==> p.ClipPath? && p.clipSignal == signal && OnGridBelow(layers, n, p.clip)
  {
    if n > 0 {
      GridPathsMembers(layers, n - 1, signal);
      var clips := layers[n - 1].clips;
      if clips.Some? {
        RowPathsMembers(n, |clips.value|, signal);
      }
    }
  }

  lemma ClipCallsOutcome(active: set<Path>, kind: ReloadKind, id: ClipId, clip: Clip, registered: bool, demanded: set<Path>)
    requires ClipPath(id, SignalOf(kind)) in demanded <==> registered
    ensures ApplyAll(active, ClipCalls(kind, id, clip, registered)) == Reconcile(active, {ClipPath(id, SignalOf(kind))}, demanded)
  {
    var p := ClipPath(id, SignalOf(kind));
    match kind
    case ConnectReload =>
      var a, b := [UnsubscribePath(p)], ParamCall(clip.positionId, false);
      var c, d := (if registered then [SubscribePath(p)] else []), ParamCall(clip.positionId, true);
      assert ClipCalls(kind, id, clip, registered) == a + b + c + d;
      ApplyAllAppend(active, a + b + c, d);
      ApplyAllAppend(active, a + b, c);
      ApplyAllAppend(active, a, b);
      assert a[1..] == [];
      ParamCallsKeepPaths(ApplyAll(active, a), b);
      ParamCallsKeepPaths(ApplyAll(active, a + b + c), d);
      assert c != [] ==> c[1..] == [];
    case SelectReload =>
      assert ClipCalls(kind, id, clip, registered)[1..] == [];
  }

  /** Reloading the first `n` clips of a layer settles each of their paths
      on the demand and leaves every other path as it was. */
  lemma {:induction false} RowOutcome(active: set<Path>, kind: ReloadKind, layer: int, clips: seq<Clip>, n: nat, keys: set<ClipId>)
    requires n <= |clips|
    ensures ApplyAll(active, RowCalls(kind, layer, clips, n, keys)) == Reconcile(active, RowPaths(layer, n, SignalOf(kind)), PathsOf(keys, SignalOf(kind)))
  {
    var signal := SignalOf(kind);
    if n == 0 {
      assert Reconcile(active, {}, PathsOf(keys, signal)) == active;
    } else {
      var id := ClipId(layer, n);
      var before := RowCalls(kind, layer, clips, n - 1, keys);
      RowOutcome(active, kind, layer, clips, n - 1, keys);
      PathsOfHas(keys, id, signal);
      ClipCallsOutcome(ApplyAll(active, before), kind, id, clips[n - 1], id in keys, PathsOf(keys, signal));
      ReconcileInSequence(active, before, ClipCalls(kind, id, clips[n - 1], id in keys), RowPaths(layer, n - 1, signal), {ClipPath(id, signal)}, PathsOf(keys, signal));
    }
  }

  lemma LayerOutcome(active: set<Path>, kind: ReloadKind, layer: int, clips: Option<seq<Clip>>, keys: set<ClipId>)
    ensures ApplyAll(active, LayerCalls(kind, layer, clips, keys)) == Reconcile(active, LayerPaths(layer, clips, SignalOf(kind)), PathsOf(keys, SignalOf(kind)))
  {
    var signal := SignalOf(kind);
    if clips.Some? {
      RowOutcome(active, kind, layer, clips.value, |clips.value|, keys);
    } else {
      assert Reconcile(active, {}, PathsOf(keys, signal)) == active;
    }
  }

  /** A reload of the first `n` layers settles the path of each of their
      clips on the demand: it ends up subscribed exactly when the clip is
      registered. Paths of other clips keep their state. */
  lemma {:induction false} GridOutcome(active: set<Path>, kind: ReloadKind, layers: seq<Layer>, n: nat, keys: set<ClipId>)
    requires n <= |layers|
    ensures ApplyAll(active, GridCalls(kind, layers, n, keys)) == Reconcile(active, GridPaths(layers, n, SignalOf(kind)), PathsOf(keys, SignalOf(kind)))
  {
    var signal := SignalOf(kind);
    if n == 0 {
      assert Reconcile(active, {}, PathsOf(keys, signal)) == active;
    } else {
      var before := GridCalls(kind, layers, n - 1, keys);
      GridOutcome(active, kind, layers, n - 1, keys);
      LayerOutcome(ApplyAll(active, before), kind, n, layers[n - 1].clips, keys);
      ReconcileInSequence(active, before, LayerCalls(kind, n, layers[n - 1].clips, keys), GridPaths(layers, n - 1, signal), LayerPaths(n, layers[n - 1].clips, signal), PathsOf(keys, signal));
    }
  }

  /** Whatever the remote side held before, after a reload the path of every
      clip in the snapshot is subscribed exactly when the clip is registered,
      and the paths of clips outside the snapshot are as they were. */
  lemma ReloadSettles(active: set<Path>, kind: ReloadKind, layers: seq<Layer>, keys: set<ClipId>)
    ensures var after := ApplyAll(active, GridCalls(kind, layers, |layers|, keys));
      forall id :: ClipPath(id, SignalOf(kind)) in after <==> if OnGrid(layers, id) then id in keys else ClipPath(id, SignalOf(kind)) in active
  {
    var signal := SignalOf(kind);
    GridOutcome(active, kind, layers, |layers|, keys);
    GridPathsMembers(layers, |layers|, signal);
    ReconcileMembers(active, GridPaths(layers, |layers|, signal), PathsOf(keys, signal));
    forall id
      ensures ClipPath(id, signal) in PathsOf(keys, signal) <==> id in keys
    {
      PathsOfHas(keys, id, signal);
    }
  }

  /** The numeric parameters whose ids the engine records. */
  datatype ParamKind = SpeedParam | VolumeParam | OpacityParam

  function ParamIdOf(clip: Clip, kind: ParamKind): Option<int>
  {
    match kind
    case SpeedParam => clip.speedId
    case VolumeParam => clip.volumeId
    case OpacityParam => clip.opacityId
  }

  /** A truthy id: present and not zero. */
  predicate Live(id: Option<int>)
  {
    id.Some? && id.value != 0
  }

  /** The id of a clip's parameter, absent when the snapshot has no such clip. */
  function ClipParamId(snap: Option<Snapshot>, layer: int, column: int, kind: ParamKind): Option<int>
    requires LookupSafe(snap, layer)
  {
    var clip := ClipAt(snap, layer, column);
    if clip.Some? then ParamIdOf(clip.value, kind) else None
  }

  /** Every key names a layer the snapshot lookup does not throw on. */
  predicate Resolvable(snap: Option<Snapshot>, keys: set<ClipId>)
  {
    forall id :: id in keys ==> LookupSafe(snap, id.layer)
  }

  /** The id of the parameter of the clip a key names; a key whose layer the
      lookup would throw on names none. */
  function KeyParamId(snap: Option<Snapshot>, id: ClipId, kind: ParamKind): Option<int>
  {
    if LookupSafe(snap, id.layer) then ClipParamId(snap, id.layer, id.column, kind) else None
  }

  /** The truthy parameter ids of the clips named by `keys`. */
  function ResolvedIds(snap: Option<Snapshot>, keys: set<ClipId>, kind: ParamKind): set<int>
  {
    set id | id in keys && Live(KeyParamId(snap, id, kind)) :: KeyParamId(snap, id, kind).value
  }

  /** Registering one more clip adds its truthy parameter id, if any. */
  lemma ResolvedIdsAdd(snap: Option<Snapshot>, keys: set<ClipId>, id: ClipId, kind: ParamKind)
    ensures var pid := KeyParamId(snap, id, kind);
      ResolvedIds(snap, keys + {id}, kind) == ResolvedIds(snap, keys, kind) + (if Live(pid) then {pid.value} else {})
  {
  }

  /** Recording the next clip's id keeps a record that holds the ids of the
      clips visited so far on top of `base`. */
  lemma ResolvedStep(base: set<int>, prev: set<int>, next: set<int>, snap: Option<Snapshot>, visited: set<ClipId>, id: ClipId, kind: ParamKind)
    requires prev == base + ResolvedIds(snap, visited, kind)
    requires var pid := KeyParamId(snap, id, kind);
      next == prev + (if Live(pid) then {pid.value} else {})
    ensures next == base + ResolvedIds(snap, visited + {id}, kind)
  {
    ResolvedIdsAdd(snap, visited, id, kind);
  }

  /** The subscribe calls issued while walking the keys in `order`. */
  function SubscribeCalls(snap: Option<Snapshot>, order: seq<ClipId>, kind: ParamKind): seq<Call>
    decreases |order|
  {
    if order == [] then []
    else
      var n := |order|;
      SubscribeCalls(snap, order[..n - 1], kind) + ParamCall(KeyParamId(snap, order[n - 1], kind), true)
  }

  /** One more registered clip extends a log that ends with the subscribe
      calls for `order` to one that ends with those for `order + [id]`. */
  lemma SubscribeStep(base: seq<Call>, prev: seq<Call>, snap: Option<Snapshot>, order: seq<ClipId>, id: ClipId, kind: ParamKind)
    requires prev == base + SubscribeCalls(snap, order, kind)
    ensures prev + ParamCall(KeyParamId(snap, id, kind), true) == base + SubscribeCalls(snap, order + [id], kind)
  {
    assert (order + [id])[..|order|] == order;
    LogAppend(base, SubscribeCalls(snap, order, kind), ParamCall(KeyParamId(snap, id, kind), true));
  }

  lemma {:induction false} SubscribeCallsOnly(snap: Option<Snapshot>, order: seq<ClipId>, kind: ParamKind)
    ensures ParamCallsOnly(SubscribeCalls(snap, order, kind))
    decreases |order|
  {
    if order != [] {
      SubscribeCallsOnly(snap, order[..|order| - 1], kind);
    }
  }
}
