/**
 * The clip engine (`ClipUtils`): six reference-counted registries keyed by
 * clip, the three sets of numeric parameter ids it has seen, and
 * the reload loops run when a composition snapshot arrives. Remote calls and
 * host notifications are appended to logs; the snapshot is a parameter.
 */
module Clips {
  import opened Wrappers
  import opened Paths
  import opened Remote
  import opened Host
  import opened Composition
  import opened Registry
  import opened ClipReload
  import opened ClipFeedback

  /** The layers a reload walks: none without a snapshot or a layer list. */
  function SnapshotLayers(snap: Option<Snapshot>): seq<Layer>
  {
    if snap.Some? && snap.value.layers.Some? then snap.value.layers.value else []
  }

  /** A clip registry: no empty consumer set, and every key a valid clip. */
  ghost predicate Wellformed(t: Table<ClipId>)
  {
    NoEmpty(t) && forall id :: id in t ==> id.IsValid()
  }

  lemma AcquireWellformed(t: Table<ClipId>, id: ClipId, consumer: string)
    requires Wellformed(t) && id.IsValid()
    ensures Wellformed(Acquire(t, id, consumer).0)
  {
  }

  lemma ReleaseWellformed(t: Table<ClipId>, id: ClipId, consumer: string)
    requires Wellformed(t)
    ensures Wellformed(Release(t, id, consumer).0)
  {
  }

  /** The paths a set of registries calls for: the connect, select and name
      path of every registered clip. */
  ghost function DemandOf(connected: set<ClipId>, selected: set<ClipId>, details: set<ClipId>): set<Path>
  {
    PathsOf(connected, Connect) + PathsOf(selected, Select) + PathsOf(details, Name)
  }

  /** Registering a clip in one registry adds exactly that registry's path of the clip. */
  lemma DemandGrows(connected: set<ClipId>, selected: set<ClipId>, details: set<ClipId>, id: ClipId)
    ensures DemandOf(connected + {id}, selected, details) == DemandOf(connected, selected, details) + {ClipPath(id, Connect)}
    ensures DemandOf(connected, selected + {id}, details) == DemandOf(connected, selected, details) + {ClipPath(id, Select)}
    ensures DemandOf(connected, selected, details + {id}) == DemandOf(connected, selected, details) + {ClipPath(id, Name)}
  {
    PathsOfAdd(connected, id, Connect);
    PathsOfAdd(selected, id, Select);
    PathsOfAdd(details, id, Name);
  }

  /** Dropping a clip from one registry removes exactly that registry's path of the clip. */
  lemma DemandShrinks(connected: set<ClipId>, selected: set<ClipId>, details: set<ClipId>, id: ClipId)
    ensures DemandOf(connected - {id}, selected, details) == DemandOf(connected, selected, details) - {ClipPath(id, Connect)}
    ensures DemandOf(connected, selected - {id}, details) == DemandOf(connected, selected, details) - {ClipPath(id, Select)}
    ensures DemandOf(connected, selected, details - {id}) == DemandOf(connected, selected, details) - {ClipPath(id, Name)}
  {
    PathsOfRemove(connected, id, Connect);
    PathsOfRemove(selected, id, Select);
    PathsOfRemove(details, id, Name);
  }

  /** A non-empty set of clips has an element: the witness an iteration
      over it picks next. */
  lemma NonEmptyClips(s: set<ClipId>)
    requires s != {}
    ensures exists id :: id in s
  {
    if forall id :: id !in s {
      assert false;
    }
  }

  /** `s` lists the elements of `xs`, each once, in some order. */
  ghost predicate Lists<T>(s: seq<T>, xs: set<T>)
    decreases |s|
  {
    if s == [] then xs == {}
    else s[|s| - 1] in xs && Lists(s[..|s| - 1], xs - {s[|s| - 1]})
  }

  /** Visiting one more element extends the listing. */
  lemma ListsAdd<T>(order: seq<T>, visited: set<T>, x: T)
    requires Lists(order, visited) && x !in visited
    ensures Lists(order + [x], visited + {x})
  {
    assert (order + [x])[..|order|] == order;
    assert visited + {x} - {x} == visited;
  }

  /** A listing holds every element of the set, nothing else, and has as
      many entries as the set has elements, so no element is listed twice. */
  lemma {:induction false} ListsMembers<T>(s: seq<T>, xs: set<T>)
    requires Lists(s, xs)
    ensures |s| == |xs|
    ensures forall x :: x in s <==> x in xs
    decreases |s|
  {
    if s != [] {
      var last := s[|s| - 1];
      ListsMembers(s[..|s| - 1], xs - {last});
      assert s == s[..|s| - 1] + [last];
      assert xs == (xs - {last}) + {last};
    }
  }

  /** A walk over the registered `keys` that subscribes each clip's `kind`
      id, part way through: the `visited` clips are listed in `order`, and
      the id record and the call log have grown from `ids0` and `log0` by
      exactly their ids and calls. */
  ghost predicate Walked(snap: Option<Snapshot>, kind: ParamKind, keys: set<ClipId>, visited: set<ClipId>, order: seq<ClipId>,
                         ids0: set<int>, ids: set<int>, log0: seq<Call>, log: seq<Call>)
  {
    && visited <= keys
    && Lists(order, visited)
    && ids == ids0 + ResolvedIds(snap, visited, kind)
    && log == log0 + SubscribeCalls(snap, order, kind)
    && 0 !in ids
  }

  /** Subscribing one more registered clip's id moves the walk on by that
      clip. */
  lemma WalkStep(snap: Option<Snapshot>, kind: ParamKind, keys: set<ClipId>, visited: set<ClipId>, order: seq<ClipId>,
                 ids0: set<int>, ids: set<int>, log0: seq<Call>, log: seq<Call>, id: ClipId, ids': set<int>, log': seq<Call>)
    requires Walked(snap, kind, keys, visited, order, ids0, ids, log0, log)
    requires id in keys && id !in visited
    requires var pid := KeyParamId(snap, id, kind);
      ids' == ids + (if Live(pid) then {pid.value} else {}) && log' == log + ParamCall(pid, true)
    ensures Walked(snap, kind, keys, visited + {id}, order + [id], ids0, ids', log0, log')
  {
    SubscribeStep(log0, log, snap, order, id, kind);
    ResolvedStep(ids0, ids, ids', snap, visited, id, kind);
    ListsAdd(order, visited, id);
  }

  /** The calls `initDetailsFromComposition` makes for one registered clip:
      its name path is unsubscribed and subscribed again. */
  function RefreshCall(id: ClipId): seq<Call>
  {
    [UnsubscribePath(ClipPath(id, Name)), SubscribePath(ClipPath(id, Name))]
  }

  /** The refresh calls for the clips of `order`, in that order. */
  function RefreshCalls(order: seq<ClipId>): seq<Call>
    decreases |order|
  {
    if order == [] then [] else RefreshCalls(order[..|order| - 1]) + RefreshCall(order[|order| - 1])
  }

  /** The re-check a clip's thumbnail triggers: only a fetched thumbnail
      under the cropped-thumbnail setting re-checks the clip info feedbacks. */
  function ThumbNotice(thumb: bool, cropped: bool): seq<Notice>
  {
    if thumb && cropped then [CheckFeedbacks(["clipInfo"])] else []
  }

  /** The re-checks for the clips of `order`, in that order. */
  function ThumbNotices(order: seq<ClipId>, thumbs: ClipId -> bool, cropped: bool): seq<Notice>
    decreases |order|
  {
    if order == [] then [] else ThumbNotices(order[..|order| - 1], thumbs, cropped) + ThumbNotice(thumbs(order[|order| - 1]), cropped)
  }

  /** The calls of `initComposition`: the details refresh over `refreshed`,
      the connect and select reloads over the snapshot, then the speed ids
      `dropped` unsubscribed and those of the clips in `order` subscribed. */
  function CompositionCalls(snap: Option<Snapshot>, refreshed: seq<ClipId>, dropped: seq<int>, order: seq<ClipId>,
                            connected: set<ClipId>, selected: set<ClipId>): seq<Call>
  {
    var layers := SnapshotLayers(snap);
    RefreshCalls(refreshed)
    + GridCalls(ConnectReload, layers, |layers|, connected)
    + GridCalls(SelectReload, layers, |layers|, selected)
    + UnsubscribeParams(dropped) + SubscribeCalls(snap, order, SpeedParam)
  }

  /** The calls of one id reload: the ids `dropped` unsubscribed, then the
      `kind` ids of the clips in `order` subscribed. */
  function ParamReloadCalls(snap: Option<Snapshot>, dropped: seq<int>, order: seq<ClipId>, kind: ParamKind): seq<Call>
  {
    UnsubscribeParams(dropped) + SubscribeCalls(snap, order, kind)
  }

  /** The calls of the volume and opacity reloads of `messageUpdates`: the
      volume reload, then the opacity reload. */
  function LayerParamCalls(snap: Option<Snapshot>, volumeDropped: seq<int>, volumeOrder: seq<ClipId>,
                           opacityDropped: seq<int>, opacityOrder: seq<ClipId>): seq<Call>
  {
    ParamReloadCalls(snap, volumeDropped, volumeOrder, VolumeParam) + ParamReloadCalls(snap, opacityDropped, opacityOrder, OpacityParam)
  }

  /** The notices of `initComposition`: the thumbnail notices of the details
      walk, then `connectedClip` and `selectedClip` marked dirty and
      `clipSpeed` re-checked. */
  function CompositionNotices(refreshed: seq<ClipId>, thumbs: ClipId -> bool, cropped: bool): seq<Notice>
  {
    ThumbNotices(refreshed, thumbs, cropped) + [MarkDirty(["connectedClip"]), MarkDirty(["selectedClip"]), CheckFeedbacks(["clipSpeed"])]
  }

  /** Refreshing a subscribed path leaves it subscribed and touches nothing
      else. */
  lemma RefreshKeeps(log: seq<Call>, id: ClipId)
    requires ClipPath(id, Name) in ActivePaths(log)
    ensures ActivePaths(log + RefreshCall(id)) == ActivePaths(log)
  {
    var p := ClipPath(id, Name);
    ActivePathsSnoc(log, UnsubscribePath(p));
    ActivePathsSnoc(log + [UnsubscribePath(p)], SubscribePath(p));
    assert log + RefreshCall(id) == log + [UnsubscribePath(p)] + [SubscribePath(p)];
  }

  /** One more refreshed clip extends the logs of a refresh walk. */
  lemma RefreshStep(log0: seq<Call>, log: seq<Call>, notes0: seq<Notice>, notes: seq<Notice>,
                    order: seq<ClipId>, id: ClipId, thumbs: ClipId -> bool, cropped: bool)
    requires log == log0 + RefreshCalls(order)
    requires notes == notes0 + ThumbNotices(order, thumbs, cropped)
    ensures log + RefreshCall(id) == log0 + RefreshCalls(order + [id])
    ensures notes + ThumbNotice(thumbs(id), cropped) == notes0 + ThumbNotices(order + [id], thumbs, cropped)
  {
    assert (order + [id])[..|order|] == order;
  }

  /** A reload of the connect or select paths leaves a remote side that holds
      exactly the demanded paths as it was. */
  lemma ReloadKeepsDemand(log: seq<Call>, kind: ReloadKind, layers: seq<Layer>, connected: set<ClipId>, selected: set<ClipId>, details: set<ClipId>)
    requires ActivePaths(log) == DemandOf(connected, selected, details)
    ensures var keys := if kind == ConnectReload then connected else selected;
      ActivePaths(log + GridCalls(kind, layers, |layers|, keys)) == DemandOf(connected, selected, details)
  {
    var keys := if kind == ConnectReload then connected else selected;
    var signal := SignalOf(kind);
    var demand := DemandOf(connected, selected, details);
    var calls := GridCalls(kind, layers, |layers|, keys);
    ApplyAllAppend({}, log, calls);
    GridOutcome(demand, kind, layers, |layers|, keys);
    GridPathsMembers(layers, |layers|, signal);
    ReconcileMembers(demand, GridPaths(layers, |layers|, signal), PathsOf(keys, signal));
    forall p | p in GridPaths(layers, |layers|, signal)
      ensures p in PathsOf(keys, signal) <==> p in demand
    {
      PathsOfHas(keys, p.clip, signal);
    }
  }

  /** Unsubscribing and resubscribing numeric ids leaves the path
      subscriptions alone. */
  lemma ParamReloadKeepsPaths(log: seq<Call>, dropped: seq<int>, subscribed: seq<Call>)
    requires ParamCallsOnly(subscribed)
    ensures ActivePaths(log + UnsubscribeParams(dropped) + subscribed) == ActivePaths(log)
  {
    var a := UnsubscribeParams(dropped);
    UnsubscribeParamsOnly(dropped);
    ApplyAllAppend({}, log, a);
    ApplyAllAppend({}, log + a, subscribed);
    ParamCallsKeepPaths(ActivePaths(log), a);
    ParamCallsKeepPaths(ActivePaths(log + a), subscribed);
  }

  class ClipUtils {
    var initialLoadDone: bool
    var detailsSubs: Table<ClipId>
    var selectedSubs: Table<ClipId>
    var opacitySubs: Table<ClipId>
    var volumeSubs: Table<ClipId>
    var speedSubs: Table<ClipId>
    var connectedSubs: Table<ClipId>
    var speedIds: set<int>
    var volumeIds: set<int>
    var opacityIds: set<int>
    /** The calls made on the remote subscription channel, oldest first. */
    ghost var remote: seq<Call>
    /** The host notifications issued, oldest first. */
    ghost var notices: seq<Notice>

    /** The paths the registries call for: the connect, select and name path
        of every registered clip. */
    ghost function Demanded(): set<Path>
      reads this`connectedSubs, this`selectedSubs, this`detailsSubs
    {
      DemandOf(connectedSubs.Keys, selectedSubs.Keys, detailsSubs.Keys)
    }

    /** No empty consumer set persists, every key is a valid clip, and only
        truthy ids are recorded. */
    ghost predicate Registries()
      reads this`detailsSubs, this`selectedSubs, this`opacitySubs, this`volumeSubs, this`speedSubs, this`connectedSubs
      reads this`speedIds, this`volumeIds, this`opacityIds
    {
      && Wellformed(detailsSubs) && Wellformed(selectedSubs) && Wellformed(opacitySubs)
      && Wellformed(volumeSubs) && Wellformed(speedSubs) && Wellformed(connectedSubs)
      && 0 !in speedIds && 0 !in volumeIds && 0 !in opacityIds
    }

    /** The remote side holds exactly the paths the registries call for. */
    ghost predicate Synced()
      reads this`remote, this`connectedSubs, this`selectedSubs, this`detailsSubs
    {
      ActivePaths(remote) == Demanded()
    }

    /** The class invariant. It does not depend on the notices or on the
        initial-load flag. */
    ghost predicate Valid()
      reads this`detailsSubs, this`selectedSubs, this`opacitySubs, this`volumeSubs, this`speedSubs, this`connectedSubs
      reads this`speedIds, this`volumeIds, this`opacityIds, this`remote
    {
      Registries() && Synced()
    }

    constructor()
      ensures Valid() && !initialLoadDone
      ensures detailsSubs == selectedSubs == opacitySubs == volumeSubs == speedSubs == connectedSubs == map[]
      ensures speedIds == volumeIds == opacityIds == {}
      ensures remote == [] && notices == []
    {
      initialLoadDone := false;
      detailsSubs, selectedSubs, opacitySubs := map[], map[], map[];
      volumeSubs, speedSubs, connectedSubs := map[], map[], map[];
      speedIds, volumeIds, opacityIds := {}, {}, {};
      remote, notices := [], [];
    }

    /////////////////////////////////////////////////
    // Path subscriptions on the remote channel
    /////////////////////////////////////////////////

    method ConnectedWebsocketSubscribe(layer: int, column: int)
      modifies this`remote
      ensures remote == old(remote) + [SubscribePath(ClipPath(ClipId(layer, column), Connect))]
    {
      remote := remote + [SubscribePath(ClipPath(ClipId(layer, column), Connect))];
    }

    method ConnectedWebsocketUnsubscribe(layer: int, column: int)
      modifies this`remote
      ensures remote == old(remote) + [UnsubscribePath(ClipPath(ClipId(layer, column), Connect))]
    {
      remote := remote + [UnsubscribePath(ClipPath(ClipId(layer, column), Connect))];
    }

    method SelectedWebsocketSubscribe(layer: int, column: int)
      modifies this`remote
      ensures remote == old(remote) + [SubscribePath(ClipPath(ClipId(layer, column), Select))]
    {
      remote := remote + [SubscribePath(ClipPath(ClipId(layer, column), Select))];
    }

    method SelectedWebsocketUnsubscribe(layer: int, column: int)
      modifies this`remote
      ensures remote == old(remote) + [UnsubscribePath(ClipPath(ClipId(layer, column), Select))]
    {
      remote := remote + [UnsubscribePath(ClipPath(ClipId(layer, column), Select))];
    }

    method DetailsWebsocketSubscribe(layer: int, column: int)
      modifies this`remote
      ensures remote == old(remote) + [SubscribePath(ClipPath(ClipId(layer, column), Name))]
    {
      remote := remote + [SubscribePath(ClipPath(ClipId(layer, column), Name))];
    }

    method DetailsWebsocketUnsubscribe(layer: int, column: int)
      modifies this`remote
      ensures remote == old(remote) + [UnsubscribePath(ClipPath(ClipId(layer, column), Name))]
    {
      remote := remote + [UnsubscribePath(ClipPath(ClipId(layer, column), Name))];
    }

    /////////////////////////////////////////////////
    // Parameter-id subscriptions on the remote channel
    /////////////////////////////////////////////////

    /** Subscribes a truthy transport-position id; path subscriptions are untouched. */
    method TransportPositionWebsocketSubscribe(id: Option<int>)
      modifies this`remote
      ensures remote == old(remote) + ParamCall(id, true)
      ensures ActivePaths(remote) == ActivePaths(old(remote))
    {
      if id.Some? && id.value != 0 {
        ActivePathsSnoc(remote, SubscribeParam(id.value));
        remote := remote + [SubscribeParam(id.value)];
      }
    }

    /** Unsubscribes a truthy transport-position id; path subscriptions are untouched. */
    method TransportPositionWebsocketUnsubscribe(id: Option<int>)
      modifies this`remote
      ensures remote == old(remote) + ParamCall(id, false)
      ensures ActivePaths(remote) == ActivePaths(old(remote))
    {
      if id.Some? && id.value != 0 {
        ActivePathsSnoc(remote, UnsubscribeParam(id.value));
        remote := remote + [UnsubscribeParam(id.value)];
      }
    }

    /** Subscribes the clip's truthy speed id and records it. */
    method SpeedWebsocketSubscribe(snap: Option<Snapshot>, layer: int, column: int)
      requires LookupSafe(snap, layer)
      requires 0 !in speedIds
      modifies this`remote, this`speedIds
      ensures var id := ClipParamId(snap, layer, column, SpeedParam);
        && remote == old(remote) + ParamCall(id, true)
        && speedIds == old(speedIds) + (if Live(id) then {id.value} else {})
      ensures ActivePaths(remote) == ActivePaths(old(remote)) && 0 !in speedIds
    {
      var id := ClipParamId(snap, layer, column, SpeedParam);
      if id.Some? && id.value != 0 {
        ActivePathsSnoc(remote, SubscribeParam(id.value));
        remote := remote + [SubscribeParam(id.value)];
        speedIds := speedIds + {id.value};
      }
    }

    /** Unsubscribes a truthy speed id and forgets it. */
    method SpeedWebsocketUnsubscribe(id: Option<int>)
      modifies this`remote, this`speedIds
      ensures remote == old(remote) + ParamCall(id, false)
      ensures speedIds == old(speedIds) - (if Live(id) then {id.value} else {})
      ensures ActivePaths(remote) == ActivePaths(old(remote))
    {
      if id.Some? && id.value != 0 {
        ActivePathsSnoc(remote, UnsubscribeParam(id.value));
        remote := remote + [UnsubscribeParam(id.value)];
        speedIds := speedIds - {id.value};
      }
    }

    /** Subscribes the clip's truthy volume id and records it. */
    method VolumeWebsocketSubscribe(snap: Option<Snapshot>, layer: int, column: int)
      requires LookupSafe(snap, layer)
      requires 0 !in volumeIds
      modifies this`remote, this`volumeIds
      ensures var id := ClipParamId(snap, layer, column, VolumeParam);
        && remote == old(remote) + ParamCall(id, true)
        && volumeIds == old(volumeIds) + (if Live(id) then {id.value} else {})
      ensures ActivePaths(remote) == ActivePaths(old(remote)) && 0 !in volumeIds
    {
      var id := ClipParamId(snap, layer, column, VolumeParam);
      if id.Some? && id.value != 0 {
        ActivePathsSnoc(remote, SubscribeParam(id.value));
        volumeIds := volumeIds + {id.value};
        remote := remote + [SubscribeParam(id.value)];
      }
    }

    /** Unsubscribes a volume id; the id stays recorded. */
    method VolumeWebsocketUnsubscribe(id: int)
      modifies this`remote
      ensures remote == old(remote) + [UnsubscribeParam(id)]
      ensures ActivePaths(remote) == ActivePaths(old(remote))
    {
      ActivePathsSnoc(remote, UnsubscribeParam(id));
      remote := remote + [UnsubscribeParam(id)];
    }

    /** Subscribes the clip's truthy opacity id and records it. */
    method OpacityWebsocketSubscribe(snap: Option<Snapshot>, layer: int, column: int)
      requires LookupSafe(snap, layer)
      requires 0 !in opacityIds
      modifies this`remote, this`opacityIds
      ensures var id := ClipParamId(snap, layer, column, OpacityParam);
        && remote == old(remote) + ParamCall(id, true)
        && opacityIds == old(opacityIds) + (if Live(id) then {id.value} else {})
      ensures ActivePaths(remote) == ActivePaths(old(remote)) && 0 !in opacityIds
    {
      var id := ClipParamId(snap, layer, column, OpacityParam);
      if id.Some? && id.value != 0 {
        ActivePathsSnoc(remote, SubscribeParam(id.value));
        opacityIds := opacityIds + {id.value};
        remote := remote + [SubscribeParam(id.value)];
      }
    }

    /** Unsubscribes an opacity id; the id stays recorded. */
    method OpacityWebsocketUnsubscribe(id: int)
      modifies this`remote
      ensures remote == old(remote) + [UnsubscribeParam(id)]
      ensures ActivePaths(remote) == ActivePaths(old(remote))
    {
      ActivePathsSnoc(remote, UnsubscribeParam(id));
      remote := remote + [UnsubscribeParam(id)];
    }

    /////////////////////////////////////////////////
    // Feedback subscribe / unsubscribe
    /////////////////////////////////////////////////

    /** `clipSelectedFeedbackSubscribe`: registers the consumer, subscribing the select path when it is the clip's first; an invalid clip is ignored. */
    method SelectedSubscribe(layer: int, column: int, consumer: string)
      requires Valid()
      modifies this`selectedSubs, this`remote
      ensures Valid()
      ensures var id := ClipId(layer, column);
        var r := Acquire(old(selectedSubs), id, consumer);
        if id.IsValid() then
          selectedSubs == r.0 && remote == old(remote) + (if r.1 then [SubscribePath(ClipPath(id, Select))] else [])
        else selectedSubs == old(selectedSubs) && remote == old(remote)
    {
      var id := ClipId(layer, column);
      if id.IsValid() {
        var r := Acquire(selectedSubs, id, consumer);
        AcquireWellformed(selectedSubs, id, consumer);
        DemandGrows(connectedSubs.Keys, selectedSubs.Keys, detailsSubs.Keys, id);
        if r.1 {
          ActivePathsSnoc(remote, SubscribePath(ClipPath(id, Select)));
          SelectedWebsocketSubscribe(layer, column);
        } else {
          assert r.0.Keys == selectedSubs.Keys;
        }
        selectedSubs := r.0;
      }
    }

    /** `clipSelectedFeedbackUnsubscribe`: drops the consumer, unsubscribing the select path and dropping the key when it was the last; an invalid clip is ignored. */
    method SelectedUnsubscribe(layer: int, column: int, consumer: string)
      requires Valid()
      modifies this`selectedSubs, this`remote
      ensures Valid()
      ensures var id := ClipId(layer, column);
        var r := Release(old(selectedSubs), id, consumer);
        if id.IsValid() then
          selectedSubs == r.0 && remote == old(remote) + (if r.1 then [UnsubscribePath(ClipPath(id, Select))] else [])
        else selectedSubs == old(selectedSubs) && remote == old(remote)
    {
      var id := ClipId(layer, column);
      if id.IsValid() {
        var r := Release(selectedSubs, id, consumer);
        ReleaseWellformed(selectedSubs, id, consumer);
        if r.1 {
          DemandShrinks(connectedSubs.Keys, selectedSubs.Keys, detailsSubs.Keys, id);
          ActivePathsSnoc(remote, UnsubscribePath(ClipPath(id, Select)));
          SelectedWebsocketUnsubscribe(layer, column);
        }
        selectedSubs := r.0;
      }
    }

    /** `clipDetailsFeedbackSubscribe`: registers the consumer, subscribing the name path when it is the clip's first; an invalid clip is ignored. */
    method DetailsSubscribe(layer: int, column: int, consumer: string)
      requires Valid()
      modifies this`detailsSubs, this`remote
      ensures Valid()
      ensures var id := ClipId(layer, column);
        var r := Acquire(old(detailsSubs), id, consumer);
        if id.IsValid() then
          detailsSubs == r.0 && remote == old(remote) + (if r.1 then [SubscribePath(ClipPath(id, Name))] else [])
        else detailsSubs == old(detailsSubs) && remote == old(remote)
    {
      var id := ClipId(layer, column);
      if id.IsValid() {
        var r := Acquire(detailsSubs, id, consumer);
        AcquireWellformed(detailsSubs, id, consumer);
        DemandGrows(connectedSubs.Keys, selectedSubs.Keys, detailsSubs.Keys, id);
        if r.1 {
          ActivePathsSnoc(remote, SubscribePath(ClipPath(id, Name)));
          DetailsWebsocketSubscribe(layer, column);
        } else {
          assert r.0.Keys == detailsSubs.Keys;
        }
        detailsSubs := r.0;
      }
    }

    /** `clipDetailsFeedbackUnsubscribe`: drops the consumer, unsubscribing the name path and dropping the key when it was the last; an invalid clip is ignored. */
    method DetailsUnsubscribe(layer: int, column: int, consumer: string)
      requires Valid()
      modifies this`detailsSubs, this`remote
      ensures Valid()
      ensures var id := ClipId(layer, column);
        var r := Release(old(detailsSubs), id, consumer);
        if id.IsValid() then
          detailsSubs == r.0 && remote == old(remote) + (if r.1 then [UnsubscribePath(ClipPath(id, Name))] else [])
        else detailsSubs == old(detailsSubs) && remote == old(remote)
    {
      var id := ClipId(layer, column);
      if id.IsValid() {
        var r := Release(detailsSubs, id, consumer);
        ReleaseWellformed(detailsSubs, id, consumer);
        if r.1 {
          DemandShrinks(connectedSubs.Keys, selectedSubs.Keys, detailsSubs.Keys, id);
          ActivePathsSnoc(remote, UnsubscribePath(ClipPath(id, Name)));
          DetailsWebsocketUnsubscribe(layer, column);
        }
        detailsSubs := r.0;
      }
    }

    /** `clipConnectedFeedbackSubscribe`: registers the consumer, subscribing the connect path when it is the clip's first; an invalid clip is ignored. */
    method ConnectedSubscribe(layer: int, column: int, consumer: string)
      requires Valid()
      modifies this`connectedSubs, this`remote
      ensures Valid()
      ensures var id := ClipId(layer, column);
        var r := Acquire(old(connectedSubs), id, consumer);
        if id.IsValid() then
          connectedSubs == r.0 && remote == old(remote) + (if r.1 then [SubscribePath(ClipPath(id, Connect))] else [])
        else connectedSubs == old(connectedSubs) && remote == old(remote)
    {
      var id := ClipId(layer, column);
      if id.IsValid() {
        var r := Acquire(connectedSubs, id, consumer);
        AcquireWellformed(connectedSubs, id, consumer);
        DemandGrows(connectedSubs.Keys, selectedSubs.Keys, detailsSubs.Keys, id);
        if r.1 {
          ActivePathsSnoc(remote, SubscribePath(ClipPath(id, Connect)));
          ConnectedWebsocketSubscribe(layer, column);
        } else {
          assert r.0.Keys == connectedSubs.Keys;
        }
        connectedSubs := r.0;
      }
    }

    /** `clipConnectedFeedbackUnsubscribe`: drops the consumer, unsubscribing the connect path and dropping the key when it was the last; an invalid clip is ignored. */
    method ConnectedUnsubscribe(layer: int, column: int, consumer: string)
      requires Valid()
      modifies this`connectedSubs, this`remote
      ensures Valid()
      ensures var id := ClipId(layer, column);
        var r := Release(old(connectedSubs), id, consumer);
        if id.IsValid() then
          connectedSubs == r.0 && remote == old(remote) + (if r.1 then [UnsubscribePath(ClipPath(id, Connect))] else [])
        else connectedSubs == old(connectedSubs) && remote == old(remote)
    {
      var id := ClipId(layer, column);
      if id.IsValid() {
        var r := Release(connectedSubs, id, consumer);
        ReleaseWellformed(connectedSubs, id, consumer);
        if r.1 {
          DemandShrinks(connectedSubs.Keys, selectedSubs.Keys, detailsSubs.Keys, id);
          ActivePathsSnoc(remote, UnsubscribePath(ClipPath(id, Connect)));
          ConnectedWebsocketUnsubscribe(layer, column);
        }
        connectedSubs := r.0;
      }
    }

    /** `clipSpeedFeedbackSubscribe`: the first consumer of a clip subscribes
        its truthy speed id, which is recorded. */
    method SpeedSubscribe(snap: Option<Snapshot>, layer: int, column: int, consumer: string)
      requires Valid()
      requires ClipId(layer, column).IsValid() && ClipId(layer, column) !in speedSubs ==> LookupSafe(snap, layer)
      modifies this`speedSubs, this`speedIds, this`remote
      ensures Valid()
      ensures var id := ClipId(layer, column);
        var r := Acquire(old(speedSubs), id, consumer);
        if !id.IsValid() then speedSubs == old(speedSubs) && speedIds == old(speedIds) && remote == old(remote)
        else if r.1 then
          var pid := ClipParamId(snap, layer, column, SpeedParam);
          && speedSubs == r.0
          && remote == old(remote) + ParamCall(pid, true)
          && speedIds == old(speedIds) + (if Live(pid) then {pid.value} else {})
        else speedSubs == r.0 && speedIds == old(speedIds) && remote == old(remote)
    {
      var id := ClipId(layer, column);
      if id.IsValid() {
        var r := Acquire(speedSubs, id, consumer);
        AcquireWellformed(speedSubs, id, consumer);
        if r.1 {
          SpeedWebsocketSubscribe(snap, layer, column);
        }
        speedSubs := r.0;
      }
    }

    /** `clipSpeedFeedbackUnsubscribe`: the last consumer leaving unsubscribes
        the clip's current truthy speed id, which is forgotten. */
    method SpeedUnsubscribe(snap: Option<Snapshot>, layer: int, column: int, consumer: string)
      requires Valid()
      requires ClipId(layer, column).IsValid() && Release(speedSubs, ClipId(layer, column), consumer).1 ==> LookupSafe(snap, layer)
      modifies this`speedSubs, this`speedIds, this`remote
      ensures Valid()
      ensures var id := ClipId(layer, column);
        var r := Release(old(speedSubs), id, consumer);
        if !id.IsValid() then speedSubs == old(speedSubs) && speedIds == old(speedIds) && remote == old(remote)
        else if r.1 then
          var pid := ClipParamId(snap, layer, column, SpeedParam);
          && speedSubs == r.0
          && remote == old(remote) + ParamCall(pid, false)
          && speedIds == old(speedIds) - (if Live(pid) then {pid.value} else {})
        else speedSubs == r.0 && speedIds == old(speedIds) && remote == old(remote)
    {
      var id := ClipId(layer, column);
      if id.IsValid() {
        var r := Release(speedSubs, id, consumer);
        ReleaseWellformed(speedSubs, id, consumer);
        if r.1 {
          SpeedWebsocketUnsubscribe(ClipParamId(snap, layer, column, SpeedParam));
        }
        speedSubs := r.0;
      }
    }

    /** `clipVolumeFeedbackSubscribe`: only the registry changes. */
    method VolumeSubscribe(layer: int, column: int, consumer: string)
      requires Valid()
      modifies this`volumeSubs
      ensures Valid()
      ensures var id := ClipId(layer, column);
        volumeSubs == if id.IsValid() then Acquire(old(volumeSubs), id, consumer).0 else old(volumeSubs)
    {
      var id := ClipId(layer, column);
      if id.IsValid() {
        AcquireWellformed(volumeSubs, id, consumer);
        volumeSubs := Acquire(volumeSubs, id, consumer).0;
      }
    }

    /** `clipVolumeFeedbackUnsubscribe`: only the registry changes. */
    method VolumeUnsubscribe(layer: int, column: int, consumer: string)
      requires Valid()
      modifies this`volumeSubs
      ensures Valid()
      ensures var id := ClipId(layer, column);
        volumeSubs == if id.IsValid() then Release(old(volumeSubs), id, consumer).0 else old(volumeSubs)
    {
      var id := ClipId(layer, column);
      if id.IsValid() {
        ReleaseWellformed(volumeSubs, id, consumer);
        volumeSubs := Release(volumeSubs, id, consumer).0;
      }
    }

    /** `clipOpacityFeedbackSubscribe`: only the registry changes. */
    method OpacitySubscribe(layer: int, column: int, consumer: string)
      requires Valid()
      modifies this`opacitySubs
      ensures Valid()
      ensures var id := ClipId(layer, column);
        opacitySubs == if id.IsValid() then Acquire(old(opacitySubs), id, consumer).0 else old(opacitySubs)
    {
      var id := ClipId(layer, column);
      if id.IsValid() {
        AcquireWellformed(opacitySubs, id, consumer);
        opacitySubs := Acquire(opacitySubs, id, consumer).0;
      }
    }

    /** `clipOpacityFeedbackUnsubscribe`: only the registry changes. */
    method OpacityUnsubscribe(layer: int, column: int, consumer: string)
      requires Valid()
      modifies this`opacitySubs
      ensures Valid()
      ensures var id := ClipId(layer, column);
        opacitySubs == if id.IsValid() then Release(old(opacitySubs), id, consumer).0 else old(opacitySubs)
    {
      var id := ClipId(layer, column);
      if id.IsValid() {
        ReleaseWellformed(opacitySubs, id, consumer);
        opacitySubs := Release(opacitySubs, id, consumer).0;
      }
    }

    /////////////////////////////////////////////////
    // Reloads on a new composition snapshot
    /////////////////////////////////////////////////

    /** The body of the inner loop of `initConnectedFromComposition` and of
        `initSelectedFromComposition` for one clip. */
    method ReloadClip(kind: ReloadKind, id: ClipId, clip: Clip, registered: bool)
      modifies this`remote
      ensures remote == old(remote) + ClipCalls(kind, id, clip, registered)
    {
      match kind
      case ConnectReload =>
        ConnectedWebsocketUnsubscribe(id.layer, id.column);
        TransportPositionWebsocketUnsubscribe(clip.positionId);
        if registered {
          ConnectedWebsocketSubscribe(id.layer, id.column);
        }
        TransportPositionWebsocketSubscribe(clip.positionId);
      case SelectReload =>
        if registered {
          SelectedWebsocketSubscribe(id.layer, id.column);
        } else {
          SelectedWebsocketUnsubscribe(id.layer, id.column);
        }
    }

    /** The inner loop of either reload: the clips of the 1-based `layer`,
        in column order, looked up in `registry` (the connected or the
        selected one). */
    method ReloadRow(kind: ReloadKind, layer: int, clips: seq<Clip>, registry: Table<ClipId>)
      modifies this`remote
      ensures remote == old(remote) + RowCalls(kind, layer, clips, |clips|, registry.Keys)
    {
      ghost var keys := registry.Keys;
      var c: nat := 0;
      while c < |clips|
        invariant c <= |clips|
        invariant remote == old(remote) + RowCalls(kind, layer, clips, c, keys)
      {
        ghost var prev := remote;
        var id := ClipId(layer, c + 1);
        ReloadClip(kind, id, clips[c], id in registry);
        RowStep(old(remote), prev, kind, layer, clips, c, keys);
        c := c + 1;
      }
    }

    /** One layer of either reload: a layer without clips gets no calls. */
    method ReloadLayer(kind: ReloadKind, layer: int, clips: Option<seq<Clip>>, registry: Table<ClipId>)
      modifies this`remote
      ensures remote == old(remote) + LayerCalls(kind, layer, clips, registry.Keys)
    {
      if clips.Some? {
        ReloadRow(kind, layer, clips.value, registry);
      }
    }

    /** The outer loop of either reload: the layers of the snapshot in
        order. */
    method ReloadGrid(kind: ReloadKind, layers: seq<Layer>, registry: Table<ClipId>)
      modifies this`remote
      ensures remote == old(remote) + GridCalls(kind, layers, |layers|, registry.Keys)
    {
      ghost var keys := registry.Keys;
      var l: nat := 0;
      while l < |layers|
        invariant l <= |layers|
        invariant remote == old(remote) + GridCalls(kind, layers, l, keys)
      {
        ghost var prev := remote;
        ReloadLayer(kind, l + 1, layers[l].clips, registry);
        GridStep(old(remote), prev, kind, layers, l, keys);
        l := l + 1;
      }
    }

    /** `initConnectedFromComposition`: for every clip of the snapshot, the
        connect path is unsubscribed and subscribed again only when the clip
        is registered, with its transport position id unsubscribed and
        subscribed around it; the remote side ends holding exactly the
        demanded paths again. */
    method InitConnectedFromComposition(snap: Option<Snapshot>)
      requires Valid()
      modifies this`remote, this`notices
      ensures Valid()
      ensures remote == old(remote) + GridCalls(ConnectReload, SnapshotLayers(snap), |SnapshotLayers(snap)|, connectedSubs.Keys)
      ensures notices == old(notices) + [MarkDirty(["connectedClip"])]
    {
      var layers := SnapshotLayers(snap);
      ReloadGrid(ConnectReload, layers, connectedSubs);
      ReloadKeepsDemand(old(remote), ConnectReload, layers, connectedSubs.Keys, selectedSubs.Keys, detailsSubs.Keys);
      notices := notices + [MarkDirty(["connectedClip"])];
    }

    /** `initSelectedFromComposition`: for every clip of the snapshot, the
        select path is subscribed when the clip is registered and
        unsubscribed otherwise. */
    method InitSelectedFromComposition(snap: Option<Snapshot>)
      requires Valid()
      modifies this`remote, this`notices
      ensures Valid()
      ensures remote == old(remote) + GridCalls(SelectReload, SnapshotLayers(snap), |SnapshotLayers(snap)|, selectedSubs.Keys)
      ensures notices == old(notices) + [MarkDirty(["selectedClip"])]
    {
      var layers := SnapshotLayers(snap);
      ReloadGrid(SelectReload, layers, selectedSubs);
      ReloadKeepsDemand(old(remote), SelectReload, layers, connectedSubs.Keys, selectedSubs.Keys, detailsSubs.Keys);
      notices := notices + [MarkDirty(["selectedClip"])];
    }

    /////////////////////////////////////////////////
    // Parameter-id reloads
    /////////////////////////////////////////////////

    /** The first loop of `initSpeedFromComposition`: every recorded speed
        id is unsubscribed and forgotten, in some order. */
    method DropSpeedIds() returns (ghost dropped: seq<int>)
      requires 0 !in speedIds
      modifies this`remote, this`speedIds
      ensures speedIds == {}
      ensures Lists(dropped, old(speedIds))
      ensures remote == old(remote) + UnsubscribeParams(dropped)
    {
      var rest := speedIds;
      ghost var done: set<int> := {};
      dropped := [];
      while rest != {}
        invariant speedIds == rest
        invariant done !! rest && done + rest == old(speedIds)
        invariant Lists(dropped, done)
        invariant remote == old(remote) + UnsubscribeParams(dropped)
        decreases |rest|
      {
        NonEmptyInts(rest);
        var x :| x in rest;
        ghost var prev := remote;
        SpeedWebsocketUnsubscribe(Some(x));
        UnsubscribeStep(old(remote), prev, dropped, x);
        ListsAdd(dropped, done, x);
        done := done + {x};
        dropped := dropped + [x];
        rest := rest - {x};
      }
    }

    /** The first loop of `updateLayerVolumes`: every recorded volume id is
        unsubscribed, in some order, and stays recorded. */
    method UnsubscribeVolumeIds() returns (ghost dropped: seq<int>)
      modifies this`remote
      ensures Lists(dropped, volumeIds)
      ensures remote == old(remote) + UnsubscribeParams(dropped)
    {
      var rest := volumeIds;
      ghost var done: set<int> := {};
      dropped := [];
      while rest != {}

        invariant done !! rest && done + rest == volumeIds
        invariant Lists(dropped, done)
        invariant remote == old(remote) + UnsubscribeParams(dropped)
        decreases |rest|
      {
        NonEmptyInts(rest);
        var x :| x in rest;
        ghost var prev := remote;
        VolumeWebsocketUnsubscribe(x);
        UnsubscribeStep(old(remote), prev, dropped, x);
        ListsAdd(dropped, done, x);
        done := done + {x};
        dropped := dropped + [x];
        rest := rest - {x};
      }
    }

    /** The first loop of `updateLayerOpacities`: every recorded opacity id
        is unsubscribed, in some order, and stays recorded. */
    method UnsubscribeOpacityIds() returns (ghost dropped: seq<int>)
      modifies this`remote
      ensures Lists(dropped, opacityIds)
      ensures remote == old(remote) + UnsubscribeParams(dropped)
    {
      var rest := opacityIds;
      ghost var done: set<int> := {};
      dropped := [];
      while rest != {}

        invariant done !! rest && done + rest == opacityIds
        invariant Lists(dropped, done)
        invariant remote == old(remote) + UnsubscribeParams(dropped)
        decreases |rest|
      {
        NonEmptyInts(rest);
        var x :| x in rest;
        ghost var prev := remote;
        OpacityWebsocketUnsubscribe(x);
        UnsubscribeStep(old(remote), prev, dropped, x);
        ListsAdd(dropped, done, x);
        done := done + {x};
        dropped := dropped + [x];
        rest := rest - {x};
      }
    }

    /** The second loop of `initSpeedFromComposition`: the speed id of every
        registered clip is subscribed and recorded, in some order. */
    method ResubscribeSpeed(snap: Option<Snapshot>) returns (ghost order: seq<ClipId>)
      requires Resolvable(snap, speedSubs.Keys)
      requires 0 !in speedIds
      modifies this`remote, this`speedIds
      ensures Lists(order, speedSubs.Keys)
      ensures speedIds == old(speedIds) + ResolvedIds(snap, speedSubs.Keys, SpeedParam)
      ensures remote == old(remote) + SubscribeCalls(snap, order, SpeedParam)
      ensures 0 !in speedIds
    {
      var keys := speedSubs.Keys;
      var rest := keys;
      ghost var visited: set<ClipId> := {};
      order := [];
      while rest != {}
        invariant rest == keys - visited
        invariant Walked(snap, SpeedParam, keys, visited, order, old(speedIds), speedIds, old(remote), remote)
        decreases rest
      {
        NonEmptyClips(rest);
        var id :| id in rest;
        ghost var prev, prevIds := remote, speedIds;
        SpeedWebsocketSubscribe(snap, id.layer, id.column);
        WalkStep(snap, SpeedParam, keys, visited, order, old(speedIds), prevIds, old(remote), prev, id, speedIds, remote);
        order, visited := order + [id], visited + {id};
        rest := rest - {id};
      }
      assert visited == keys;
    }

    /** The second loop of `updateLayerVolumes`: the volume id of every
        registered clip is subscribed and recorded, in some order. */
    method ResubscribeVolume(snap: Option<Snapshot>) returns (ghost order: seq<ClipId>)
      requires Resolvable(snap, volumeSubs.Keys)
      requires 0 !in volumeIds
      modifies this`remote, this`volumeIds
      ensures Lists(order, volumeSubs.Keys)
      ensures volumeIds == old(volumeIds) + ResolvedIds(snap, volumeSubs.Keys, VolumeParam)
      ensures remote == old(remote) + SubscribeCalls(snap, order, VolumeParam)
      ensures 0 !in volumeIds
    {
      var keys := volumeSubs.Keys;
      var rest := keys;
      ghost var visited: set<ClipId> := {};
      order := [];
      while rest != {}
        invariant rest == keys - visited
        invariant Walked(snap, VolumeParam, keys, visited, order, old(volumeIds), volumeIds, old(remote), remote)
        decreases rest
      {
        NonEmptyClips(rest);
        var id :| id in rest;
        ghost var prev, prevIds := remote, volumeIds;
        VolumeWebsocketSubscribe(snap, id.layer, id.column);
        WalkStep(snap, VolumeParam, keys, visited, order, old(volumeIds), prevIds, old(remote), prev, id, volumeIds, remote);
        order, visited := order + [id], visited + {id};
        rest := rest - {id};
      }
      assert visited == keys;
    }

    /** The second loop of `updateLayerOpacities`: the opacity id of every
        registered clip is subscribed and recorded, in some order. */
    method ResubscribeOpacity(snap: Option<Snapshot>) returns (ghost order: seq<ClipId>)
      requires Resolvable(snap, opacitySubs.Keys)
      requires 0 !in opacityIds
      modifies this`remote, this`opacityIds
      ensures Lists(order, opacitySubs.Keys)
      ensures opacityIds == old(opacityIds) + ResolvedIds(snap, opacitySubs.Keys, OpacityParam)
      ensures remote == old(remote) + SubscribeCalls(snap, order, OpacityParam)
      ensures 0 !in opacityIds
    {
      var keys := opacitySubs.Keys;
      var rest := keys;
      ghost var visited: set<ClipId> := {};
      order := [];
      while rest != {}
        invariant rest == keys - visited
        invariant Walked(snap, OpacityParam, keys, visited, order, old(opacityIds), opacityIds, old(remote), remote)
        decreases rest
      {
        NonEmptyClips(rest);
        var id :| id in rest;
        ghost var prev, prevIds := remote, opacityIds;
        OpacityWebsocketSubscribe(snap, id.layer, id.column);
        WalkStep(snap, OpacityParam, keys, visited, order, old(opacityIds), prevIds, old(remote), prev, id, opacityIds, remote);
        order, visited := order + [id], visited + {id};
        rest := rest - {id};
      }
      assert visited == keys;
    }

    /** `initSpeedFromComposition`: every recorded speed id is unsubscribed
        and forgotten, then the speed id of every registered clip is
        subscribed; afterwards exactly the registered clips' truthy speed ids
        are recorded, and the path subscriptions are as they were. */
    method InitSpeedFromComposition(snap: Option<Snapshot>) returns (ghost dropped: seq<int>, ghost order: seq<ClipId>)
      requires Valid()
      requires Resolvable(snap, speedSubs.Keys)
      modifies this`remote, this`speedIds, this`notices
      ensures Valid()
      ensures speedIds == ResolvedIds(snap, speedSubs.Keys, SpeedParam)
      ensures Lists(dropped, old(speedIds)) && Lists(order, speedSubs.Keys)
      ensures remote == old(remote) + UnsubscribeParams(dropped) + SubscribeCalls(snap, order, SpeedParam)
      ensures notices == old(notices) + [CheckFeedbacks(["clipSpeed"])]
    {
      dropped := DropSpeedIds();
      order := ResubscribeSpeed(snap);
      SubscribeCallsOnly(snap, order, SpeedParam);
      ParamReloadKeepsPaths(old(remote), dropped, SubscribeCalls(snap, order, SpeedParam));
      notices := notices + [CheckFeedbacks(["clipSpeed"])];
    }

    /** The volume ids a reload dropped list the ids `ids0` recorded
        before it, and the clips it walked list the registered clips. */
    ghost predicate VolumeOrders(dropped: seq<int>, order: seq<ClipId>, ids0: set<int>)
      reads this`volumeSubs
    {
      Lists(dropped, ids0) && Lists(order, volumeSubs.Keys)
    }

    /** The same for an opacity reload. */
    ghost predicate OpacityOrders(dropped: seq<int>, order: seq<ClipId>, ids0: set<int>)
      reads this`opacitySubs
    {
      Lists(dropped, ids0) && Lists(order, opacitySubs.Keys)
    }

    /** The same for a volume reload followed by an opacity reload. */
    ghost predicate ParamOrders(volumeDropped: seq<int>, volumeOrder: seq<ClipId>, opacityDropped: seq<int>, opacityOrder: seq<ClipId>,
                                volumeIds0: set<int>, opacityIds0: set<int>)
      reads this`volumeSubs, this`opacitySubs
    {
      VolumeOrders(volumeDropped, volumeOrder, volumeIds0) && OpacityOrders(opacityDropped, opacityOrder, opacityIds0)
    }

    /** `updateLayerVolumes`: every recorded volume id is unsubscribed, then
        the volume id of every registered clip is subscribed and recorded;
        the path subscriptions are as they were. */
    method UpdateLayerVolumes(snap: Option<Snapshot>) returns (ghost dropped: seq<int>, ghost order: seq<ClipId>)
      requires Valid()
      requires Resolvable(snap, volumeSubs.Keys)
      modifies this`remote, this`volumeIds, this`notices
      ensures Valid()
      ensures volumeIds == old(volumeIds) + ResolvedIds(snap, volumeSubs.Keys, VolumeParam)
      ensures VolumeOrders(dropped, order, old(volumeIds))
      ensures remote == old(remote) + ParamReloadCalls(snap, dropped, order, VolumeParam)
      ensures notices == old(notices) + [MarkDirty(["clipVolume"])]
    {
      dropped := UnsubscribeVolumeIds();
      order := ResubscribeVolume(snap);
      SubscribeCallsOnly(snap, order, VolumeParam);
      ParamReloadKeepsPaths(old(remote), dropped, SubscribeCalls(snap, order, VolumeParam));
      LogAppend(old(remote), UnsubscribeParams(dropped), SubscribeCalls(snap, order, VolumeParam));
      notices := notices + [MarkDirty(["clipVolume"])];
    }

    /** `updateLayerOpacities`: every recorded opacity id is unsubscribed,
        then the opacity id of every registered clip is subscribed and
        recorded; the path subscriptions are as they were. */
    method UpdateLayerOpacities(snap: Option<Snapshot>) returns (ghost dropped: seq<int>, ghost order: seq<ClipId>)
      requires Valid()
      requires Resolvable(snap, opacitySubs.Keys)
      modifies this`remote, this`opacityIds, this`notices
      ensures Valid()
      ensures opacityIds == old(opacityIds) + ResolvedIds(snap, opacitySubs.Keys, OpacityParam)
      ensures OpacityOrders(dropped, order, old(opacityIds))
      ensures remote == old(remote) + ParamReloadCalls(snap, dropped, order, OpacityParam)
      ensures notices == old(notices) + [MarkDirty(["clipOpacity"])]
    {
      dropped := UnsubscribeOpacityIds();
      order := ResubscribeOpacity(snap);
      SubscribeCallsOnly(snap, order, OpacityParam);
      ParamReloadKeepsPaths(old(remote), dropped, SubscribeCalls(snap, order, OpacityParam));
      LogAppend(old(remote), UnsubscribeParams(dropped), SubscribeCalls(snap, order, OpacityParam));
      notices := notices + [MarkDirty(["clipOpacity"])];
    }

    /** The work `initDetailsFromComposition` does for one registered clip:
        its name path is refreshed, and a fetched thumbnail under the
        cropped-thumbnail setting re-checks the clip info feedbacks. */
    method RefreshDetails(id: ClipId, thumb: bool, cropped: bool)
      requires ClipPath(id, Name) in ActivePaths(remote)
      modifies this`remote, this`notices
      ensures remote == old(remote) + RefreshCall(id)
      ensures ActivePaths(remote) == ActivePaths(old(remote))
      ensures notices == old(notices) + ThumbNotice(thumb, cropped)
    {
      RefreshKeeps(remote, id);
      DetailsWebsocketUnsubscribe(id.layer, id.column);
      DetailsWebsocketSubscribe(id.layer, id.column);
      if thumb && cropped {
        notices := notices + [CheckFeedbacks(["clipInfo"])];
      }
    }

    /** The walk of `initDetailsFromComposition` over the registered `keys`:
        the name path of each clip is refreshed, in some order, until a clip
        has no thumbnail (`thumbs` answers the thumbnail fetch); the walk
        stops after that clip. The path subscriptions are as they were. */
    method RefreshWalk(keys: set<ClipId>, thumbs: ClipId -> bool, cropped: bool) returns (ghost order: seq<ClipId>, ghost visited: set<ClipId>)
      requires PathsOf(keys, Name) <= ActivePaths(remote)
      modifies this`remote, this`notices
      ensures ActivePaths(remote) == ActivePaths(old(remote))
      ensures visited <= keys && Lists(order, visited)
      ensures forall i :: 0 <= i < |order| - 1 ==> thumbs(order[i])
      ensures || (visited == keys && forall i :: 0 <= i < |order| ==> thumbs(order[i]))
              || (order != [] && !thumbs(order[|order| - 1]))
      ensures remote == old(remote) + RefreshCalls(order)
      ensures notices == old(notices) + ThumbNotices(order, thumbs, cropped)
    {
      var rest := keys;
      ghost var active := ActivePaths(remote);
      order, visited := [], {};
      while rest != {}
        invariant rest == keys - visited
        invariant visited <= keys && Lists(order, visited)
        invariant forall i :: 0 <= i < |order| ==> thumbs(order[i])
        invariant remote == old(remote) + RefreshCalls(order)
        invariant notices == old(notices) + ThumbNotices(order, thumbs, cropped)
        invariant ActivePaths(remote) == active
        decreases rest
      {
        NonEmptyClips(rest);
        var id :| id in rest;
        var thumb := thumbs(id);
        ghost var prev, prevNotes := remote, notices;
        PathsOfHas(keys, id, Name);
        RefreshDetails(id, thumb, cropped);
        RefreshStep(old(remote), prev, old(notices), prevNotes, order, id, thumbs, cropped);
        ListsAdd(order, visited, id);
        order, visited := order + [id], visited + {id};
        rest := rest - {id};
        if !thumb {
          return;
        }
      }
      assert visited == keys;
    }

    /** `initDetailsFromComposition`: the refresh walk over the clips
        registered for details, which keeps the subscriptions in line with
        the registries. */
    method InitDetailsFromComposition(thumbs: ClipId -> bool, cropped: bool) returns (ghost order: seq<ClipId>, ghost visited: set<ClipId>)
      requires Valid()
      modifies this`remote, this`notices
      ensures Valid()
      ensures visited <= detailsSubs.Keys && Lists(order, visited)
      ensures forall i :: 0 <= i < |order| - 1 ==> thumbs(order[i])
      ensures || (visited == detailsSubs.Keys && forall i :: 0 <= i < |order| ==> thumbs(order[i]))
              || (order != [] && !thumbs(order[|order| - 1]))
      ensures remote == old(remote) + RefreshCalls(order)
      ensures notices == old(notices) + ThumbNotices(order, thumbs, cropped)
    {
      order, visited := RefreshWalk(detailsSubs.Keys, thumbs, cropped);
    }

    /////////////////////////////////////////////////
    // Composition reloads and incoming updates
    /////////////////////////////////////////////////

    /** The first three reloads of `initComposition`: the details walk, then
        the connect and select reloads over the snapshot. */
    method ReloadClipPaths(snap: Option<Snapshot>, thumbs: ClipId -> bool, cropped: bool)
      returns (ghost refreshed: seq<ClipId>)
      requires Valid()
      modifies this`remote, this`notices
      ensures Valid()
      ensures var layers := SnapshotLayers(snap);
        remote == old(remote) + (RefreshCalls(refreshed)
                                 + GridCalls(ConnectReload, layers, |layers|, connectedSubs.Keys)
                                 + GridCalls(SelectReload, layers, |layers|, selectedSubs.Keys))
      ensures notices == old(notices) + (ThumbNotices(refreshed, thumbs, cropped) + [MarkDirty(["connectedClip"]), MarkDirty(["selectedClip"])])
    {
      ghost var visited;
      refreshed, visited := InitDetailsFromComposition(thumbs, cropped);
      InitConnectedFromComposition(snap);
      InitSelectedFromComposition(snap);
      ghost var layers := SnapshotLayers(snap);
      LogAppend(old(remote), RefreshCalls(refreshed), GridCalls(ConnectReload, layers, |layers|, connectedSubs.Keys));
      LogAppend(old(remote), RefreshCalls(refreshed) + GridCalls(ConnectReload, layers, |layers|, connectedSubs.Keys),
                GridCalls(SelectReload, layers, |layers|, selectedSubs.Keys));
    }

    /** `initComposition`: the details, connect, select and speed reloads in
        turn. The subscriptions stay in line with the registries, and
        exactly the registered clips' truthy speed ids are recorded. */
    method InitComposition(snap: Option<Snapshot>, thumbs: ClipId -> bool, cropped: bool)
      returns (ghost refreshed: seq<ClipId>, ghost dropped: seq<int>, ghost order: seq<ClipId>)
      requires Valid()
      requires Resolvable(snap, speedSubs.Keys)
      modifies this`remote, this`speedIds, this`notices
      ensures Valid()
      ensures speedIds == ResolvedIds(snap, speedSubs.Keys, SpeedParam)
      ensures remote == old(remote) + CompositionCalls(snap, refreshed, dropped, order, connectedSubs.Keys, selectedSubs.Keys)
      ensures notices == old(notices) + CompositionNotices(refreshed, thumbs, cropped)
    {
      refreshed := ReloadClipPaths(snap, thumbs, cropped);
      dropped, order := InitSpeedFromComposition(snap);
      ghost var layers := SnapshotLayers(snap);
      ghost var paths := RefreshCalls(refreshed) + GridCalls(ConnectReload, layers, |layers|, connectedSubs.Keys)
                         + GridCalls(SelectReload, layers, |layers|, selectedSubs.Keys);
      ghost var d, e := UnsubscribeParams(dropped), SubscribeCalls(snap, order, SpeedParam);
      LogAppend(old(remote), paths, d);
      LogAppend(old(remote), paths + d, e);
    }

    /** The first step of `messageUpdates`: the first update that finds a
        composition, and every composition update that does, reloads the
        composition as `initComposition` does; otherwise nothing happens. */
    method ReloadOnUpdate(isComposition: bool, snap: Option<Snapshot>, thumbs: ClipId -> bool, cropped: bool)
      returns (ghost refreshed: seq<ClipId>, ghost dropped: seq<int>, ghost order: seq<ClipId>)
      requires Valid()
      requires (isComposition || !initialLoadDone) && snap.Some? ==> Resolvable(snap, speedSubs.Keys)
      modifies this`initialLoadDone, this`remote, this`speedIds, this`notices
      ensures Valid()
      ensures initialLoadDone == (old(initialLoadDone) || snap.Some?)
      ensures var reload := (isComposition || !old(initialLoadDone)) && snap.Some?;
        && speedIds == (if reload then ResolvedIds(snap, speedSubs.Keys, SpeedParam) else old(speedIds))
        && remote == old(remote) + (if reload then CompositionCalls(snap, refreshed, dropped, order, connectedSubs.Keys, selectedSubs.Keys) else [])
        && notices == old(notices) + (if reload then CompositionNotices(refreshed, thumbs, cropped) else [])
    {
      refreshed, dropped, order := [], [], [];
      if isComposition || !initialLoadDone {
        if snap.Some? {
          initialLoadDone := true;
          refreshed, dropped, order := InitComposition(snap, thumbs, cropped);
          return;
        }
      }
      AppendNothing(old(remote));
    }

    /** The second step of `messageUpdates` on a composition update: the
        volume ids, then the opacity ids, are reloaded. */
    method ReloadLayerParams(snap: Option<Snapshot>)
      returns (ghost volumeDropped: seq<int>, ghost volumeOrder: seq<ClipId>,
               ghost opacityDropped: seq<int>, ghost opacityOrder: seq<ClipId>)
      requires Valid()
      requires Resolvable(snap, volumeSubs.Keys) && Resolvable(snap, opacitySubs.Keys)
      modifies this`remote, this`volumeIds, this`opacityIds, this`notices
      ensures Valid()
      ensures volumeIds == old(volumeIds) + ResolvedIds(snap, volumeSubs.Keys, VolumeParam)
      ensures opacityIds == old(opacityIds) + ResolvedIds(snap, opacitySubs.Keys, OpacityParam)
      ensures ParamOrders(volumeDropped, volumeOrder, opacityDropped, opacityOrder, old(volumeIds), old(opacityIds))
      ensures remote == old(remote) + LayerParamCalls(snap, volumeDropped, volumeOrder, opacityDropped, opacityOrder)
      ensures notices == old(notices) + [MarkDirty(["clipVolume"]), MarkDirty(["clipOpacity"])]
    {
      volumeDropped, volumeOrder := UpdateLayerVolumes(snap);
      opacityDropped, opacityOrder := UpdateLayerOpacities(snap);
      LogAppend(old(remote), ParamReloadCalls(snap, volumeDropped, volumeOrder, VolumeParam),
                ParamReloadCalls(snap, opacityDropped, opacityOrder, OpacityParam));
    }

    /** The last step of `messageUpdates`: the notifications of the update
        itself. Only the notice log changes. */
    method Dispatch(update: Update)
      requires Valid()
      modifies this`notices
      ensures Valid()
      ensures notices == old(notices) + DispatchNotices(update, connectedSubs.Keys, selectedSubs.Keys)
    {
      notices := notices + DispatchNotices(update, connectedSubs.Keys, selectedSubs.Keys);
    }

    /** `messageUpdates`: the composition reload, then, on a composition
        update, the volume and opacity reloads, then the notifications of
        the update itself. The subscriptions stay in line with the
        registries throughout. */
    method MessageUpdates(update: Update, isComposition: bool, snap: Option<Snapshot>, thumbs: ClipId -> bool, cropped: bool)
      returns (ghost refreshed: seq<ClipId>, ghost dropped: seq<int>, ghost order: seq<ClipId>,
               ghost volumeDropped: seq<int>, ghost volumeOrder: seq<ClipId>,
               ghost opacityDropped: seq<int>, ghost opacityOrder: seq<ClipId>)
      requires Valid()
      requires (isComposition || !initialLoadDone) && snap.Some? ==> Resolvable(snap, speedSubs.Keys)
      requires isComposition ==> Resolvable(snap, volumeSubs.Keys) && Resolvable(snap, opacitySubs.Keys)
      modifies this`initialLoadDone, this`remote, this`speedIds, this`volumeIds, this`opacityIds, this`notices
      ensures Valid()
      ensures initialLoadDone == (old(initialLoadDone) || snap.Some?)
      ensures var reload := (isComposition || !old(initialLoadDone)) && snap.Some?;
        && speedIds == (if reload then ResolvedIds(snap, speedSubs.Keys, SpeedParam) else old(speedIds))
        && notices == old(notices) + (if reload then CompositionNotices(refreshed, thumbs, cropped) else [])
                      + (if isComposition then [MarkDirty(["clipVolume"]), MarkDirty(["clipOpacity"])] else [])
                      + DispatchNotices(update, connectedSubs.Keys, selectedSubs.Keys)
      ensures remote == old(remote)
                        + (if (isComposition || !old(initialLoadDone)) && snap.Some?
                           then CompositionCalls(snap, refreshed, dropped, order, connectedSubs.Keys, selectedSubs.Keys) else [])
                        + (if isComposition then LayerParamCalls(snap, volumeDropped, volumeOrder, opacityDropped, opacityOrder) else [])
      ensures volumeIds == if isComposition then old(volumeIds) + ResolvedIds(snap, volumeSubs.Keys, VolumeParam) else old(volumeIds)
      ensures opacityIds == if isComposition then old(opacityIds) + ResolvedIds(snap, opacitySubs.Keys, OpacityParam) else old(opacityIds)
      ensures isComposition ==> ParamOrders(volumeDropped, volumeOrder, opacityDropped, opacityOrder, old(volumeIds), old(opacityIds))
    {
      refreshed, dropped, order := ReloadOnUpdate(isComposition, snap, thumbs, cropped);
      volumeDropped, volumeOrder, opacityDropped, opacityOrder := [], [], [], [];
      if isComposition {
        volumeDropped, volumeOrder, opacityDropped, opacityOrder := ReloadLayerParams(snap);
      } else {
        AppendNothing(notices);
        AppendNothing(remote);
      }
      Dispatch(update);
    }
  }
}
