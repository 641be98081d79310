/**
 * The column engine (`ColumnUtils`): three reference-counted registries
 * keyed by column number (name, selected, connected), the selected,
 * connected and last column it tracks, the reload sweep run when a
 * composition snapshot arrives and the name callbacks. Remote calls and
 * host notifications are appended to logs; the snapshot and the parameter
 * cache are parameters.
 */
module Columns {
  import opened Wrappers
  import opened Paths
  import opened Remote
  import opened Host
  import opened Composition
  import opened Registry
  import opened Navigation
  import opened Results
  import opened Sweep

  /** The paths of column `c` in the order the reload unsubscribes them. */
  function ColumnPathsAt(c: int): seq<Path>
  {
    [ColumnPath(c, ColumnSelect), ColumnPath(c, ColumnConnect), ColumnPath(c, ColumnName)]
  }

  /** The `signal` paths of the columns named by `keys`. */
  function ColumnPathsOf(keys: set<int>, signal: ColumnSignal): set<Path>
  {
    set c | c in keys :: ColumnPath(c, signal)
  }

  /** The paths the registries call for: the select, connect and name path
      of every registered column. */
  function DemandOf(selected: set<int>, connected: set<int>, named: set<int>): set<Path>
  {
    ColumnPathsOf(selected, ColumnSelect) + ColumnPathsOf(connected, ColumnConnect) + ColumnPathsOf(named, ColumnName)
  }

  /** Each path of a column is demanded exactly when the column is in that path's registry. */
  lemma DemandHas(selected: set<int>, connected: set<int>, named: set<int>, c: int)
    ensures ColumnPath(c, ColumnSelect) in DemandOf(selected, connected, named) <==> c in selected
    ensures ColumnPath(c, ColumnConnect) in DemandOf(selected, connected, named) <==> c in connected
    ensures ColumnPath(c, ColumnName) in DemandOf(selected, connected, named) <==> c in named
  {
  }

  /** Registering a column in one registry adds exactly that registry's path of the column. */
  lemma DemandGrows(selected: set<int>, connected: set<int>, named: set<int>, c: int)
    ensures DemandOf(selected + {c}, connected, named) == DemandOf(selected, connected, named) + {ColumnPath(c, ColumnSelect)}
    ensures DemandOf(selected, connected + {c}, named) == DemandOf(selected, connected, named) + {ColumnPath(c, ColumnConnect)}
    ensures DemandOf(selected, connected, named + {c}) == DemandOf(selected, connected, named) + {ColumnPath(c, ColumnName)}
  {
  }

  /** Dropping a column from one registry removes exactly that registry's path of the column. */
  lemma DemandShrinks(selected: set<int>, connected: set<int>, named: set<int>, c: int)
    ensures DemandOf(selected - {c}, connected, named) == DemandOf(selected, connected, named) - {ColumnPath(c, ColumnSelect)}
    ensures DemandOf(selected, connected - {c}, named) == DemandOf(selected, connected, named) - {ColumnPath(c, ColumnConnect)}
    ensures DemandOf(selected, connected, named - {c}) == DemandOf(selected, connected, named) - {ColumnPath(c, ColumnName)}
  {
  }

  /** A snapshot column counts as selected when its select value is truthy. */
  predicate IsSelected(state: ColumnState)
  {
    Truthy(state.selected)
  }

  /** A snapshot column counts as connected when its connect value is exactly "Connected". */
  predicate IsConnected(state: ColumnState)
  {
    state.connected == Some(StrVal("Connected"))
  }

  /** The selected, connected and last column the engine tracks. */
  datatype ColumnGlobals = ColumnGlobals(selected: Option<int>, connected: Option<int>, last: Option<int>)

  /** The columns of a snapshot; none without a snapshot. */
  function ColumnsOf(snap: Option<Snapshot>): Option<seq<ColumnState>>
  {
    if snap.Some? then snap.value.columns else None
  }

  /** What `initConnectedFromComposition` leaves in the tracked columns
      (`ReloadedSpec` says what that is). */
  function Reloaded(g: ColumnGlobals, columns: Option<seq<ColumnState>>): ColumnGlobals
  {
    if columns.None? then g
    else
      var cs := columns.value;
      var connected := LastWhere(cs, IsConnected);
      ColumnGlobals(LastWhere(cs, IsSelected), if connected.Some? then connected else g.connected,
                    if cs == [] then g.last else Some(|cs|))
  }

  /** With a column list, the selected column is the highest-numbered
      selected one, or none; the connected column is the highest-numbered
      connected one, or stays as it was; the last column is the column
      count, or stays as it was for an empty list. Without a column list
      nothing changes. */
  lemma ReloadedSpec(g: ColumnGlobals, columns: Option<seq<ColumnState>>)
    ensures var r := Reloaded(g, columns);
      && (columns.None? ==> r == g)
      && (columns.Some? ==> var cs := columns.value;
        && (r.selected.Some? <==> exists j :: 0 <= j < |cs| && IsSelected(cs[j]))
        && (r.selected.Some? ==> 1 <= r.selected.value <= |cs| && IsSelected(cs[r.selected.value - 1]))
        && (r.selected.Some? ==> forall j :: r.selected.value <= j < |cs| ==> !IsSelected(cs[j]))
        && ((exists j :: 0 <= j < |cs| && IsConnected(cs[j])) ==>
              && r.connected.Some? && 1 <= r.connected.value <= |cs| && IsConnected(cs[r.connected.value - 1])
              && forall j :: r.connected.value <= j < |cs| ==> !IsConnected(cs[j]))
        && ((forall j :: 0 <= j < |cs| ==> !IsConnected(cs[j])) ==> r.connected == g.connected)
        && r.last == if cs == [] then g.last else Some(|cs|))
  {
  }

  /** One pass of the reload loop over the column at 1-based `column`. */
  function ReloadColumnStep(g: ColumnGlobals, column: int, state: ColumnState): ColumnGlobals
  {
    ColumnGlobals(if IsSelected(state) then Some(column) else g.selected,
                  if IsConnected(state) then Some(column) else g.connected,
                  Some(column))
  }

  /** The loop computes `Reloaded` column by column: reloading one more
      column is one more pass. */
  lemma ReloadedStep(g: ColumnGlobals, cs: seq<ColumnState>, i: nat)
    requires i < |cs|
    ensures Reloaded(g, Some(cs[..i + 1])) == ReloadColumnStep(Reloaded(g, Some(cs[..i])), i + 1, cs[i])
  {
    var next := cs[..i + 1];
    assert next[..i] == cs[..i] && next[i] == cs[i];
    assert LastWhere(next, IsSelected) == if IsSelected(cs[i]) then Some(i + 1) else LastWhere(cs[..i], IsSelected);
    assert LastWhere(next, IsConnected) == if IsConnected(cs[i]) then Some(i + 1) else LastWhere(cs[..i], IsConnected);
  }

  /** The calls of the reload sweep over a column list; none without one. */
  function ColumnsSweep(columns: Option<seq<ColumnState>>, demanded: set<Path>): seq<Call>
  {
    if columns.Some? then SweepCalls(ColumnPathsAt, |columns.value|, demanded) else []
  }

  const SelectedSummaries: seq<string> := ["selectedColumnName", "nextSelectedColumnName", "previousSelectedColumnName"]

  const ConnectedSummaries: seq<string> := ["connectedColumnName", "nextConnectedColumnName", "previousConnectedColumnName"]

  /** The dirty marks of a reload: one per registry that has a column
      registered, then the six summary names, always. */
  function ReloadNotices(connected: bool, selected: bool, named: bool): seq<Notice>
  {
    (if connected then [MarkDirty(["columnConnected"])] else [])
    + (if selected then [MarkDirty(["columnSelected"])] else [])
    + (if named then [MarkDirty(["columnName"])] else [])
    + [MarkDirty(SelectedSummaries + ConnectedSummaries)]
  }

  /** Each per-registry mark is issued exactly when its registry is in
      use; the summaries come last, always. */
  lemma ReloadNoticesSpec(connected: bool, selected: bool, named: bool)
    ensures var r := ReloadNotices(connected, selected, named);
      && (MarkDirty(["columnConnected"]) in r <==> connected)
      && (MarkDirty(["columnSelected"]) in r <==> selected)
      && (MarkDirty(["columnName"]) in r <==> named)
      && r != [] && r[|r| - 1] == MarkDirty(SelectedSummaries + ConnectedSummaries)
      && |r| == 1 + (if connected then 1 else 0) + (if selected then 1 else 0) + (if named then 1 else 0)
  {
  }

  /** The update names a column path of `signal` as `messageUpdates`' patterns
      read it: digits for the column, then the signal's suffix. */
  predicate ColumnMatches(update: Update, signal: ColumnSignal)
  {
    && update.path.Some? && update.path.value.ColumnPath?
    && update.path.value.column >= 0 && update.path.value.columnSignal == signal
  }

  /** The published value of an optional column. */
  function ColumnVar(column: Option<int>): VarValue
  {
    if column.Some? then VarInt(column.value) else VarUnset
  }

  /** What an update does to the tracked columns: a truthy select makes its
      column the selected one, a truthy connect makes the selected column
      the connected one; the last column is untouched. */
  function Dispatched(g: ColumnGlobals, update: Update): (r: ColumnGlobals)
    ensures r.last == g.last
    ensures r.selected == if ColumnMatches(update, ColumnSelect) && Truthy(update.value) then Some(update.path.value.column) else g.selected
    ensures r.connected == if ColumnMatches(update, ColumnConnect) && Truthy(update.value) then g.selected else g.connected
  {
    if ColumnMatches(update, ColumnConnect) && Truthy(update.value) then g.(connected := g.selected)
    else if ColumnMatches(update, ColumnSelect) && Truthy(update.value) then g.(selected := Some(update.path.value.column))
    else g
  }

  /** The notifications of a connect update: the connected-column variable
      on a truthy value, the per-column mark for a registered column, the
      summaries always. */
  function ConnectNotices(truthy: bool, registered: bool, selected: Option<int>): seq<Notice>
  {
    (if truthy then [SetVariable("connectedColumn", ColumnVar(selected))] else [])
    + (if registered then [MarkDirty(["columnConnected"])] else [])
    + [MarkDirty(ConnectedSummaries)]
  }

  /** The notifications of a select update, in the same shape. */
  function SelectNotices(truthy: bool, registered: bool, column: int): seq<Notice>
  {
    (if truthy then [SetVariable("selectedColumn", VarInt(column))] else [])
    + (if registered then [MarkDirty(["columnSelected"])] else [])
    + [MarkDirty(SelectedSummaries)]
  }

  /** The notifications of `messageUpdates` for one update, with `selected`
      the selected column when it arrives (`DispatchNoticesSpec` says what
      they are). */
  function DispatchNotices(update: Update, selected: Option<int>, named: set<int>, connected: set<int>, selectedKeys: set<int>): seq<Notice>
  {
    if update.path.None? || !update.path.value.ColumnPath? || update.path.value.column < 0 then []
    else
      var c := update.path.value.column;
      match update.path.value.columnSignal
      case ColumnName => if c in named then [MarkDirty(["columnName"])] else []
      case ColumnConnect => ConnectNotices(Truthy(update.value), c in connected, selected)
      case ColumnSelect => SelectNotices(Truthy(update.value), c in selectedKeys, c)
  }

  /** The per-column marks only for a registered column, the summary marks
      on every connect or select, and the variables only on a truthy
      connect or select. */
  lemma DispatchNoticesSpec(update: Update, selected: Option<int>, named: set<int>, connected: set<int>, selectedKeys: set<int>)
    ensures var r := DispatchNotices(update, selected, named, connected, selectedKeys);
      && (MarkDirty(["columnName"]) in r <==> ColumnMatches(update, ColumnName) && update.path.value.column in named)
      && (MarkDirty(["columnConnected"]) in r <==> ColumnMatches(update, ColumnConnect) && update.path.value.column in connected)
      && (MarkDirty(["columnSelected"]) in r <==> ColumnMatches(update, ColumnSelect) && update.path.value.column in selectedKeys)
      && (MarkDirty(ConnectedSummaries) in r <==> ColumnMatches(update, ColumnConnect))
      && (MarkDirty(SelectedSummaries) in r <==> ColumnMatches(update, ColumnSelect))
      && (SetVariable("connectedColumn", ColumnVar(selected)) in r <==> ColumnMatches(update, ColumnConnect) && Truthy(update.value))
      && (ColumnMatches(update, ColumnSelect) ==>
            (SetVariable("selectedColumn", VarInt(update.path.value.column)) in r <==> Truthy(update.value)))
      && (forall n :: n in r && n.SetVariable? ==> Truthy(update.value))
  {
    if update.path.Some? && update.path.value.ColumnPath? && update.path.value.column >= 0 {
      match update.path.value.columnSignal
      case ColumnName =>
      case ColumnConnect =>
      case ColumnSelect =>
    }
  }

  /** `columnNameFeedbackCallback`: the column's name with its first `#`
      replaced by the column number. The guard on the parsed number always
      holds, so the result is never the empty object. */
  function NameFeedback(cache: Cache, column: int): (r: Advanced)
    ensures r.Styled? && r.bgcolor.None? && r.color.None?
    ensures var name := StringAt(cache, ColumnPath(column, ColumnName));
      && (r.text.Some? <==> name.Some?)
      && (name.Some? && '#' !in name.value ==> r.text == name)
      && (name.Some? ==> r.text == Some(Template(name.value, column)))
  {
    Plain(TemplateIfPresent(StringAt(cache, ColumnPath(column, ColumnName)), column))
  }

  /** `columnSelectedFeedbackCallback`: whether the column's select value is truthy. */
  function SelectedFeedback(cache: Cache, column: int): (r: bool)
    ensures r <==> Truthy(ValueAt(cache, ColumnPath(column, ColumnSelect)))
  {
    Truthy(ValueAt(cache, ColumnPath(column, ColumnSelect)))
  }

  /** `columnConnectedFeedbackCallback`: whether the column's connect value is
      exactly "Connected"; "Connected & previewing" does not count. */
  function ConnectedFeedback(cache: Cache, column: int): (r: bool)
    ensures r <==> StringAt(cache, ColumnPath(column, ColumnConnect)) == Some("Connected")
    ensures ValueAt(cache, ColumnPath(column, ColumnConnect)) == Some(StrVal("Connected & previewing")) ==> !r
  {
    ValueAt(cache, ColumnPath(column, ColumnConnect)) == Some(StrVal("Connected"))
  }

  /** The name of a column reached by stepping: `{}` unless the name is a
      non-empty string, otherwise the templated name. */
  function SteppedName(cache: Cache, column: int): (r: Advanced)
    ensures var name := StringAt(cache, ColumnPath(column, ColumnName));
      r != Empty <==> name.Some? && name.value != ""
    ensures r != Empty ==> r == Plain(Some(Template(StringAt(cache, ColumnPath(column, ColumnName)).value, column)))
  {
    var name := StringAt(cache, ColumnPath(column, ColumnName));
    if name.Some? && name.value != "" then Plain(Some(Template(name.value, column))) else Empty
  }

  class ColumnUtils {
    var initialLoadDone: bool
    var selectedColumn: Option<int>
    var connectedColumn: Option<int>
    var lastColumn: Option<int>
    var nameSubs: Table<int>
    var selectedSubs: Table<int>
    var connectedSubs: Table<int>
    /** The calls made on the remote subscription channel, oldest first. */
    ghost var remote: seq<Call>
    /** The host notifications issued, oldest first. */
    ghost var notices: seq<Notice>

    function Globals(): ColumnGlobals
      reads this`selectedColumn, this`connectedColumn, this`lastColumn
    {
      ColumnGlobals(selectedColumn, connectedColumn, lastColumn)
    }

    ghost function Demanded(): set<Path>
      reads this`selectedSubs, this`connectedSubs, this`nameSubs
    {
      DemandOf(selectedSubs.Keys, connectedSubs.Keys, nameSubs.Keys)
    }

    /** No empty consumer set persists, and the remote side holds exactly
        the paths the registries call for. */
    ghost predicate Valid()
      reads this
    {
      && NoEmpty(nameSubs) && NoEmpty(selectedSubs) && NoEmpty(connectedSubs)
      && ActivePaths(remote) == Demanded()
    }

    constructor()
      ensures Valid() && !initialLoadDone
      ensures selectedColumn == connectedColumn == lastColumn == None
      ensures nameSubs == selectedSubs == connectedSubs == map[]
      ensures remote == [] && notices == []
    {
      initialLoadDone := false;
      selectedColumn, connectedColumn, lastColumn := None, None, None;
      nameSubs, selectedSubs, connectedSubs := map[], map[], map[];
      remote, notices := [], [];
    }

    /////////////////////////////////////////////////
    // Feedback subscribe / unsubscribe
    /////////////////////////////////////////////////

    /** `columnNameFeedbackSubscribe`: registers the consumer, subscribing the
        name path when it is the column's first. Any column number is
        accepted, 0 included. */
    method NameSubscribe(column: int, consumer: string)
      requires Valid()
      modifies this`nameSubs, this`remote
      ensures Valid()
      ensures var r := Acquire(old(nameSubs), column, consumer);
        nameSubs == r.0 && remote == old(remote) + (if r.1 then [SubscribePath(ColumnPath(column, ColumnName))] else [])
    {
      var r := Acquire(nameSubs, column, consumer);
      DemandGrows(selectedSubs.Keys, connectedSubs.Keys, nameSubs.Keys, column);
      if r.1 {
        ActivePathsSnoc(remote, SubscribePath(ColumnPath(column, ColumnName)));
        remote := remote + [SubscribePath(ColumnPath(column, ColumnName))];
      } else {
        assert r.0.Keys == nameSubs.Keys;
      }
      nameSubs := r.0;
    }

    /** `columnNameFeedbackUnsubscribe`: drops the consumer, unsubscribing the
        name path and the key when it was the last. */
    method NameUnsubscribe(column: int, consumer: string)
      requires Valid()
      modifies this`nameSubs, this`remote
      ensures Valid()
      ensures var r := Release(old(nameSubs), column, consumer);
        nameSubs == r.0 && remote == old(remote) + (if r.1 then [UnsubscribePath(ColumnPath(column, ColumnName))] else [])
    {
      var r := Release(nameSubs, column, consumer);
      if r.1 {
        DemandShrinks(selectedSubs.Keys, connectedSubs.Keys, nameSubs.Keys, column);
        ActivePathsSnoc(remote, UnsubscribePath(ColumnPath(column, ColumnName)));
        remote := remote + [UnsubscribePath(ColumnPath(column, ColumnName))];
      }
      nameSubs := r.0;
    }

    /** `columnSelectedFeedbackSubscribe`: registers the consumer, subscribing
        the select path when it is the column's first. */
    method SelectedSubscribe(column: int, consumer: string)
      requires Valid()
      modifies this`selectedSubs, this`remote
      ensures Valid()
      ensures var r := Acquire(old(selectedSubs), column, consumer);
        selectedSubs == r.0 && remote == old(remote) + (if r.1 then [SubscribePath(ColumnPath(column, ColumnSelect))] else [])
    {
      var r := Acquire(selectedSubs, column, consumer);
      DemandGrows(selectedSubs.Keys, connectedSubs.Keys, nameSubs.Keys, column);
      if r.1 {
        ActivePathsSnoc(remote, SubscribePath(ColumnPath(column, ColumnSelect)));
        remote := remote + [SubscribePath(ColumnPath(column, ColumnSelect))];
      } else {
        assert r.0.Keys == selectedSubs.Keys;
      }
      selectedSubs := r.0;
    }

    /** `columnSelectedFeedbackUnsubscribe`: drops the consumer, unsubscribing
        the select path and the key when it was the last. */
    method SelectedUnsubscribe(column: int, consumer: string)
      requires Valid()
      modifies this`selectedSubs, this`remote
      ensures Valid()
      ensures var r := Release(old(selectedSubs), column, consumer);
        selectedSubs == r.0 && remote == old(remote) + (if r.1 then [UnsubscribePath(ColumnPath(column, ColumnSelect))] else [])
    {
      var r := Release(selectedSubs, column, consumer);
      if r.1 {
        DemandShrinks(selectedSubs.Keys, connectedSubs.Keys, nameSubs.Keys, column);
        ActivePathsSnoc(remote, UnsubscribePath(ColumnPath(column, ColumnSelect)));
        remote := remote + [UnsubscribePath(ColumnPath(column, ColumnSelect))];
      }
      selectedSubs := r.0;
    }

    /** `columnConnectedFeedbackSubscribe`: registers the consumer, subscribing
        the connect path when it is the column's first. */
    method ConnectedSubscribe(column: int, consumer: string)
      requires Valid()
      modifies this`connectedSubs, this`remote
      ensures Valid()
      ensures var r := Acquire(old(connectedSubs), column, consumer);
        connectedSubs == r.0 && remote == old(remote) + (if r.1 then [SubscribePath(ColumnPath(column, ColumnConnect))] else [])
    {
      var r := Acquire(connectedSubs, column, consumer);
      DemandGrows(selectedSubs.Keys, connectedSubs.Keys, nameSubs.Keys, column);
      if r.1 {
        ActivePathsSnoc(remote, SubscribePath(ColumnPath(column, ColumnConnect)));
        remote := remote + [SubscribePath(ColumnPath(column, ColumnConnect))];
      } else {
        assert r.0.Keys == connectedSubs.Keys;
      }
      connectedSubs := r.0;
    }

    /** `columnConnectedFeedbackUnsubscribe`: drops the consumer, unsubscribing
        the connect path and the key when it was the last. */
    method ConnectedUnsubscribe(column: int, consumer: string)
      requires Valid()
      modifies this`connectedSubs, this`remote
      ensures Valid()
      ensures var r := Release(old(connectedSubs), column, consumer);
        connectedSubs == r.0 && remote == old(remote) + (if r.1 then [UnsubscribePath(ColumnPath(column, ColumnConnect))] else [])
    {
      var r := Release(connectedSubs, column, consumer);
      if r.1 {
        DemandShrinks(selectedSubs.Keys, connectedSubs.Keys, nameSubs.Keys, column);
        ActivePathsSnoc(remote, UnsubscribePath(ColumnPath(column, ColumnConnect)));
        remote := remote + [UnsubscribePath(ColumnPath(column, ColumnConnect))];
      }
      connectedSubs := r.0;
    }

    /////////////////////////////////////////////////
    // Reload on a new composition snapshot
    /////////////////////////////////////////////////

    /** A subscribe of `p` when `registered`, nothing otherwise. */
    method SubscribeIf(registered: bool, p: Path)
      modifies this`remote
      ensures remote == old(remote) + (if registered then [SubscribePath(p)] else [])
    {
      if registered {
        remote := remote + [SubscribePath(p)];
      }
    }

    /** A notice when `cond`, nothing otherwise. */
    method MarkIf(cond: bool, n: Notice)
      modifies this`notices
      ensures notices == old(notices) + (if cond then [n] else [])
    {
      if cond {
        notices := notices + [n];
      }
    }

    /** The body of `initConnectedFromComposition`'s loop for the column at
        1-based `column`: its three paths unsubscribed, the registered ones
        subscribed again, and the tracked columns updated. */
    method ReloadColumn(column: int, state: ColumnState)
      modifies this`remote, this`selectedColumn, this`connectedColumn, this`lastColumn
      ensures remote == old(remote) + ResetCalls(ColumnPathsAt(column), Demanded())
      ensures Globals() == ReloadColumnStep(old(Globals()), column, state)
    {
      var select, connect, name := ColumnPath(column, ColumnSelect), ColumnPath(column, ColumnConnect), ColumnPath(column, ColumnName);
      remote := remote + [UnsubscribePath(select), UnsubscribePath(connect), UnsubscribePath(name)];
      SubscribeIf(column in selectedSubs, select);
      SubscribeIf(column in connectedSubs, connect);
      SubscribeIf(column in nameSubs, name);
      if IsSelected(state) {
        selectedColumn := Some(column);
      }
      if IsConnected(state) {
        connectedColumn := Some(column);
      }
      lastColumn := Some(column);
      DemandHas(selectedSubs.Keys, connectedSubs.Keys, nameSubs.Keys, column);
      ResetThree(old(remote), select, connect, name, Demanded(), column in selectedSubs, column in connectedSubs, column in nameSubs);
    }

    /** The loop of `initConnectedFromComposition` over a column list. */
    method ReloadColumns(cs: seq<ColumnState>)
      modifies this`remote, this`selectedColumn, this`connectedColumn, this`lastColumn
      ensures remote == old(remote) + SweepCalls(ColumnPathsAt, |cs|, Demanded())
      ensures Globals() == Reloaded(old(Globals()), Some(cs))
    {
      selectedColumn := None;
      var i := 0;
      while i < |cs|
        invariant i <= |cs|
        invariant remote == old(remote) + SweepCalls(ColumnPathsAt, i, Demanded())
        invariant Globals() == Reloaded(old(Globals()), Some(cs[..i]))
      {
        ghost var prev := remote;
        ReloadColumn(i + 1, cs[i]);
        SweepStep(old(remote), prev, ColumnPathsAt, i, Demanded());
        ReloadedStep(old(Globals()), cs, i);
        i := i + 1;
      }
      assert cs[..i] == cs;
    }

    /** `initConnectedFromComposition`: with a column list, every column's
        paths are reset to what the registries demand and the tracked columns
        recomputed; then the dirty marks. The remote side stays in line with
        the registries. */
    method InitConnectedFromComposition(columns: Option<seq<ColumnState>>)
      requires Valid()
      modifies this`remote, this`selectedColumn, this`connectedColumn, this`lastColumn, this`notices
      ensures Valid()
      ensures Globals() == Reloaded(old(Globals()), columns)
      ensures remote == old(remote) + ColumnsSweep(columns, Demanded())
      ensures notices == old(notices) + ReloadNotices(|connectedSubs| > 0, |selectedSubs| > 0, |nameSubs| > 0)
    {
      if columns.Some? {
        ReloadColumns(columns.value);
        SweepKeepsSynced(old(remote), ColumnPathsAt, |columns.value|, Demanded());
      }
      ReloadMarks(|connectedSubs| > 0, |selectedSubs| > 0, |nameSubs| > 0);
    }

    /** The dirty marks that close a reload. */
    method ReloadMarks(connected: bool, selected: bool, named: bool)
      modifies this`notices
      ensures notices == old(notices) + ReloadNotices(connected, selected, named)
    {
      MarkIf(connected, MarkDirty(["columnConnected"]));
      MarkIf(selected, MarkDirty(["columnSelected"]));
      MarkIf(named, MarkDirty(["columnName"]));
      notices := notices + [MarkDirty(SelectedSummaries + ConnectedSummaries)];
    }

    /** The first step of `messageUpdates`: the first update that finds a
        composition, and every composition update that does, reloads it. */
    method ReloadOnUpdate(isComposition: bool, snap: Option<Snapshot>)
      requires Valid()
      modifies this`initialLoadDone, this`remote, this`selectedColumn, this`connectedColumn, this`lastColumn, this`notices
      ensures Valid()
      ensures initialLoadDone == (old(initialLoadDone) || snap.Some?)
      ensures var reload := (isComposition || !old(initialLoadDone)) && snap.Some?;
        && Globals() == (if reload then Reloaded(old(Globals()), ColumnsOf(snap)) else old(Globals()))
        && remote == old(remote) + (if reload then ColumnsSweep(ColumnsOf(snap), Demanded()) else [])
        && notices == old(notices) + (if reload then ReloadNotices(|connectedSubs| > 0, |selectedSubs| > 0, |nameSubs| > 0) else [])
    {
      if isComposition || !initialLoadDone {
        if snap.Some? {
          InitConnectedFromComposition(snap.value.columns);
          initialLoadDone := true;
        }
      }
    }

    /** The second step of `messageUpdates`: the update's own effects. */
    method Dispatch(update: Update)
      modifies this`selectedColumn, this`connectedColumn, this`notices
      ensures Globals() == Dispatched(old(Globals()), update)
      ensures notices == old(notices) + DispatchNotices(update, old(selectedColumn), nameSubs.Keys, connectedSubs.Keys, selectedSubs.Keys)
    {
      if update.path.Some? && update.path.value.ColumnPath? && update.path.value.column >= 0 {
        var column := update.path.value.column;
        match update.path.value.columnSignal
        case ColumnName =>
          if column in nameSubs {
            notices := notices + [MarkDirty(["columnName"])];
          }
        case ColumnConnect =>
          ghost var start := notices;
          if Truthy(update.value) {
            connectedColumn := selectedColumn;
            notices := notices + [SetVariable("connectedColumn", ColumnVar(connectedColumn))];
          }
          if column in connectedSubs {
            notices := notices + [MarkDirty(["columnConnected"])];
          }
          notices := notices + [MarkDirty(ConnectedSummaries)];
          assert notices == start + notices[|start|..];
        case ColumnSelect =>
          ghost var start := notices;
          if Truthy(update.value) {
            selectedColumn := Some(column);
            notices := notices + [SetVariable("selectedColumn", VarInt(column))];
          }
          if column in selectedSubs {
            notices := notices + [MarkDirty(["columnSelected"])];
          }
          notices := notices + [MarkDirty(SelectedSummaries)];
          assert notices == start + notices[|start|..];
      }
    }

    /** `messageUpdates`: the reload when one is due, then the update's own
        effects, which see the tracked columns as the reload left them. */
    method MessageUpdates(update: Update, isComposition: bool, snap: Option<Snapshot>)
      requires Valid()
      modifies this`initialLoadDone, this`remote, this`selectedColumn, this`connectedColumn, this`lastColumn, this`notices
      ensures Valid()
      ensures initialLoadDone == (old(initialLoadDone) || snap.Some?)
      ensures var reload := (isComposition || !old(initialLoadDone)) && snap.Some?;
        var g := if reload then Reloaded(old(Globals()), ColumnsOf(snap)) else old(Globals());
        && Globals() == Dispatched(g, update)
        && remote == old(remote) + (if reload then ColumnsSweep(ColumnsOf(snap), Demanded()) else [])
        && notices == old(notices)
                      + (if reload then ReloadNotices(|connectedSubs| > 0, |selectedSubs| > 0, |nameSubs| > 0) else [])
                      + DispatchNotices(update, g.selected, nameSubs.Keys, connectedSubs.Keys, selectedSubs.Keys)
    {
      ReloadOnUpdate(isComposition, snap);
      Dispatch(update);
    }

    /////////////////////////////////////////////////
    // Stepping and name callbacks
    /////////////////////////////////////////////////

    /** `calculateSelectedNextColumn`. */
    function SelectedNextColumn(add: int): (r: int)
      reads this`selectedColumn, this`lastColumn
      requires selectedColumn.Some? && lastColumn.Some?
      ensures var cur, last := selectedColumn.value, lastColumn.value;
        1 <= cur <= last && 0 <= add <= last ==> 1 <= r <= last && r == (cur - 1 + add) % last + 1
    {
      var cur, last := selectedColumn.value, lastColumn.value;
      if 1 <= cur <= last && 0 <= add <= last then
        NextIsCyclic(cur, add, last);
        Next(cur, add, last)
      else Next(cur, add, last)
    }

    /** `calculateSelectedPreviousColumn`. */
    function SelectedPreviousColumn(sub: int): (r: int)
      reads this`selectedColumn, this`lastColumn
      requires selectedColumn.Some? && lastColumn.Some?
      ensures var cur, last := selectedColumn.value, lastColumn.value;
        1 <= cur <= last && 0 <= sub <= last ==> 1 <= r <= last && r == (cur - 1 - sub) % last + 1
    {
      var cur, last := selectedColumn.value, lastColumn.value;
      if 1 <= cur <= last && 0 <= sub <= last then
        PreviousIsCyclic(cur, sub, last);
        Previous(cur, sub, last)
      else Previous(cur, sub, last)
    }

    /** `calculateConnectedNextColumn`. */
    function ConnectedNextColumn(add: int): (r: int)
      reads this`connectedColumn, this`lastColumn
      requires connectedColumn.Some? && lastColumn.Some?
      ensures var cur, last := connectedColumn.value, lastColumn.value;
        1 <= cur <= last && 0 <= add <= last ==> 1 <= r <= last && r == (cur - 1 + add) % last + 1
    {
      var cur, last := connectedColumn.value, lastColumn.value;
      if 1 <= cur <= last && 0 <= add <= last then
        NextIsCyclic(cur, add, last);
        Next(cur, add, last)
      else Next(cur, add, last)
    }

    /** `calculateConnectedPreviousColumn`. */
    function ConnectedPreviousColumn(sub: int): (r: int)
      reads this`connectedColumn, this`lastColumn
      requires connectedColumn.Some? && lastColumn.Some?
      ensures var cur, last := connectedColumn.value, lastColumn.value;
        1 <= cur <= last && 0 <= sub <= last ==> 1 <= r <= last && r == (cur - 1 - sub) % last + 1
    {
      var cur, last := connectedColumn.value, lastColumn.value;
      if 1 <= cur <= last && 0 <= sub <= last then
        PreviousIsCyclic(cur, sub, last);
        Previous(cur, sub, last)
      else Previous(cur, sub, last)
    }

    /** `columnSelectedNameFeedbackCallback`: `{}` without a selected column,
        otherwise its templated name on cyan. */
    function SelectedNameFeedback(cache: Cache): (r: Advanced)
      reads this`selectedColumn
      ensures r == Empty <==> selectedColumn.None?
      ensures r.Styled? ==> r.bgcolor == Some(Cyan) && r.color == Some(Black)
      ensures r.Styled? ==> var c := selectedColumn.value;
        r.text == TemplateIfPresent(StringAt(cache, ColumnPath(c, ColumnName)), c)
    {
      if selectedColumn.None? then Empty
      else
        var c := selectedColumn.value;
        Styled(TemplateIfPresent(StringAt(cache, ColumnPath(c, ColumnName)), c), Some(Cyan), Some(Black))
    }

    /** `columnConnectedNameFeedbackCallback`: `{}` without a connected column,
        otherwise its templated name on green. */
    function ConnectedNameFeedback(cache: Cache): (r: Advanced)
      reads this`connectedColumn
      ensures r == Empty <==> connectedColumn.None?
      ensures r.Styled? ==> r.bgcolor == Some(Green) && r.color == Some(Black)
      ensures r.Styled? ==> var c := connectedColumn.value;
        r.text == TemplateIfPresent(StringAt(cache, ColumnPath(c, ColumnName)), c)
    {
      if connectedColumn.None? then Empty
      else
        var c := connectedColumn.value;
        Styled(TemplateIfPresent(StringAt(cache, ColumnPath(c, ColumnName)), c), Some(Green), Some(Black))
    }

    /** `columnSelectedNextNameFeedbackCallback`: the templated name of the
        column `add` on from the selected one; `{}` when the selected or last
        column is unknown or that column has no non-empty name. */
    function SelectedNextNameFeedback(cache: Cache, add: int): (r: Advanced)
      reads this`selectedColumn, this`lastColumn
      ensures r != Empty ==> selectedColumn.Some? && lastColumn.Some?
      ensures selectedColumn.Some? && lastColumn.Some? ==> r == SteppedName(cache, SelectedNextColumn(add))
    {
      if selectedColumn.Some? && lastColumn.Some? then SteppedName(cache, SelectedNextColumn(add)) else Empty
    }

    /** `columnSelectedPreviousNameFeedbackCallback`. */
    function SelectedPreviousNameFeedback(cache: Cache, sub: int): (r: Advanced)
      reads this`selectedColumn, this`lastColumn
      ensures r != Empty ==> selectedColumn.Some? && lastColumn.Some?
      ensures selectedColumn.Some? && lastColumn.Some? ==> r == SteppedName(cache, SelectedPreviousColumn(sub))
    {
      if selectedColumn.Some? && lastColumn.Some? then SteppedName(cache, SelectedPreviousColumn(sub)) else Empty
    }

    /** `columnConnectedNextNameFeedbackCallback`. */
    function ConnectedNextNameFeedback(cache: Cache, add: int): (r: Advanced)
      reads this`connectedColumn, this`lastColumn
      ensures r != Empty ==> connectedColumn.Some? && lastColumn.Some?
      ensures connectedColumn.Some? && lastColumn.Some? ==> r == SteppedName(cache, ConnectedNextColumn(add))
    {
      if connectedColumn.Some? && lastColumn.Some? then SteppedName(cache, ConnectedNextColumn(add)) else Empty
    }

    /** `columnConnectedPreviousNameFeedbackCallback`. */
    function ConnectedPreviousNameFeedback(cache: Cache, sub: int): (r: Advanced)
      reads this`connectedColumn, this`lastColumn
      ensures r != Empty ==> connectedColumn.Some? && lastColumn.Some?
      ensures connectedColumn.Some? && lastColumn.Some? ==> r == SteppedName(cache, ConnectedPreviousColumn(sub))
    {
      if connectedColumn.Some? && lastColumn.Some? then SteppedName(cache, ConnectedPreviousColumn(sub)) else Empty
    }
  }
}
