/**
 * The two pieces of shared state the engines read: the composition snapshot
 * (`compositionState`) and the parameter cache (`parameterStates`), both
 * passed in as values. A snapshot lists layers of clips and the columns and
 * decks of the composition, 0-based; the engines address them 1-based.
 */
module Composition {
  import opened Wrappers
  import opened Paths

  /** A parameter value as the remote side reports it. */
  datatype Value = BoolVal(b: bool) | NumVal(x: real) | StrVal(s: string)

  /** JavaScript truthiness of an optional value: `undefined`, `false`, `0`
      and `""` are falsy. */
  predicate Truthy(v: Option<Value>)
    ensures Truthy(v) <==> v.Some? && v.value != BoolVal(false) && v.value != NumVal(0.0) && v.value != StrVal("")
  {
    match v
    case None => false
    case Some(BoolVal(b)) => b
    case Some(NumVal(x)) => x != 0.0
    case Some(StrVal(s)) => s != ""
  }

  /** One cached parameter; a range parameter also carries its maximum. */
  datatype Param = Param(value: Option<Value>, max: Option<real>)

  /** The parameter cache, keyed by the rendered path. */
  type Cache = map<string, Param>

  function Lookup(cache: Cache, p: Path): Option<Param>
  {
    if p.Render() in cache then Some(cache[p.Render()]) else None
  }

  /** `parameterStates.get()[path]?.value`. */
  function ValueAt(cache: Cache, p: Path): Option<Value>
  {
    var param := Lookup(cache, p);
    if param.Some? then param.value.value else None
  }

  function NumberAt(cache: Cache, p: Path): Option<real>
  {
    match ValueAt(cache, p)
    case Some(NumVal(x)) => Some(x)
    case _ => None
  }

  function StringAt(cache: Cache, p: Path): Option<string>
  {
    match ValueAt(cache, p)
    case Some(StrVal(s)) => Some(s)
    case _ => None
  }

  /** An incoming update: the path it names, when it is one of the paths the
      engines recognise, and its value. */
  datatype Update = Update(path: Option<Path>, value: Option<Value>)

  /** The numeric parameter ids of a clip the engines subscribe to. */
  datatype Clip = Clip(positionId: Option<int>, speedId: Option<int>, volumeId: Option<int>, opacityId: Option<int>)

  datatype Layer = Layer(clips: Option<seq<Clip>>)

  datatype ColumnState = ColumnState(selected: Option<Value>, connected: Option<Value>)

  datatype DeckState = DeckState(selected: Option<Value>, name: Option<string>)

  datatype Snapshot = Snapshot(layers: Option<seq<Layer>>, columns: Option<seq<ColumnState>>, decks: Option<seq<DeckState>>)

  /** `getClipFromCompositionState` does not throw: there is no snapshot, the
      snapshot has no layers, or `layer` names one of them. */
  predicate LookupSafe(snap: Option<Snapshot>, layer: int)
  {
    snap.None? || snap.value.layers.None? || 1 <= layer <= |snap.value.layers.value|
  }

  /** `getClipFromCompositionState(layer, column)`: the clip at 1-based
      coordinates, absent when the snapshot, the layer's clips or the column
      is missing. */
  function ClipAt(snap: Option<Snapshot>, layer: int, column: int): (r: Option<Clip>)
    requires LookupSafe(snap, layer)
    ensures r.Some? <==>
      && snap.Some? && snap.value.layers.Some?
      && snap.value.layers.value[layer - 1].clips.Some?
      && 1 <= column <= |snap.value.layers.value[layer - 1].clips.value|
    ensures r.Some? ==> r.value == snap.value.layers.value[layer - 1].clips.value[column - 1]
  {
    if snap.None? || snap.value.layers.None? then None
    else
      var clips := snap.value.layers.value[layer - 1].clips;
      if clips.None? then None
      else if 0 <= column - 1 < |clips.value| then Some(clips.value[column - 1])
      else None
  }

  /** 1-based position of the last element satisfying `p`, if any: the
      outcome of a loop that assigns its variable at every match. */
  function LastWhere<T>(s: seq<T>, p: T -> bool): (r: Option<nat>)
    ensures r.Some? ==> 1 <= r.value <= |s| && p(s[r.value - 1])
    ensures r.Some? ==> forall j :: r.value <= j < |s| ==> !p(s[j])
    ensures r.None? <==> forall j :: 0 <= j < |s| ==> !p(s[j])
    decreases |s|
  {
    if s == [] then None
    else if p(s[|s| - 1]) then Some(|s|)
    else LastWhere(s[..|s| - 1], p)
  }
}
