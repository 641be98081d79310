/**
 * Identities of the addressable entities and the symbolic parameter paths of
 * the remote composition ("/composition/layers/2/clips/3/select", ...).
 * Paths are kept structured; `Render` gives the string the source builds by
 * concatenation, which is also the key of the parameter cache.
 */
module Paths {
  import opened Text

  /** A clip's identity: its 1-based layer and column (`ClipId` in the source). */
  datatype ClipId = ClipId(layer: int, column: int) {

    /** `ClipId.isValid`: both coordinates strictly positive. */
    predicate IsValid() { layer > 0 && column > 0 }

    /** `getIdString()`: the registry key of the clip. */
    function IdString(): string { IntToString(layer) + ":" + IntToString(column) }
  }

  /** `ClipId.fromId`: decodes a registry key back into the clip's coordinates. */
  function ClipIdFromString(s: string): ClipId
  {
    var i := FirstIndex(s, ':');
    ClipId(ParseInt(s[..i]), if i < |s| then ParseInt(s[i + 1..]) else 0)
  }

  lemma ClipIdRoundTrip(id: ClipId)
    ensures ClipIdFromString(id.IdString()) == id
  {
    var l, c := IntToString(id.layer), IntToString(id.column);
    var s := id.IdString();
    var i := FirstIndex(s, ':');
    assert s[|l|] == ':';
    assert i == |l|;
    assert s[..i] == l;
    assert s[i + 1..] == c;
    ParseIntToString(id.layer);
    ParseIntToString(id.column);
  }

  /** The registry key of a clip determines the clip. */
  lemma IdStringInjective(a: ClipId, b: ClipId)
    ensures a.IdString() == b.IdString() ==> a == b
  {
    ClipIdRoundTrip(a);
    ClipIdRoundTrip(b);
  }

  datatype ClipSignal = Connect | Select | Name | Speed | Opacity | Volume | Position

  datatype ColumnSignal = ColumnSelect | ColumnConnect | ColumnName

  /** Decks are subscribed on "/selected" but their select state is read and
      matched on "/select". */
  datatype DeckSignal = DeckSelected | DeckSelect | DeckName

  datatype Path =
    | ClipPath(clip: ClipId, clipSignal: ClipSignal)
    | ColumnPath(column: int, columnSignal: ColumnSignal)
    | DeckPath(deck: int, deckSignal: DeckSignal)
  {
    function Render(): string
    {
      match this
      case ClipPath(id, signal) =>
        "/composition/layers/" + IntToString(id.layer) + "/clips/" + IntToString(id.column) + ClipSuffix(signal)
      case ColumnPath(column, signal) =>
        "/composition/columns/" + IntToString(column) + ColumnSuffix(signal)
      case DeckPath(deck, signal) =>
        "/composition/decks/" + IntToString(deck) + DeckSuffix(signal)
    }
  }

  function ClipSuffix(signal: ClipSignal): string
  {
    match signal
    case Connect => "/connect"
    case Select => "/select"
    case Name => "/name"
    case Speed => "/transport/position/behaviour/speed"
    case Opacity => "/video/opacity"
    case Volume => "/audio/volume"
    case Position => "/transport/position"
  }

  function ColumnSuffix(signal: ColumnSignal): string
  {
    match signal
    case ColumnSelect => "/select"
    case ColumnConnect => "/connect"
    case ColumnName => "/name"
  }

  function DeckSuffix(signal: DeckSignal): string
  {
    match signal
    case DeckSelected => "/selected"
    case DeckSelect => "/select"
    case DeckName => "/name"
  }
}
