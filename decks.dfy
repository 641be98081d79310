/**
 * The deck engine (`DeckUtils`): two reference-counted registries keyed by
 * deck number (selected, name), the selected deck, its name and the last
 * deck it tracks, the reload sweep run when a composition snapshot arrives
 * and the name callbacks. Remote calls and host notifications are appended
 * to logs; the snapshot and the parameter cache are parameters.
 */
module Decks {
  import opened Wrappers
  import opened Text
  import opened Paths
  import opened Remote
  import opened Host
  import opened Composition
  import opened Registry
  import opened Navigation
  import opened Results
  import opened Sweep

  /** The paths of deck `d` in the order the reload unsubscribes them. */
  function DeckPathsAt(d: int): seq<Path>
  {
    [DeckPath(d, DeckSelected), DeckPath(d, DeckName)]
  }

  /** The `signal` paths of the decks named by `keys`. */
  function DeckPathsOf(keys: set<int>, signal: DeckSignal): set<Path>
  {
    set d | d in keys :: DeckPath(d, signal)
  }

  /** The paths the registries call for: the selected and name path of every
      registered deck. */
  function DemandOf(selected: set<int>, named: set<int>): set<Path>
  {
    DeckPathsOf(selected, DeckSelected) + DeckPathsOf(named, DeckName)
  }

  /** Each path of a deck is demanded exactly when the deck is in that path's
      registry; the `/select` path is never demanded. */
  lemma DemandHas(selected: set<int>, named: set<int>, d: int)
    ensures DeckPath(d, DeckSelected) in DemandOf(selected, named) <==> d in selected
    ensures DeckPath(d, DeckName) in DemandOf(selected, named) <==> d in named
    ensures DeckPath(d, DeckSelect) !in DemandOf(selected, named)
  {
  }

  /** Registering a deck in one registry adds exactly that registry's path of the deck. */
  lemma DemandGrows(selected: set<int>, named: set<int>, d: int)
    ensures DemandOf(selected + {d}, named) == DemandOf(selected, named) + {DeckPath(d, DeckSelected)}
    ensures DemandOf(selected, named + {d}) == DemandOf(selected, named) + {DeckPath(d, DeckName)}
  {
  }

  /** Dropping a deck from one registry removes exactly that registry's path of the deck. */
  lemma DemandShrinks(selected: set<int>, named: set<int>, d: int)
    ensures DemandOf(selected - {d}, named) == DemandOf(selected, named) - {DeckPath(d, DeckSelected)}
    ensures DemandOf(selected, named - {d}) == DemandOf(selected, named) - {DeckPath(d, DeckName)}
  {
  }

  /** A snapshot deck counts as selected when its selected value is truthy. */
  predicate IsSelected(state: DeckState)
  {
    Truthy(state.selected)
  }

  /** The selected deck, its name and the last deck the engine tracks. */
  datatype DeckGlobals = DeckGlobals(selected: Option<int>, selectedName: Option<string>, last: Option<int>)

  /** The decks of a snapshot; none without a snapshot. */
  function DecksOf(snap: Option<Snapshot>): Option<seq<DeckState>>
  {
    if snap.Some? then snap.value.decks else None
  }

  /** What `initConnectedFromComposition` leaves in the tracked state
      (`ReloadedSpec` says what that is). */
  function Reloaded(g: DeckGlobals, decks: Option<seq<DeckState>>): DeckGlobals
  {
    if decks.None? then g
    else
      var ds := decks.value;
      var selected := LastWhere(ds, IsSelected);
      DeckGlobals(selected, if selected.Some? then ds[selected.value - 1].name else g.selectedName,
                  if ds == [] then g.last else Some(|ds|))
  }

  /** With a deck list, the selected deck is the highest-numbered selected
      one, or none, and the name is that deck's; without a selected deck the
      name stays as it was. The last deck is the deck count, or stays as it
      was for an empty list. Without a deck list nothing changes. */
  lemma ReloadedSpec(g: DeckGlobals, decks: Option<seq<DeckState>>)
    ensures var r := Reloaded(g, decks);
      && (decks.None? ==> r == g)
      && (decks.Some? ==> var ds := decks.value;
        && (r.selected.Some? <==> exists j :: 0 <= j < |ds| && IsSelected(ds[j]))
        && (r.selected.Some? ==> 1 <= r.selected.value <= |ds| && IsSelected(ds[r.selected.value - 1]))
        && (r.selected.Some? ==> forall j :: r.selected.value <= j < |ds| ==> !IsSelected(ds[j]))
        && (r.selected.Some? ==> r.selectedName == ds[r.selected.value - 1].name)
        && (r.selected.None? ==> r.selectedName == g.selectedName)
        && r.last == if ds == [] then g.last else Some(|ds|))
  {
  }

  /** One pass of the reload loop over the deck at 1-based `deck`. */
  function ReloadDeckStep(g: DeckGlobals, deck: int, state: DeckState): DeckGlobals
  {
    DeckGlobals(if IsSelected(state) then Some(deck) else g.selected,
                if IsSelected(state) then state.name else g.selectedName,
                Some(deck))
  }

  /** The loop computes `Reloaded` deck by deck: reloading one more deck is
      one more pass. */
  lemma ReloadedStep(g: DeckGlobals, ds: seq<DeckState>, i: nat)
    requires i < |ds|
    ensures Reloaded(g, Some(ds[..i + 1])) == ReloadDeckStep(Reloaded(g, Some(ds[..i])), i + 1, ds[i])
  {
    var next := ds[..i + 1];
    assert next[..i] == ds[..i] && next[i] == ds[i];
    var before := LastWhere(ds[..i], IsSelected);
    assert LastWhere(next, IsSelected) == if IsSelected(ds[i]) then Some(i + 1) else before;
    if before.Some? {
      assert next[before.value - 1] == ds[..i][before.value - 1];
    }
  }

  /** The calls of the reload sweep over a deck list; none without one. */
  function DecksSweep(decks: Option<seq<DeckState>>, demanded: set<Path>): seq<Call>
  {
    if decks.Some? then SweepCalls(DeckPathsAt, |decks.value|, demanded) else []
  }

  const Summaries: seq<string> := ["selectedDeckName", "nextDeckName", "previousDeckName"]

  /** The dirty marks of a reload: one per registry that has a deck
      registered, then the three summary names, always. */
  function ReloadNotices(selected: bool, named: bool): seq<Notice>
  {
    (if selected then [MarkDirty(["deckSelected"])] else [])
    + (if named then [MarkDirty(["deckName"])] else [])
    + [MarkDirty(Summaries)]
  }

  /** Each per-registry mark is issued exactly when its registry is in use;
      the summaries come last, always. */
  lemma ReloadNoticesSpec(selected: bool, named: bool)
    ensures var r := ReloadNotices(selected, named);
      && (MarkDirty(["deckSelected"]) in r <==> selected)
      && (MarkDirty(["deckName"]) in r <==> named)
      && r != [] && r[|r| - 1] == MarkDirty(Summaries)
      && |r| == 1 + (if selected then 1 else 0) + (if named then 1 else 0)
  {
  }

  /** The update names a deck's name path as `messageUpdates`' name pattern reads it. */
  predicate NameMatches(update: Update)
  {
    && update.path.Some? && update.path.value.DeckPath?
    && update.path.value.deck >= 0 && update.path.value.deckSignal == DeckName
  }

  /** The update names a deck path the unanchored `/select` pattern matches:
      the `/select` path and the `/selected` path alike. */
  predicate SelectMatches(update: Update)
  {
    && update.path.Some? && update.path.value.DeckPath?
    && update.path.value.deck >= 0 && update.path.value.deckSignal != DeckName
  }

  /** Whether the cache holds a truthy select value for deck `d`. */
  predicate CachedSelected(cache: Cache, d: int)
  {
    Truthy(ValueAt(cache, DeckPath(d, DeckSelect)))
  }

  /** What an update does to the tracked state: a select update for a deck
      whose cached select value is truthy makes it the selected deck, with
      its cached name; the last deck is untouched. */
  function Dispatched(g: DeckGlobals, update: Update, cache: Cache): (r: DeckGlobals)
    ensures r.last == g.last
    ensures var moved := SelectMatches(update) && CachedSelected(cache, update.path.value.deck);
      && r.selected == (if moved then Some(update.path.value.deck) else g.selected)
      && r.selectedName == (if moved then StringAt(cache, DeckPath(update.path.value.deck, DeckName)) else g.selectedName)
  {
    if SelectMatches(update) && CachedSelected(cache, update.path.value.deck) then
      var d := update.path.value.deck;
      g.(selected := Some(d), selectedName := StringAt(cache, DeckPath(d, DeckName)))
    else g
  }

  /** The notifications of a select update: the selected-deck variable when
      the deck's cached select value is truthy, the per-deck mark for a
      registered deck, the summaries always. */
  function SelectNotices(truthy: bool, registered: bool, d: int): seq<Notice>
  {
    (if truthy then [SetVariable("selectedDeck", VarInt(d))] else [])
    + (if registered then [MarkDirty(["deckSelected"])] else [])
    + [MarkDirty(Summaries)]
  }

  /** The notifications of `messageUpdates` for one update
      (`DispatchNoticesSpec` says what they are). */
  function DispatchNotices(update: Update, cache: Cache, named: set<int>, selectedKeys: set<int>): seq<Notice>
  {
    if update.path.None? || !update.path.value.DeckPath? || update.path.value.deck < 0 then []
    else
      var d := update.path.value.deck;
      if update.path.value.deckSignal == DeckName then
        if d in named then [MarkDirty(["deckName"])] else []
      else SelectNotices(CachedSelected(cache, d), d in selectedKeys, d)
  }

  /** The per-deck marks only for a registered deck, the summary marks on
      every select update, and the variable only when the deck's cached
      select value is truthy. */
  lemma DispatchNoticesSpec(update: Update, cache: Cache, named: set<int>, selectedKeys: set<int>)
    ensures var r := DispatchNotices(update, cache, named, selectedKeys);
      && (MarkDirty(["deckName"]) in r <==> NameMatches(update) && update.path.value.deck in named)
      && (MarkDirty(["deckSelected"]) in r <==> SelectMatches(update) && update.path.value.deck in selectedKeys)
      && (MarkDirty(Summaries) in r <==> SelectMatches(update))
      && (SelectMatches(update) ==>
            (SetVariable("selectedDeck", VarInt(update.path.value.deck)) in r <==> CachedSelected(cache, update.path.value.deck)))
      && (forall n :: n in r && n.SetVariable? ==> SelectMatches(update) && CachedSelected(cache, update.path.value.deck))
  {
  }

  /** `deckSelectedFeedbackCallback`: whether the deck's cached select value
      is truthy. */
  function SelectedFeedback(cache: Cache, d: int): (r: bool)
    ensures r <==> Truthy(ValueAt(cache, DeckPath(d, DeckSelect)))
  {
    CachedSelected(cache, d)
  }

  /** A deck an update makes the selected one is shown as selected by
      `deckSelectedFeedbackCallback` against the same cache. */
  lemma DispatchAgreesWithFeedback(g: DeckGlobals, update: Update, cache: Cache)
    ensures var r := Dispatched(g, update, cache);
      r.selected != g.selected ==> r.selected.Some? && SelectedFeedback(cache, r.selected.value)
  {
  }

  /** `deckNameFeedbackCallback`: the deck's cached name as the text, never
      the empty object, never coloured. */
  function NameFeedback(cache: Cache, d: int): (r: Advanced)
    ensures r.Styled? && r.bgcolor.None? && r.color.None?
    ensures r.text == StringAt(cache, DeckPath(d, DeckName))
  {
    Plain(StringAt(cache, DeckPath(d, DeckName)))
  }

  /** The text of `deckSelectedNameFeedbackCallback`: the cached name when it
      is a non-empty string, otherwise the remembered one. */
  function SelectedText(cached: Option<string>, remembered: Option<string>): (r: Option<string>)
    ensures cached.Some? && cached.value != "" ==> r == cached
    ensures !(cached.Some? && cached.value != "") ==> r == remembered
  {
    if cached.Some? && cached.value != "" then cached else remembered
  }

  /////////////////////////////////////////////////
  // The deck arithmetic as written
  /////////////////////////////////////////////////

  /** A JavaScript value as `selectedDeck` holds it: a number after a reload,
      the digit string the update pattern captured after a select update. */
  datatype JsValue = JsNum(n: int) | JsStr(s: string)

  /** `String(v)`. */
  function JsToString(v: JsValue): string
  {
    match v
    case JsNum(n) => IntToString(n)
    case JsStr(s) => s
  }

  /** `Number(v)`, for the decimal strings that occur here. */
  function JsToNumber(v: JsValue): int
  {
    match v
    case JsNum(n) => n
    case JsStr(s) => ParseInt(s)
  }

  /** JavaScript `a + b`: concatenation as soon as one side is a string. */
  function JsPlus(a: JsValue, b: JsValue): (r: JsValue)
    ensures a.JsNum? && b.JsNum? ==> r == JsNum(a.n + b.n)
    ensures a.JsStr? || b.JsStr? ==> r == JsStr(JsToString(a) + JsToString(b))
  {
    if a.JsNum? && b.JsNum? then JsNum(a.n + b.n) else JsStr(JsToString(a) + JsToString(b))
  }

  /** JavaScript `a - b`: always numeric. */
  function JsMinus(a: JsValue, b: JsValue): (r: JsValue)
    ensures r.JsNum? && r.n == JsToNumber(a) - JsToNumber(b)
  {
    JsNum(JsToNumber(a) - JsToNumber(b))
  }

  /** `calculateNextDeck` as written, on whatever `selectedDeck` holds.
      While it holds a number, as it does after a reload, this is the
      single-wrap step. */
  function NextDeckAsWritten(deck: JsValue, add: int, last: int): (r: JsValue)
    ensures deck.JsNum? ==> r == JsNum(Next(deck.n, add, last))
  {
    var sum := JsPlus(deck, JsNum(add));
    if JsToNumber(sum) > last then JsMinus(sum, JsNum(last)) else sum
  }

  /** `calculatePreviousDeck` as written, on whatever `selectedDeck` holds.
      While it holds a number this is the single-wrap step back. */
  function PreviousDeckAsWritten(deck: JsValue, sub: int, last: int): (r: JsValue)
    ensures deck.JsNum? ==> r == JsNum(Previous(deck.n, sub, last))
  {
    if JsToNumber(JsMinus(deck, JsNum(sub))) < 1 then JsMinus(JsPlus(JsNum(last), deck), JsNum(sub))
    else JsMinus(deck, JsNum(sub))
  }

  /** After a select update for deck 3 of five, `selectedDeck` holds "3":
      one on from it, "3" + 1 is "31", past the last deck, so the next deck
      is 26 where 4 is meant. */
  lemma NextDeckAfterSelectUpdate()
    ensures NextDeckAsWritten(JsStr("3"), 1, 5) == JsNum(26)
    ensures Next(3, 1, 5) == 4
  {
    assert IntToString(1) == "1";
    assert "3" + "1" == "31";
    assert "31"[..1] == "3";
    assert ParseDigits("31") == 31;
  }

  /** The same update for deck 1 of twenty: "1" + 1 is "11", within range,
      so the next deck is deck 11 where 2 is meant. */
  lemma NextDeckAfterSelectUpdateInRange()
    ensures NextDeckAsWritten(JsStr("1"), 1, 20) == JsStr("11")
    ensures Next(1, 1, 20) == 2
  {
    assert IntToString(1) == "1";
    assert "1" + "1" == "11";
    assert "11"[..1] == "1";
    assert ParseDigits("11") == 11;
  }

  /** After a select update for deck 1 of five, one back: 1 - 1 is below 1,
      and 5 + "1" is "51", so the previous deck is 50 where 5 is meant. */
  lemma PreviousDeckAfterSelectUpdate()
    ensures PreviousDeckAsWritten(JsStr("1"), 1, 5) == JsNum(50)
    ensures Previous(1, 1, 5) == 5
  {
    assert ParseDigits("1") == 1;
    assert IntToString(5) == "5";
    assert "5" + "1" == "51";
    assert "51"[..1] == "5";
    assert ParseDigits("51") == 51;
  }

  class DeckUtils {
    var initialLoadDone: bool
    /** Held as a number here: the select update's captured digits are read
        as the deck number they spell. */
    var selectedDeck: Option<int>
    var selectedDeckName: Option<string>
    var lastDeck: Option<int>
    var selectedSubs: Table<int>
    var nameSubs: Table<int>
    /** The calls made on the remote subscription channel, oldest first. */
    ghost var remote: seq<Call>
    /** The host notifications issued, oldest first. */
    ghost var notices: seq<Notice>

    function Globals(): DeckGlobals
      reads this`selectedDeck, this`selectedDeckName, this`lastDeck
    {
      DeckGlobals(selectedDeck, selectedDeckName, lastDeck)
    }

    ghost function Demanded(): set<Path>
      reads this`selectedSubs, this`nameSubs
    {
      DemandOf(selectedSubs.Keys, nameSubs.Keys)
    }

    /** No empty consumer set persists, and the remote side holds exactly
        the paths the registries call for. */
    ghost predicate Valid()
      reads this
    {
      && NoEmpty(selectedSubs) && NoEmpty(nameSubs)
      && ActivePaths(remote) == Demanded()
    }

    constructor()
      ensures Valid() && !initialLoadDone
      ensures selectedDeck == lastDeck == None && selectedDeckName == None
      ensures selectedSubs == nameSubs == map[]
      ensures remote == [] && notices == []
    {
      initialLoadDone := false;
      selectedDeck, selectedDeckName, lastDeck := None, None, None;
      selectedSubs, nameSubs := map[], map[];
      remote, notices := [], [];
    }

    /////////////////////////////////////////////////
    // Feedback subscribe / unsubscribe
    /////////////////////////////////////////////////

    /** `deckSelectedFeedbackSubscribe`: registers the consumer, subscribing
        the `/selected` path when it is the deck's first. */
    method SelectedSubscribe(deck: int, consumer: string)
      requires Valid()
      modifies this`selectedSubs, this`remote
      ensures Valid()
      ensures var r := Acquire(old(selectedSubs), deck, consumer);
        selectedSubs == r.0 && remote == old(remote) + (if r.1 then [SubscribePath(DeckPath(deck, DeckSelected))] else [])
    {
      var r := Acquire(selectedSubs, deck, consumer);
      DemandGrows(selectedSubs.Keys, nameSubs.Keys, deck);
      if r.1 {
        ActivePathsSnoc(remote, SubscribePath(DeckPath(deck, DeckSelected)));
        remote := remote + [SubscribePath(DeckPath(deck, DeckSelected))];
      } else {
        assert r.0.Keys == selectedSubs.Keys;
      }
      selectedSubs := r.0;
    }

    /** `deckSelectedFeedbackUnsubscribe`: drops the consumer, unsubscribing
        the `/selected` path and the key when it was the last. */
    method SelectedUnsubscribe(deck: int, consumer: string)
      requires Valid()
      modifies this`selectedSubs, this`remote
      ensures Valid()
      ensures var r := Release(old(selectedSubs), deck, consumer);
        selectedSubs == r.0 && remote == old(remote) + (if r.1 then [UnsubscribePath(DeckPath(deck, DeckSelected))] else [])
    {
      var r := Release(selectedSubs, deck, consumer);
      if r.1 {
        DemandShrinks(selectedSubs.Keys, nameSubs.Keys, deck);
        ActivePathsSnoc(remote, UnsubscribePath(DeckPath(deck, DeckSelected)));
        remote := remote + [UnsubscribePath(DeckPath(deck, DeckSelected))];
      }
      selectedSubs := r.0;
    }

    /** `deckNameFeedbackSubscribe`: registers the consumer, subscribing the
        name path when it is the deck's first. */
    method NameSubscribe(deck: int, consumer: string)
      requires Valid()
      modifies this`nameSubs, this`remote
      ensures Valid()
      ensures var r := Acquire(old(nameSubs), deck, consumer);
        nameSubs == r.0 && remote == old(remote) + (if r.1 then [SubscribePath(DeckPath(deck, DeckName))] else [])
    {
      var r := Acquire(nameSubs, deck, consumer);
      DemandGrows(selectedSubs.Keys, nameSubs.Keys, deck);
      if r.1 {
        ActivePathsSnoc(remote, SubscribePath(DeckPath(deck, DeckName)));
        remote := remote + [SubscribePath(DeckPath(deck, DeckName))];
      } else {
        assert r.0.Keys == nameSubs.Keys;
      }
      nameSubs := r.0;
    }

    /** `deckNameFeedbackUnsubscribe`: drops the consumer, unsubscribing the
        name path and the key when it was the last. */
    method NameUnsubscribe(deck: int, consumer: string)
      requires Valid()
      modifies this`nameSubs, this`remote
      ensures Valid()
      ensures var r := Release(old(nameSubs), deck, consumer);
        nameSubs == r.0 && remote == old(remote) + (if r.1 then [UnsubscribePath(DeckPath(deck, DeckName))] else [])
    {
      var r := Release(nameSubs, deck, consumer);
      if r.1 {
        DemandShrinks(selectedSubs.Keys, nameSubs.Keys, deck);
        ActivePathsSnoc(remote, UnsubscribePath(DeckPath(deck, DeckName)));
        remote := remote + [UnsubscribePath(DeckPath(deck, DeckName))];
      }
      nameSubs := r.0;
    }

    /////////////////////////////////////////////////
    // Reload on a new composition snapshot
    /////////////////////////////////////////////////

    /** A subscribe of `p` when `registered`, nothing otherwise. */
    method SubscribeIf(registered: bool, p: Path)
      modifies this`remote
      ensures remote == old(remote) + (if registered then [SubscribePath(p)] else [])
    {
      if registered {
        remote := remote + [SubscribePath(p)];
      }
    }

    /** A notice when `cond`, nothing otherwise. */
    method MarkIf(cond: bool, n: Notice)
      modifies this`notices
      ensures notices == old(notices) + (if cond then [n] else [])
    {
      if cond {
        notices := notices + [n];
      }
    }

    /** The body of `initConnectedFromComposition`'s loop for the deck at
        1-based `deck`: its two paths unsubscribed, the registered ones
        subscribed again, and the tracked state updated. */
    method ReloadDeck(deck: int, state: DeckState)
      modifies this`remote, this`selectedDeck, this`selectedDeckName, this`lastDeck
      ensures remote == old(remote) + ResetCalls(DeckPathsAt(deck), Demanded())
      ensures Globals() == ReloadDeckStep(old(Globals()), deck, state)
    {
      var selected, name := DeckPath(deck, DeckSelected), DeckPath(deck, DeckName);
      remote := remote + [UnsubscribePath(selected), UnsubscribePath(name)];
      SubscribeIf(deck in selectedSubs, selected);
      SubscribeIf(deck in nameSubs, name);
      if IsSelected(state) {
        selectedDeck := Some(deck);
        selectedDeckName := state.name;
      }
      lastDeck := Some(deck);
      DemandHas(selectedSubs.Keys, nameSubs.Keys, deck);
      ResetTwo(old(remote), selected, name, Demanded(), deck in selectedSubs, deck in nameSubs);
    }

    /** The loop of `initConnectedFromComposition` over a deck list. */
    method ReloadDecks(ds: seq<DeckState>)
      modifies this`remote, this`selectedDeck, this`selectedDeckName, this`lastDeck
      ensures remote == old(remote) + SweepCalls(DeckPathsAt, |ds|, Demanded())
      ensures Globals() == Reloaded(old(Globals()), Some(ds))
    {
      selectedDeck := None;
      var i := 0;
      while i < |ds|
        invariant i <= |ds|
        invariant remote == old(remote) + SweepCalls(DeckPathsAt, i, Demanded())
        invariant Globals() == Reloaded(old(Globals()), Some(ds[..i]))
      {
        ghost var prev := remote;
        ReloadDeck(i + 1, ds[i]);
        SweepStep(old(remote), prev, DeckPathsAt, i, Demanded());
        ReloadedStep(old(Globals()), ds, i);
        i := i + 1;
      }
      assert ds[..i] == ds;
    }

    /** `initConnectedFromComposition`: with a deck list, every deck's paths
        are reset to what the registries demand and the tracked state
        recomputed; then the dirty marks. The remote side stays in line with
        the registries. */
    method InitConnectedFromComposition(decks: Option<seq<DeckState>>)
      requires Valid()
      modifies this`remote, this`selectedDeck, this`selectedDeckName, this`lastDeck, this`notices
      ensures Valid()
      ensures Globals() == Reloaded(old(Globals()), decks)
      ensures remote == old(remote) + DecksSweep(decks, Demanded())
      ensures notices == old(notices) + ReloadNotices(|selectedSubs| > 0, |nameSubs| > 0)
    {
      if decks.Some? {
        ReloadDecks(decks.value);
        SweepKeepsSynced(old(remote), DeckPathsAt, |decks.value|, Demanded());
      }
      ReloadMarks(|selectedSubs| > 0, |nameSubs| > 0);
    }

    /** The dirty marks that close a reload. */
    method ReloadMarks(selected: bool, named: bool)
      modifies this`notices
      ensures notices == old(notices) + ReloadNotices(selected, named)
    {
      MarkIf(selected, MarkDirty(["deckSelected"]));
      MarkIf(named, MarkDirty(["deckName"]));
      notices := notices + [MarkDirty(Summaries)];
    }

    /** The first step of `messageUpdates`: the first update that finds a
        composition, and every composition update that does, reloads it. */
    method ReloadOnUpdate(isComposition: bool, snap: Option<Snapshot>)
      requires Valid()
      modifies this`initialLoadDone, this`remote, this`selectedDeck, this`selectedDeckName, this`lastDeck, this`notices
      ensures Valid()
      ensures initialLoadDone == (old(initialLoadDone) || snap.Some?)
      ensures var reload := (isComposition || !old(initialLoadDone)) && snap.Some?;
        && Globals() == (if reload then Reloaded(old(Globals()), DecksOf(snap)) else old(Globals()))
        && remote == old(remote) + (if reload then DecksSweep(DecksOf(snap), Demanded()) else [])
        && notices == old(notices) + (if reload then ReloadNotices(|selectedSubs| > 0, |nameSubs| > 0) else [])
    {
      if isComposition || !initialLoadDone {
        if snap.Some? {
          InitConnectedFromComposition(snap.value.decks);
          initialLoadDone := true;
        }
      }
    }

    /** The second step of `messageUpdates`: the update's own effects, read
        against the parameter cache. */
    method Dispatch(update: Update, cache: Cache)
      modifies this`selectedDeck, this`selectedDeckName, this`notices
      ensures Globals() == Dispatched(old(Globals()), update, cache)
      ensures notices == old(notices) + DispatchNotices(update, cache, nameSubs.Keys, selectedSubs.Keys)
    {
      if update.path.Some? && update.path.value.DeckPath? && update.path.value.deck >= 0 {
        var deck := update.path.value.deck;
        if update.path.value.deckSignal == DeckName {
          MarkIf(deck in nameSubs, MarkDirty(["deckName"]));
        } else {
          ghost var start := notices;
          if CachedSelected(cache, deck) {
            selectedDeck := Some(deck);
            selectedDeckName := StringAt(cache, DeckPath(deck, DeckName));
            notices := notices + [SetVariable("selectedDeck", VarInt(deck))];
          }
          MarkIf(deck in selectedSubs, MarkDirty(["deckSelected"]));
          notices := notices + [MarkDirty(Summaries)];
          assert notices == start + notices[|start|..];
        }
      }
    }

    /** `messageUpdates`: the reload when one is due, then the update's own
        effects, which see the tracked state as the reload left it. */
    method MessageUpdates(update: Update, isComposition: bool, snap: Option<Snapshot>, cache: Cache)
      requires Valid()
      modifies this`initialLoadDone, this`remote, this`selectedDeck, this`selectedDeckName, this`lastDeck, this`notices
      ensures Valid()
      ensures initialLoadDone == (old(initialLoadDone) || snap.Some?)
      ensures var reload := (isComposition || !old(initialLoadDone)) && snap.Some?;
        var g := if reload then Reloaded(old(Globals()), DecksOf(snap)) else old(Globals());
        && Globals() == Dispatched(g, update, cache)
        && remote == old(remote) + (if reload then DecksSweep(DecksOf(snap), Demanded()) else [])
        && notices == old(notices)
                      + (if reload then ReloadNotices(|selectedSubs| > 0, |nameSubs| > 0) else [])
                      + DispatchNotices(update, cache, nameSubs.Keys, selectedSubs.Keys)
    {
      ReloadOnUpdate(isComposition, snap);
      Dispatch(update, cache);
    }

    /////////////////////////////////////////////////
    // Stepping and name callbacks
    /////////////////////////////////////////////////

    /** `calculateNextDeck`, with the selected deck held as a number. */
    function NextDeck(add: int): (r: int)
      reads this`selectedDeck, this`lastDeck
      requires selectedDeck.Some? && lastDeck.Some?
      ensures var cur, last := selectedDeck.value, lastDeck.value;
        1 <= cur <= last && 0 <= add <= last ==> 1 <= r <= last && r == (cur - 1 + add) % last + 1
    {
      var cur, last := selectedDeck.value, lastDeck.value;
      if 1 <= cur <= last && 0 <= add <= last then
        NextIsCyclic(cur, add, last);
        Next(cur, add, last)
      else Next(cur, add, last)
    }

    /** `calculatePreviousDeck`, with the selected deck held as a number. */
    function PreviousDeck(sub: int): (r: int)
      reads this`selectedDeck, this`lastDeck
      requires selectedDeck.Some? && lastDeck.Some?
      ensures var cur, last := selectedDeck.value, lastDeck.value;
        1 <= cur <= last && 0 <= sub <= last ==> 1 <= r <= last && r == (cur - 1 - sub) % last + 1
    {
      var cur, last := selectedDeck.value, lastDeck.value;
      if 1 <= cur <= last && 0 <= sub <= last then
        PreviousIsCyclic(cur, sub, last);
        Previous(cur, sub, last)
      else Previous(cur, sub, last)
    }

    /** `deckSelectedNameFeedbackCallback`: `{}` without a selected deck,
        otherwise its name on green, the cached one when it is a non-empty
        string and the remembered one otherwise. */
    function SelectedNameFeedback(cache: Cache): (r: Advanced)
      reads this`selectedDeck, this`selectedDeckName
      ensures r == Empty <==> selectedDeck.None?
      ensures r.Styled? ==> r.bgcolor == Some(Green) && r.color == Some(Black)
      ensures r.Styled? ==> var cached := StringAt(cache, DeckPath(selectedDeck.value, DeckName));
        && (cached.Some? && cached.value != "" ==> r.text == cached)
        && (!(cached.Some? && cached.value != "") ==> r.text == selectedDeckName)
    {
      if selectedDeck.None? then Empty
      else Styled(SelectedText(StringAt(cache, DeckPath(selectedDeck.value, DeckName)), selectedDeckName), Some(Green), Some(Black))
    }

    /** `deckNextNameFeedbackCallback`: the cached name of the deck `add` on
        from the selected one, untemplated; `{}` when the selected or last
        deck is unknown. */
    function NextNameFeedback(cache: Cache, add: int): (r: Advanced)
      reads this`selectedDeck, this`lastDeck
      ensures r == Empty <==> selectedDeck.None? || lastDeck.None?
      ensures r.Styled? ==> r == NameFeedback(cache, NextDeck(add))
    {
      if selectedDeck.Some? && lastDeck.Some? then NameFeedback(cache, NextDeck(add)) else Empty
    }

    /** `deckPreviousNameFeedbackCallback`: the same for the deck `sub` back. */
    function PreviousNameFeedback(cache: Cache, sub: int): (r: Advanced)
      reads this`selectedDeck, this`lastDeck
      ensures r == Empty <==> selectedDeck.None? || lastDeck.None?
      ensures r.Styled? ==> r == NameFeedback(cache, PreviousDeck(sub))
    {
      if selectedDeck.Some? && lastDeck.Some? then NameFeedback(cache, PreviousDeck(sub)) else Empty
    }
  }
}
