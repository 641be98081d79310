/**
 * The clip engine's pure projections: the numeric readings with their '?'
 * placeholder, the connected-state colour, the selected and connected
 * callbacks with the variables they publish, the transport-position
 * timecode, and the notifications an incoming update triggers.
 */
module ClipFeedback {
  import opened Wrappers
  import opened Text
  import opened Paths
  import opened Host
  import opened Composition
  import opened Timecode
  import opened Results

  /** A numeric feedback: the value shown, or the '?' placeholder. */
  datatype Reading = Placeholder | Shown(amount: real)

  /** `setVolumeFeedback` / `setOpacityFeedback`: shown when a value is present. */
  function ShowIfPresent(v: Option<real>): Reading
  {
    if v.Some? then Shown(v.value) else Placeholder
  }

  /** `clipVolumeFeedbackCallback`, with the REST fallback read as absent:
      a '?' for a zero coordinate or an absent value. */
  function VolumeReading(cache: Cache, layer: int, column: int): (r: Reading)
    ensures r.Shown? <==> layer != 0 && column != 0 && NumberAt(cache, ClipPath(ClipId(layer, column), Volume)).Some?
    ensures r.Shown? ==> r.amount == NumberAt(cache, ClipPath(ClipId(layer, column), Volume)).value
  {
    if layer == 0 || column == 0 then Placeholder
    else ShowIfPresent(NumberAt(cache, ClipPath(ClipId(layer, column), Volume)))
  }

  /** `clipOpacityFeedbackCallback`, with the REST fallback read as absent. */
  function OpacityReading(cache: Cache, layer: int, column: int): (r: Reading)
    ensures r.Shown? <==> layer != 0 && column != 0 && NumberAt(cache, ClipPath(ClipId(layer, column), Opacity)).Some?
    ensures r.Shown? ==> r.amount == NumberAt(cache, ClipPath(ClipId(layer, column), Opacity)).value
  {
    if layer == 0 || column == 0 then Placeholder
    else ShowIfPresent(NumberAt(cache, ClipPath(ClipId(layer, column), Opacity)))
  }

  /** `setSpeedFeedback`: a speed is shown only for a valid clip. */
  function SpeedShown(speed: Option<real>, layer: int, column: int): (r: Reading)
    ensures r.Shown? <==> speed.Some? && ClipId(layer, column).IsValid()
    ensures r.Shown? ==> r.amount == speed.value
  {
    if speed.Some? && ClipId(layer, column).IsValid() then Shown(speed.value) else Placeholder
  }

  /** `clipSpeedFeedbackCallback`, with the REST fallback read as absent. */
  function SpeedReading(cache: Cache, layer: int, column: int): (r: Reading)
    ensures r.Shown? <==> ClipId(layer, column).IsValid() && NumberAt(cache, ClipPath(ClipId(layer, column), Speed)).Some?
    ensures r.Shown? ==> r.amount == NumberAt(cache, ClipPath(ClipId(layer, column), Speed)).value
  {
    if layer == 0 || column == 0 then Placeholder
    else SpeedShown(NumberAt(cache, ClipPath(ClipId(layer, column), Speed)), layer, column)
  }

  /** The colours a connected-clip feedback is configured with. */
  datatype ConnectedColors = ConnectedColors(connectedSelected: int, connected: int, connectedPreview: int, preview: int)

  /** Which branch of the connect-state `switch` is taken. */
  datatype Shade = ConnectedSelectedShade | ConnectedShade | ConnectedPreviewShade | PreviewShade | NoShade

  /** The `switch` on the connect state, first match wins: "Connected" (with
      the selected colour when the clip is also selected), then "Connected &
      previewing", then "Previewing", else none. */
  function ShadeOf(state: Option<Value>, selected: Option<Value>): (r: Shade)
    ensures r == ConnectedSelectedShade <==> state == Some(StrVal("Connected")) && Truthy(selected)
    ensures r == ConnectedShade <==> state == Some(StrVal("Connected")) && !Truthy(selected)
    ensures r == ConnectedPreviewShade <==> state == Some(StrVal("Connected & previewing"))
    ensures r == PreviewShade <==> state == Some(StrVal("Previewing"))
  {
    if state == Some(StrVal("Connected")) then
      if Truthy(selected) then ConnectedSelectedShade else ConnectedShade
    else if state == Some(StrVal("Connected & previewing")) then ConnectedPreviewShade
    else if state == Some(StrVal("Previewing")) then PreviewShade
    else NoShade
  }

  function ShadeColor(shade: Shade, colors: ConnectedColors): int
  {
    match shade
    case ConnectedSelectedShade => colors.connectedSelected
    case ConnectedShade => colors.connected
    case ConnectedPreviewShade => colors.connectedPreview
    case PreviewShade => colors.preview
    case NoShade => Black
  }

  /** `connectedState?.toLowerCase().includes('preview')`. */
  predicate MarksPreview(state: Option<Value>)
  {
    state.Some? && state.value.StrVal? && Includes(ToLower(state.value.s), "preview")
  }

  /** The lowered characters of `s` spell "preview" from position `i`. */
  predicate SpellsPreview(s: string, i: int)
  {
    0 <= i && i + 7 <= |s| && forall k :: 0 <= k < 7 ==> LowerChar(s[i + k]) == "preview"[k]
  }

  /** A string connect state marks a preview exactly when "preview" occurs
      in it case-insensitively, at some position. */
  lemma MarksPreviewExactly(s: string)
    ensures MarksPreview(Some(StrVal(s))) <==> exists i :: SpellsPreview(s, i)
  {
    var low := ToLower(s);
    if MarksPreview(Some(StrVal(s))) {
      var i :| 0 <= i <= |low| - 7 && OccursAt(low, "preview", i);
      forall k | 0 <= k < 7
        ensures LowerChar(s[i + k]) == "preview"[k]
      {
        assert low[i..i + 7][k] == low[i + k];
      }
      assert SpellsPreview(s, i);
    }
    if exists i :: SpellsPreview(s, i) {
      var i :| SpellsPreview(s, i);
      IncludesLowered(s, i, "preview");
    }
  }

  lemma PreviewingMarksPreview()
    ensures MarksPreview(Some(StrVal("Previewing")))
  {
    IncludesLowered("Previewing", 0, "preview");
  }

  lemma ConnectedPreviewingMarksPreview()
    ensures MarksPreview(Some(StrVal("Connected & previewing")))
  {
    IncludesLowered("Connected & previewing", 12, "preview");
  }

  lemma ConnectedDoesNotMarkPreview()
    ensures !MarksPreview(Some(StrVal("Connected")))
  {
    NotIncludesLowered("Connected", "preview");
  }

  /** The colour and the previewed-clip variables agree: both preview colours
      come with the previewed-clip update, the two connected colours never do. */
  lemma ShadeAgreesWithPreview(state: Option<Value>, selected: Option<Value>)
    ensures ShadeOf(state, selected) in {ConnectedPreviewShade, PreviewShade} ==> MarksPreview(state)
    ensures ShadeOf(state, selected) in {ConnectedSelectedShade, ConnectedShade} ==> !MarksPreview(state)
  {
    PreviewingMarksPreview();
    ConnectedPreviewingMarksPreview();
    ConnectedDoesNotMarkPreview();
  }

  /** The name variable: the name, or unset when there is none. */
  function NameVar(name: Option<string>): VarValue
  {
    if name.Some? then VarText(name.value) else VarUnset
  }

  /** The previewed-clip variables and the re-check of the other clip feedbacks. */
  function PreviewNotices(layer: int, column: int, name: Option<string>): seq<Notice>
  {
    [ SetVariable("previewedClip", VarClip(layer, column, name)),
      SetVariable("previewedClipLayer", VarInt(layer)),
      SetVariable("previewedClipColumn", VarInt(column)),
      SetVariable("previewedClipName", NameVar(name)),
      CheckOtherClipFeedbacks("connectedClip", false) ]
  }

  /** `clipConnectedFeedbackCallback`: the background colour of the connect
      state, and the previewed-clip update whenever that state mentions a preview. */
  function ConnectedCallback(cache: Cache, layer: int, column: int, colors: ConnectedColors): (r: (int, seq<Notice>))
    ensures var state := ValueAt(cache, ClipPath(ClipId(layer, column), Connect));
      var selected := ValueAt(cache, ClipPath(ClipId(layer, column), Select));
      && r.0 == ShadeColor(ShadeOf(state, selected), colors)
      && (r.1 != [] <==> MarksPreview(state))
      && (r.1 != [] ==> r.1 == PreviewNotices(layer, column, StringAt(cache, ClipPath(ClipId(layer, column), Name))))
  {
    var id := ClipId(layer, column);
    var state := ValueAt(cache, ClipPath(id, Connect));
    var notices := if MarksPreview(state) then PreviewNotices(layer, column, StringAt(cache, ClipPath(id, Name))) else [];
    (ShadeColor(ShadeOf(state, ValueAt(cache, ClipPath(id, Select))), colors), notices)
  }

  /** The selected-clip variables and the re-check of the other clip and layer feedbacks. */
  function SelectedNotices(layer: int, column: int, name: Option<string>): seq<Notice>
  {
    [ SetVariable("selectedClip", VarClip(layer, column, name)),
      SetVariable("selectedClipLayer", VarInt(layer)),
      SetVariable("selectedClipColumn", VarInt(column)),
      SetVariable("selectedClipName", NameVar(name)),
      CheckOtherClipFeedbacks("selectedClip", true) ]
  }

  /** `clipSelectedFeedbackCallback`: whether the clip is selected, publishing
      the selected-clip variables exactly when it is. */
  function SelectedCallback(cache: Cache, layer: int, column: int): (r: (bool, seq<Notice>))
    ensures r.0 <==> Truthy(ValueAt(cache, ClipPath(ClipId(layer, column), Select)))
    ensures r.1 != [] <==> r.0
    ensures r.0 ==> r.1 == SelectedNotices(layer, column, StringAt(cache, ClipPath(ClipId(layer, column), Name)))
  {
    var id := ClipId(layer, column);
    var selected := Truthy(ValueAt(cache, ClipPath(id, Select)));
    (selected, if selected then SelectedNotices(layer, column, StringAt(cache, ClipPath(id, Name))) else [])
  }

  const Unknown := Rendered("?", None)

  /** `clipTransportPositionFeedbackCallback`: the timecode view of the
      clip's position, or '?' when the clip is invalid, the parameter, its
      value or its maximum is missing, or the view is unknown. */
  function TransportPosition(cache: Cache, layer: int, column: int, view: string, remaining: bool): (r: Rendered)
    ensures var p := ClipPath(ClipId(layer, column), Position);
      var param := Lookup(cache, p);
      var value := NumberAt(cache, p);
      if ClipId(layer, column).IsValid() && param.Some? && param.value.max.Some? && value.Some? && ViewOf(view).Some? then
        r == RenderView(ViewOf(view).value, value.value, ScaledTime(value.value, param.value.max.value, remaining), remaining)
      else r == Unknown
  {
    var p := ClipPath(ClipId(layer, column), Position);
    var param := Lookup(cache, p);
    var value := NumberAt(cache, p);
    if ClipId(layer, column).IsValid() && view != "" && param.Some? && param.value.max.Some? && value.Some? then
      match ViewOf(view)
      case Some(v) => RenderView(v, value.value, ScaledTime(value.value, param.value.max.value, remaining), remaining)
      case None => Unknown
    else Unknown
  }

  /** The path matches `messageUpdates`' pattern for `signal`: digits for both
      coordinates, and the pattern found in it. The position pattern is a
      prefix of the speed path, so a speed update matches both. */
  predicate Matches(p: Path, signal: ClipSignal)
  {
    && p.ClipPath? && p.clip.layer >= 0 && p.clip.column >= 0
    && (p.clipSignal == signal || (signal == Position && p.clipSignal == Speed))
  }

  /** The dirty mark of a connect update: only for a registered clip. */
  function ConnectNotices(p: Path, connected: set<ClipId>): (r: seq<Notice>)
    requires p.ClipPath?
    ensures MarkDirty(["connectedClip"]) in r <==> Matches(p, Connect) && p.clip in connected
    ensures forall n :: n in r ==> n.MarkDirty?
  {
    if Matches(p, Connect) && p.clip in connected then [MarkDirty(["connectedClip"])] else []
  }

  /** The dirty marks of a select update, each only for a registered clip,
      and the selected-clip variables whenever the value is `true`. */
  function SelectNotices(p: Path, value: Option<Value>, connected: set<ClipId>, selected: set<ClipId>): (r: seq<Notice>)
    requires p.ClipPath?
    ensures MarkDirty(["selectedClip"]) in r <==> Matches(p, Select) && p.clip in selected
    ensures MarkDirty(["connectedClip"]) in r <==> Matches(p, Select) && p.clip in connected
    ensures SetVariable("selectedClip", VarClip(p.clip.layer, p.clip.column, None)) in r
      <==> Matches(p, Select) && value == Some(BoolVal(true))
    ensures forall n :: n in r ==> n.MarkDirty? || (n.SetVariable? && value == Some(BoolVal(true)))
    ensures r != [] ==> Matches(p, Select)
  {
    if !Matches(p, Select) then []
    else
      (if p.clip in selected then [MarkDirty(["selectedClip"])] else [])
      + (if p.clip in connected then [MarkDirty(["connectedClip"])] else [])
      + (if value == Some(BoolVal(true)) then
           [ SetVariable("selectedClip", VarClip(p.clip.layer, p.clip.column, None)),
             SetVariable("selectedClipLayer", VarInt(p.clip.layer)),
             SetVariable("selectedClipColumn", VarInt(p.clip.column)) ]
         else [])
  }

  /** The re-checks of the name, speed, opacity, volume and position feedbacks. */
  function CheckNotices(p: Path): (r: seq<Notice>)
    ensures forall n :: n in r ==> n.CheckFeedbacks?
  {
    (if Matches(p, Name) then [CheckFeedbacks(["clipInfo"])] else [])
    + (if Matches(p, Speed) then [CheckFeedbacks(["clipSpeed"])] else [])
    + (if Matches(p, Opacity) then [CheckFeedbacks(["clipOpacity"])] else [])
    + (if Matches(p, Volume) then [CheckFeedbacks(["clipVolume"])] else [])
    + (if Matches(p, Position) then [CheckFeedbacks(["clipTransportPosition"])] else [])
  }

  /** The notifications of `messageUpdates` for one update: dirty marks only
      for registered clips, the selected-clip variables on every `true`
      select, and the re-checks by pattern. */
  function DispatchNotices(update: Update, connected: set<ClipId>, selected: set<ClipId>): (r: seq<Notice>)
    ensures update.path.Some? && Matches(update.path.value, Connect) ==>
      (MarkDirty(["connectedClip"]) in r <==> update.path.value.clip in connected)
    ensures update.path.Some? && Matches(update.path.value, Select) ==>
      && (MarkDirty(["selectedClip"]) in r <==> update.path.value.clip in selected)
      && (MarkDirty(["connectedClip"]) in r <==> update.path.value.clip in connected)
      && (update.value == Some(BoolVal(true)) <==>
          SetVariable("selectedClip", VarClip(update.path.value.clip.layer, update.path.value.clip.column, None)) in r)
    ensures forall n :: n in r && n.MarkDirty? ==>
      update.path.Some? && (Matches(update.path.value, Connect) || Matches(update.path.value, Select))
    ensures forall n :: n in r && n.SetVariable? ==>
      update.path.Some? && Matches(update.path.value, Select) && update.value == Some(BoolVal(true))
  {
    if update.path.None? || !update.path.value.ClipPath? then []
    else
      var p := update.path.value;
      ConnectNotices(p, connected) + SelectNotices(p, update.value, connected, selected) + CheckNotices(p)
  }
}
