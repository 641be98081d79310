# Resolume Arena companion module: subscription engines

This project models the three subscription engines of the Resolume Arena
companion module in Dafny and proves properties of them:

- `ClipUtils` tracks clips, addressed by 1-based layer and column.
- `ColumnUtils` tracks columns of the composition.
- `DeckUtils` tracks decks of the composition.

Each engine does four things.

1. **It keeps reference-counted registries.** Each maps an entity's key to
   the set of feedback consumers that watch it. A key is present exactly
   while it has a consumer.
2. **It gates calls to the remote websocket.** A path or parameter id is
   subscribed when its key goes from no consumer to one, and unsubscribed
   when the last consumer leaves.
3. **It reloads on every composition snapshot.** The engine walks the
   snapshot (0-based) and addresses entities 1-based. It re-issues exactly
   the subscriptions its registries demand. It also recomputes the tracked
   entities: the selected and connected column, the selected deck and its
   name, and the last column or deck.
4. **It projects cached parameter values into feedback results.** These
   include:
   - the connected-clip colour;
   - the `?` placeholder for an absent value;
   - the clip transport-position timecode;
   - the `#` templating of column names;
   - the single-wrap next and previous column and deck.

How the model represents the system:

- Each engine is a class with the source's fields. The registries are
  `map` fields, and the numeric id sets are `set` fields.
- Calls on the websocket are appended to a ghost log, `remote`. The paths
  it leaves subscribed are obtained by replaying the log (`Remote.ActivePaths`).
- Host callbacks (dirty marks, forced re-checks, published variables) are
  appended to a second ghost log, `notices`.
- The composition snapshot and the parameter cache are passed in as values.

Each engine's class invariant `Valid()` states that the remote side holds
exactly the paths its registries demand. Every operation keeps it.

Modules, in dependency order:

| module | file | contents |
|---|---|---|
| `Wrappers` | `wrappers.dfy` | `Option` |
| `Text` | `text.dfy` | decimal rendering and parsing, zero padding, first-`#` replacement, lower-casing |
| `Paths` | `paths.dfy` | clip ids and the structured websocket paths |
| `Remote`, `Host` | `remote.dfy` | the call and notice logs, and the replay of the remote state |
| `Registry` | `registry.dfy` | the reference-counted registry |
| `Composition` | `composition.dfy` | the snapshot, the parameter cache, JavaScript truthiness |
| `Results` | `results.dfy` | colours, advanced feedback results, name templates |
| `Navigation` | `navigation.dfy` | single-wrap stepping |
| `Sweep` | `sweep.dfy` | the column and deck reload sweep |
| `Timecode` | `timecode.dfy` | the timecode decomposition and its views |
| `ClipReload` | `clipreload.dfy` | what the clip reload loops send |
| `ClipFeedback` | `clipfeedback.dfy` | the clip projections and the notices of an update |
| `Clips` | `clips.dfy` | the `ClipUtils` class |
| `Columns` | `columns.dfy` | the `ColumnUtils` class |
| `Decks` | `decks.dfy` | the `DeckUtils` class |

## Model

| member | source | states |
|---|---|---|
| Registry.Acquire | src/domain/columns/column-util.ts:136-142 | Adding a consumer puts it in its key's set and leaves every other key alone. The subscribe flag is raised exactly when the key was absent, so a second consumer, or the same one again, makes no remote call. No empty consumer set is created. |
| Registry.Release | src/domain/columns/column-util.ts:148-157 | Removing a consumer takes it out of its key's set. The unsubscribe flag is raised, and the key dropped, exactly when the set becomes empty. An absent key is a no-op. No empty consumer set persists. |
| Registry.ReplayHolders | src/domain/columns/column-util.ts:134-159 | After any sequence of adds and removes, the registry holds exactly the consumers currently added. A key is present exactly when it has one, so no empty set persists. The reference is set arithmetic on the call history. |
| Registry.StepTransition | src/domain/columns/column-util.ts:138-140 | A call raises its remote-call flag exactly when it moves its key between "no consumers" and "some consumers". An add raises it only on 0 -> 1, a remove only on N -> 0. |
| Registry.TwoConsumerScenario | src/domain/columns/column-util.ts:134-159 | Two consumers on one key make one subscribe when the first arrives and one unsubscribe when the last leaves. Nothing happens in between, and the key is gone at the end. |
| Paths.ClipIdRoundTrip | src/domain/clip/clip-utils.ts:222-224 | Decoding a clip's registry key (`ClipId.fromId`) gives back the clip, so the reload loops over the keys address the registered clips. |
| Paths.IdStringInjective | src/domain/clip/clip-utils.ts:53-55 | Distinct clips have distinct registry keys, so keying by the id string is keying by the clip. |
| Text.NatToString | src/domain/columns/column-util.ts:137 | A number's decimal text is a non-empty string of digits, without a leading zero. |
| Text.ParseNatToString | src/domain/columns/column-util.ts:35-36 | Reading a natural number's digits back gives the number, so a captured column number matches the key its registration stored. |
| Text.IntToString | src/domain/columns/column-util.ts:137 | An integer's text is non-empty. It starts with '-' exactly for negatives, and is otherwise digits. |
| Text.ParseIntToString | src/domain/columns/column-util.ts:137 | Parsing an integer's text gives back the integer. |
| Text.IntToStringInjective | src/domain/columns/column-util.ts:137 | Distinct numbers have distinct texts, so keying a registry by `column.toString()` is keying it by the column. |
| Text.Pad2 | src/domain/clip/clip-utils.ts:713 | Zero padding to two places gives digits that read back as the number. The result is two long below 100, and is the plain text from 10 on. |
| Text.FirstIndex | src/domain/columns/column-util.ts:129 | The result is the position of the first occurrence of the character, or the length when it does not occur. |
| Text.ReplaceFirstSpec | src/domain/columns/column-util.ts:129 | Only the first occurrence of the pattern character is replaced. A string without it is unchanged. |
| Text.ToLower | src/domain/clip/clip-utils.ts:532 | Lower-casing maps A-Z to a-z, character by character, keeping the length. This is weaker than JavaScript's Unicode case mapping; see Left out. |
| Text.IncludesLowered | src/domain/clip/clip-utils.ts:532 | A pattern is found in the lowered text wherever the lowered characters spell it. |
| Text.NotIncludesLowered | src/domain/clip/clip-utils.ts:532 | A pattern whose first character never appears in the lowered text is not found. |
| Results.CombineRgb | src/domain/columns/column-util.ts:208-209 | A packed colour fits in 24 bits. |
| Results.CombineRgbChannels | src/domain/columns/column-util.ts:208-209 | The red, green and blue bytes read back from the packed colour, red highest. |
| Results.Template | src/domain/columns/column-util.ts:129 | The first `#` of a name becomes the column number. The text before and after it is kept, and a name without `#` is shown as it is. |
| Results.TemplateIfPresent | src/domain/columns/column-util.ts:207 | An absent name stays absent, and a present one is templated. |
| Composition.Truthy | src/domain/clip/clip-utils.ts:573 | JavaScript truthiness: exactly `undefined`, `false`, `0` and the empty string are falsy. |
| Composition.ClipAt | src/domain/clip/clip-utils.ts:251-262 | The clip lookup finds a clip exactly when the snapshot, its layers, the layer's clips and the column all exist. The clip found is the one at the 1-based coordinates. |
| Composition.LastWhere | src/domain/columns/column-util.ts:99-101 | The result is the 1-based position of the last element that satisfies the predicate, with none after it. It is absent exactly when no element satisfies it. |
| Navigation.Next | src/domain/columns/column-util.ts:233-241 | Within one lap (`1 <= cur <= last`, `0 <= add <= last`), the step forward stays in `[1, last]`. |
| Navigation.Previous | src/domain/columns/column-util.ts:261-269 | Within one lap, the step back stays in `[1, last]`. |
| Navigation.NextIsCyclic | src/domain/columns/column-util.ts:233-241 | Within one lap, the single wrap forward equals the cyclic successor `(cur - 1 + add) mod last + 1`. |
| Navigation.PreviousIsCyclic | src/domain/columns/column-util.ts:261-269 | Within one lap, the single wrap back equals the cyclic predecessor `(cur - 1 - sub) mod last + 1`. |
| Navigation.PreviousUndoesNext | src/domain/columns/column-util.ts:233-269 | Within one lap, stepping back by `k` undoes stepping forward by `k`, and the other way round. |
| Navigation.WrapExamples | src/domain/columns/column-util.ts:233-269 | With eight columns, three on from the eighth is the third, and two back from the first is the seventh. |
| Navigation.SingleWrapOnly | src/domain/columns/column-util.ts:235-236 | The wrap is applied once, not as a modulo: twenty on from the first of eight is thirteen. |
| Remote.ReconcileMembers | src/domain/columns/column-util.ts:84-98 | After reconciling, a touched path is subscribed exactly when it is demanded, and any other path keeps its state. |
| Remote.ReconcileIdempotent | src/domain/columns/column-util.ts:84-98 | Reconciling twice against the same demand is the same as reconciling once. |
| Remote.ReconcileKeeps | src/domain/columns/column-util.ts:84-98 | A remote side already in line with the demand is left as it is. |
| Remote.ParamCallsKeepPaths | src/domain/clip/clip-utils.ts:324-335 | Subscribing and unsubscribing numeric parameter ids never changes the path subscriptions. |
| Sweep.ResetOutcome | src/domain/columns/column-util.ts:85-98 | Unsubscribing an entity's paths, then resubscribing the demanded ones, settles exactly those paths on the demand. |
| Sweep.SweepOutcome | src/domain/columns/column-util.ts:82-106 | A reload sweep over the indices `1..n` settles every path it touches on the demand and leaves the rest alone. |
| Sweep.SweepSettles | src/domain/deck/deck-util.ts:61-79 | Whatever the remote side held before, after a sweep each swept path is subscribed exactly when it is demanded. |
| Sweep.SweepKeepsSynced | src/domain/deck/deck-util.ts:61-79 | A remote side in line with the registries stays in line through a sweep. |
| Timecode.Decompose | src/domain/clip/clip-utils.ts:703-707 | The hours, minutes, seconds and sub-seconds are the floored magnitudes of what is left once the larger units are taken off, and a frame is two sub-seconds. Its meaning is stated by `Timecode.DecomposeExact`. |
| Timecode.DecomposeExact | src/domain/clip/clip-utils.ts:703-707 | For a non-negative time, `hours*216000 + minutes*3600 + seconds*60 + subSeconds` equals its floor. Minutes, seconds and sub-seconds are each below 60, and `frames = subSeconds div 2`, which is below 30. |
| Timecode.DecomposeBounds | src/domain/clip/clip-utils.ts:703-707 | Every timecode component is below its radix. |
| Timecode.QuotRem | src/domain/clip/clip-utils.ts:703-706 | Taking off the whole hours, minutes or seconds leaves less than one of them. Fewer than 60 of them fit below the next larger unit. |
| Timecode.ViewOf | src/domain/clip/clip-utils.ts:709-768 | The ten view option values select their views; any other value selects none, and the result is '?'. A known value is the name of the view it selects. |
| Timecode.ViewNamesSelect | src/domain/clip/clip-utils.ts:709-768 | Every view is selected by its own name, so the option values and the views correspond one to one. |
| Timecode.RenderView | src/domain/clip/clip-utils.ts:709-768 | The text and font size of each known view. What the texts mean is stated by the read-back lemmas below. |
| Timecode.TenthsText | src/domain/clip/clip-utils.ts:711 | The tenths text has one decimal after a point, and its digits read back as the number of tenths. |
| Timecode.SingleViewsReadBack | src/domain/clip/clip-utils.ts:712-721 | The frames, seconds and minutes views are two zero-padded digits that read back as their component. Hours are two digits below 100. The direction glyph is '-' exactly when counting down. |
| Timecode.TimestampReadsBack | src/domain/clip/clip-utils.ts:735-745 | The timestamp view is hours, minutes and seconds between colons, each reading back as its component, after a '-' exactly when counting down. |
| Timecode.TimestampFrameReadsBack | src/domain/clip/clip-utils.ts:722-733 | The timestamp-with-frames view reads back as hours, minutes and seconds between colons, then ": " and the frames, after a '-' exactly when counting down (below 100 hours). |
| Timecode.FrameNoHoursFolds | src/domain/clip/clip-utils.ts:746-756 | The frames view without hours reads back as `hours*60 + minutes`, a colon, the seconds, ": " and the frames. |
| Timecode.NoHoursFolds | src/domain/clip/clip-utils.ts:757-765 | The views without hours fold the hours into the minutes field as `hours*60 + minutes`, whatever its width, followed by a colon and the seconds. |
| Timecode.CountdownEnd | src/domain/clip/clip-utils.ts:697-707 | At the end of a countdown (value = max), the scaled time is 0.6 and every component is zero. |
| Timecode.CountdownStart | src/domain/clip/clip-utils.ts:697-721 | At the start of a countdown over a range of 100 (value = 0), the scaled time is 6.6: no hours, minutes or seconds, six sub-seconds, so frames "03", and the direction glyph '-'. |
| ClipFeedback.VolumeReading | src/domain/clip/clip-utils.ts:270-295 | A volume is shown exactly when both coordinates are non-zero and a value is cached, and it is the cached value. Otherwise the result is '?'. |
| ClipFeedback.OpacityReading | src/domain/clip/clip-utils.ts:342-369 | An opacity is shown exactly when both coordinates are non-zero and a value is cached, and it is the cached value. Otherwise the result is '?'. |
| ClipFeedback.SpeedShown | src/domain/clip/clip-utils.ts:612-623 | A speed is shown exactly when it is present and the clip id is valid. Otherwise the result is '?'. |
| ClipFeedback.SpeedReading | src/domain/clip/clip-utils.ts:596-623 | A speed is shown exactly for a valid clip with a cached speed, and it is that speed. |
| ClipFeedback.ShadeOf | src/domain/clip/clip-utils.ts:540-553 | The connect-state switch, first match wins. "Connected" with a truthy select gives connected-selected, and without one gives connected. Then "Connected & previewing", then "Previewing". Any other state gives no shade, which is black. Each shade is stated in both directions. |
| ClipFeedback.MarksPreview | src/domain/clip/clip-utils.ts:532 | The previewed-clip test: a string connect state whose lowered text contains "preview". Its meaning for every string is stated by `ClipFeedback.MarksPreviewExactly`. |
| ClipFeedback.MarksPreviewExactly | src/domain/clip/clip-utils.ts:532 | For every string state: it marks a preview exactly when, at some position, its lowered characters spell "preview". |
| ClipFeedback.PreviewingMarksPreview | src/domain/clip/clip-utils.ts:532 | Example: "Previewing" marks a preview. |
| ClipFeedback.ConnectedPreviewingMarksPreview | src/domain/clip/clip-utils.ts:532 | Example: "Connected & previewing" marks a preview. |
| ClipFeedback.ConnectedDoesNotMarkPreview | src/domain/clip/clip-utils.ts:532 | Example: "Connected" does not mark a preview. |
| ClipFeedback.ShadeAgreesWithPreview | src/domain/clip/clip-utils.ts:532-553 | Both preview colours come with the previewed-clip update, and the two connected colours never do. |
| ClipFeedback.ConnectedCallback | src/domain/clip/clip-utils.ts:522-554 | The colour is that of the connect state's shade. The previewed-clip variables and the other clip feedbacks' re-check are issued exactly when the state mentions a preview. |
| ClipFeedback.SelectedCallback | src/domain/clip/clip-utils.ts:568-582 | The result is the truthiness of the cached select value. The selected-clip variables, with the clip's name, are published exactly when it is truthy. |
| ClipFeedback.TransportPosition | src/domain/clip/clip-utils.ts:677-771 | The result is the chosen view of the decomposed time for a valid clip with a cached value and maximum and a known view. Otherwise it is '?'. |
| ClipFeedback.Matches | src/domain/clip/clip-utils.ts:47-90 | A clip path with digit coordinates matches the update pattern of its own signal. The transport-position pattern also matches speed paths, because it is a prefix of them. |
| ClipFeedback.ConnectNotices | src/domain/clip/clip-utils.ts:49-58 | A connect update marks `connectedClip` dirty exactly when the clip is registered for connect. |
| ClipFeedback.SelectNotices | src/domain/clip/clip-utils.ts:59-75 | A select update marks `selectedClip` and `connectedClip` dirty, each exactly when the clip is in that registry. It publishes the selected-clip variables exactly when the value is `true`, whatever the registries hold. |
| ClipFeedback.CheckNotices | src/domain/clip/clip-utils.ts:76-90 | The pattern checks only re-check feedbacks: they never mark anything dirty or publish a variable. |
| ClipFeedback.DispatchNotices | src/domain/clip/clip-utils.ts:48-91 | The notices of one update: dirty marks only for a matching, registered clip, and the selected-clip variables exactly on a `true` select. |
| ClipReload.PathsOfHas | src/domain/clip/clip-utils.ts:114 | A clip's path is demanded exactly when the clip is registered. |
| ClipReload.PathsOfAdd | src/domain/clip/clip-utils.ts:152-154 | Registering a clip adds its path to the demand. |
| ClipReload.PathsOfRemove | src/domain/clip/clip-utils.ts:168-170 | Dropping a clip removes its path from the demand. |
| ClipReload.ClipCallsShape | src/domain/clip/clip-utils.ts:107-139 | For one snapshot clip, the path is subscribed exactly when the clip is registered. The connect reload always unsubscribes it first. The select reload unsubscribes it exactly when the clip is not registered. No other path is touched. |
| ClipReload.ClipCallsOutcome | src/domain/clip/clip-utils.ts:107-139 | One clip's reload calls settle its path on the demand. |
| ClipReload.RowOutcome | src/domain/clip/clip-utils.ts:107-118 | Reloading a layer's clips settles each of their paths on the demand and leaves every other path as it was. |
| ClipReload.LayerOutcome | src/domain/clip/clip-utils.ts:105-119 | A layer without clips gets no calls. Otherwise its clips' paths are settled on the demand. |
| ClipReload.GridOutcome | src/domain/clip/clip-utils.ts:102-121 | Reloading the first `n` layers settles the path of each of their clips on the demand. |
| ClipReload.GridPathsMembers | src/domain/clip/clip-utils.ts:104-108 | The paths a reload touches are exactly the paths of the clips at 1-based coordinates of the snapshot. |
| ClipReload.RowPathsMembers | src/domain/clip/clip-utils.ts:107-108 | A row touches exactly the paths of its 1-based columns. |
| ClipReload.ReloadSettles | src/domain/clip/clip-utils.ts:101-145 | Whatever the remote side held before, after a connect or select reload the path of every snapshot clip is subscribed exactly when the clip is registered. Paths of clips outside the snapshot keep their state. |
| ClipReload.ResolvedIdsAdd | src/domain/clip/clip-utils.ts:222-225 | Registering one more clip adds exactly its truthy parameter id, if it has one, to the resolved ids. |
| ClipReload.SubscribeCallsOnly | src/domain/clip/clip-utils.ts:222-225 | The id resubscriptions make only numeric-id calls. |
| Clips.AcquireWellformed | src/domain/clip/clip-utils.ts:150-156 | Adding a consumer for a valid clip keeps the registry well formed: no empty set, and every key a valid clip. |
| Clips.ReleaseWellformed | src/domain/clip/clip-utils.ts:163-171 | Removing a consumer keeps the registry well formed. |
| Clips.DemandGrows | src/domain/clip/clip-utils.ts:152-154 | Registering a clip in one registry adds exactly that registry's path of the clip to the demand. |
| Clips.DemandShrinks | src/domain/clip/clip-utils.ts:168-170 | Dropping a clip from one registry removes exactly that registry's path of the clip from the demand. |
| Clips.ListsMembers | src/domain/clip/clip-utils.ts:219-221 | An iteration over a set visits each element once: the listing holds the elements of the set and nothing else, and has the set's size. |
| Clips.RefreshKeeps | src/domain/clip/clip-utils.ts:180-181 | Unsubscribing and at once resubscribing a subscribed name path leaves the remote side as it was. |
| Clips.ReloadKeepsDemand | src/domain/clip/clip-utils.ts:101-145 | A connect or select reload keeps a remote side that holds exactly the demanded paths. |
| Clips.ParamReloadKeepsPaths | src/domain/clip/clip-utils.ts:218-249 | The speed, volume and opacity reloads leave the path subscriptions alone. |
| Clips.ClipUtils.constructor | src/domain/clip/clip-utils.ts:15-35 | A fresh engine has empty registries and id sets, no initial load, and empty logs, and satisfies the invariant. |
| Clips.ClipUtils.ConnectedWebsocketSubscribe | src/domain/clip/clip-utils.ts:556-558 | Exactly one subscribe of the clip's connect path is sent. |
| Clips.ClipUtils.ConnectedWebsocketUnsubscribe | src/domain/clip/clip-utils.ts:560-562 | Exactly one unsubscribe of the clip's connect path is sent. |
| Clips.ClipUtils.SelectedWebsocketSubscribe | src/domain/clip/clip-utils.ts:584-586 | Exactly one subscribe of the clip's select path is sent. |
| Clips.ClipUtils.SelectedWebsocketUnsubscribe | src/domain/clip/clip-utils.ts:588-590 | Exactly one unsubscribe of the clip's select path is sent. |
| Clips.ClipUtils.DetailsWebsocketSubscribe | src/domain/clip/clip-utils.ts:493-495 | Exactly one subscribe of the clip's name path is sent. |
| Clips.ClipUtils.DetailsWebsocketUnsubscribe | src/domain/clip/clip-utils.ts:497-499 | Exactly one unsubscribe of the clip's name path is sent. |
| Clips.ClipUtils.TransportPositionWebsocketSubscribe | src/domain/clip/clip-utils.ts:773-777 | A truthy position id is subscribed, and nothing is sent otherwise. Path subscriptions are unchanged. |
| Clips.ClipUtils.TransportPositionWebsocketUnsubscribe | src/domain/clip/clip-utils.ts:779-783 | A truthy position id is unsubscribed, and nothing is sent otherwise. Path subscriptions are unchanged. |
| Clips.ClipUtils.SpeedWebsocketSubscribe | src/domain/clip/clip-utils.ts:639-647 | The clip's truthy speed id is subscribed and recorded. Without one nothing changes. |
| Clips.ClipUtils.SpeedWebsocketUnsubscribe | src/domain/clip/clip-utils.ts:665-671 | A truthy speed id is unsubscribed and removed from the recorded ids. |
| Clips.ClipUtils.VolumeWebsocketSubscribe | src/domain/clip/clip-utils.ts:324-331 | The clip's truthy volume id is subscribed and recorded. |
| Clips.ClipUtils.VolumeWebsocketUnsubscribe | src/domain/clip/clip-utils.ts:333-335 | The volume id is unsubscribed and stays recorded. |
| Clips.ClipUtils.OpacityWebsocketSubscribe | src/domain/clip/clip-utils.ts:399-406 | The clip's truthy opacity id is subscribed and recorded. |
| Clips.ClipUtils.OpacityWebsocketUnsubscribe | src/domain/clip/clip-utils.ts:408-410 | The opacity id is unsubscribed and stays recorded. |
| Clips.ClipUtils.SelectedSubscribe | src/domain/clip/clip-utils.ts:147-158 | For a valid clip, the registry takes the consumer, and the select path is subscribed exactly on the clip's first consumer. An invalid clip changes nothing. The invariant is kept. |
| Clips.ClipUtils.SelectedUnsubscribe | src/domain/clip/clip-utils.ts:160-174 | For a valid clip, the consumer is dropped, and the path is unsubscribed and the key deleted exactly when it was the last. An invalid clip changes nothing. The invariant is kept. |
| Clips.ClipUtils.DetailsSubscribe | src/domain/clip/clip-utils.ts:452-464 | The same rule for the name path of the details registry. |
| Clips.ClipUtils.DetailsUnsubscribe | src/domain/clip/clip-utils.ts:479-491 | The same rule, on leaving, for the details registry. |
| Clips.ClipUtils.ConnectedSubscribe | src/domain/clip/clip-utils.ts:466-477 | The same rule for the connect path of the connected registry. |
| Clips.ClipUtils.ConnectedUnsubscribe | src/domain/clip/clip-utils.ts:501-516 | The same rule, on leaving, for the connected registry. |
| Clips.ClipUtils.SpeedSubscribe | src/domain/clip/clip-utils.ts:625-637 | On a valid clip's first consumer, its truthy speed id is subscribed and recorded. Further consumers and invalid clips make no call. |
| Clips.ClipUtils.SpeedUnsubscribe | src/domain/clip/clip-utils.ts:649-663 | When a valid clip's last consumer leaves, its current truthy speed id is unsubscribed and forgotten. Otherwise no call is made. |
| Clips.ClipUtils.VolumeSubscribe | src/domain/clip/clip-utils.ts:297-307 | Only the volume registry changes, with no remote call. An invalid clip changes nothing. |
| Clips.ClipUtils.VolumeUnsubscribe | src/domain/clip/clip-utils.ts:309-322 | Only the volume registry changes, with no remote call. |
| Clips.ClipUtils.OpacitySubscribe | src/domain/clip/clip-utils.ts:371-381 | Only the opacity registry changes, with no remote call. |
| Clips.ClipUtils.OpacityUnsubscribe | src/domain/clip/clip-utils.ts:383-396 | Only the opacity registry changes, with no remote call. |
| Clips.ClipUtils.ReloadClip | src/domain/clip/clip-utils.ts:108-117 | One clip of either reload sends exactly that clip's reload calls. |
| Clips.ClipUtils.ReloadRow | src/domain/clip/clip-utils.ts:107-118 | The inner loop sends the calls of a layer's clips in column order. |
| Clips.ClipUtils.ReloadLayer | src/domain/clip/clip-utils.ts:105-119 | A layer without clips gets no calls. |
| Clips.ClipUtils.ReloadGrid | src/domain/clip/clip-utils.ts:104-120 | The outer loop sends the calls of every layer in order. |
| Clips.ClipUtils.InitConnectedFromComposition | src/domain/clip/clip-utils.ts:101-123 | The connect reload over the snapshot, then `connectedClip` is marked dirty. The remote side ends holding exactly the demanded paths. |
| Clips.ClipUtils.InitSelectedFromComposition | src/domain/clip/clip-utils.ts:125-145 | The select reload over the snapshot, then `selectedClip` is marked dirty. The invariant is kept. |
| Clips.ClipUtils.DropSpeedIds | src/domain/clip/clip-utils.ts:219-221 | Every recorded speed id is unsubscribed once, in some order, and the record is left empty. |
| Clips.ClipUtils.UnsubscribeVolumeIds | src/domain/clip/clip-utils.ts:230-232 | Every recorded volume id is unsubscribed once, and the record is kept. |
| Clips.ClipUtils.UnsubscribeOpacityIds | src/domain/clip/clip-utils.ts:241-243 | Every recorded opacity id is unsubscribed once, and the record is kept. |
| Clips.ClipUtils.ResubscribeSpeed | src/domain/clip/clip-utils.ts:222-225 | Every registered clip is visited once. Its truthy speed id is subscribed and added to the record, which grows by exactly those ids. |
| Clips.ClipUtils.ResubscribeVolume | src/domain/clip/clip-utils.ts:233-236 | Every registered clip's truthy volume id is subscribed and recorded. |
| Clips.ClipUtils.ResubscribeOpacity | src/domain/clip/clip-utils.ts:244-247 | Every registered clip's truthy opacity id is subscribed and recorded. |
| Clips.ClipUtils.InitSpeedFromComposition | src/domain/clip/clip-utils.ts:218-227 | Afterwards the recorded speed ids are exactly the registered clips' truthy speed ids. Every old id was unsubscribed, path subscriptions are unchanged, and `clipSpeed` is re-checked. |
| Clips.ClipUtils.UpdateLayerVolumes | src/domain/clip/clip-utils.ts:229-238 | Every recorded volume id is unsubscribed and every registered clip's id resubscribed. The id set never shrinks, and `clipVolume` is marked dirty. |
| Clips.ClipUtils.UpdateLayerOpacities | src/domain/clip/clip-utils.ts:240-249 | Every recorded opacity id is unsubscribed and every registered clip's id resubscribed. The id set never shrinks, and `clipOpacity` is marked dirty. |
| Clips.ClipUtils.RefreshDetails | src/domain/clip/clip-utils.ts:180-189 | A registered clip's name path is refreshed, leaving the subscriptions as they were. A fetched thumbnail under the cropped setting re-checks `clipInfo`. |
| Clips.ClipUtils.RefreshWalk | src/domain/clip/clip-utils.ts:178-194 | The walk refreshes registered clips, each once, in some order. It visits them all, or stops right after the first clip without a thumbnail. Subscriptions are unchanged. |
| Clips.ClipUtils.InitDetailsFromComposition | src/domain/clip/clip-utils.ts:176-201 | The details walk over the registry, keeping the invariant. |
| Clips.ClipUtils.ReloadClipPaths | src/domain/clip/clip-utils.ts:95-97 | The first three reloads: the details walk, then the connect and select reloads over the snapshot, with their calls and notices in that order. The invariant is kept. |
| Clips.ClipUtils.InitComposition | src/domain/clip/clip-utils.ts:94-99 | The details, connect, select and speed reloads run in that order. The calls sent and the notices issued are given exactly. The subscriptions stay in line with the registries, and exactly the registered clips' truthy speed ids are recorded. |
| Clips.ClipUtils.ReloadOnUpdate | src/domain/clip/clip-utils.ts:38-43 | The composition is reloaded on the first update that finds a snapshot, and on every composition update that does. A reload sends exactly the calls of `initComposition` and issues its notices: the thumbnail notices, `connectedClip` and `selectedClip` marked dirty, `clipSpeed` re-checked. Otherwise nothing is sent or issued. The load flag records that a snapshot was seen. |
| Clips.ClipUtils.ReloadLayerParams | src/domain/clip/clip-utils.ts:44-47 | A composition update reloads the volume ids, then the opacity ids. The calls sent are exactly `LayerParamCalls`: each recorded volume id unsubscribed, each registered clip's volume id subscribed, then the same for opacity. The returned lists name each previously recorded id and each registered clip once (`ParamOrders`). Neither id set shrinks, and `clipVolume` and `clipOpacity` are marked dirty. |
| Clips.ClipUtils.Dispatch | src/domain/clip/clip-utils.ts:48-91 | The update's own notices are issued as `ClipFeedback.DispatchNotices` gives them against the registries. Nothing else changes. |
| Clips.ClipUtils.MessageUpdates | src/domain/clip/clip-utils.ts:37-92 | The calls sent are, in order, the `initComposition` calls when a reload is due, then the volume and opacity reload calls on a composition update. The notices issued are, in order, the reload's notices when a reload is due, the volume and opacity marks on a composition update, then the update's own notices. The id sets and the listings of the dropped ids and walked clips are given exactly, and the invariant holds throughout. |
| Columns.DemandHas | src/domain/columns/column-util.ts:90-98 | Each path of a column is demanded exactly when the column is in that path's registry. |
| Columns.DemandGrows | src/domain/columns/column-util.ts:138-140 | Registering a column adds exactly that registry's path of the column to the demand. |
| Columns.DemandShrinks | src/domain/columns/column-util.ts:153-155 | Dropping a column removes exactly that registry's path of the column. |
| Columns.Reloaded | src/domain/columns/column-util.ts:78-107 | The tracked columns after a reload. Its meaning is stated by `Columns.ReloadedSpec`. |
| Columns.ReloadedSpec | src/domain/columns/column-util.ts:78-107 | With a column list, the selected column is the highest-numbered selected one, or none. The connected column is the highest-numbered "Connected" one, or stays as it was. The last column is the column count, or unchanged for an empty list. Without a list nothing changes. |
| Columns.ReloadedStep | src/domain/columns/column-util.ts:82-106 | The reload loop computes the tracked columns one column per pass. |
| Columns.ReloadNoticesSpec | src/domain/columns/column-util.ts:108-118 | Each per-registry mark is issued exactly when its registry is non-empty. The six summary names are marked last, always. |
| Columns.Dispatched | src/domain/columns/column-util.ts:41-67 | A truthy select makes its column the selected one, and a truthy connect makes the selected column the connected one. Nothing else moves. |
| Columns.DispatchNoticesSpec | src/domain/columns/column-util.ts:32-74 | Per-column marks only for a registered column. Summary marks on every connect or select. The connected- and selected-column variables exactly on a truthy value. |
| Columns.NameFeedback | src/domain/columns/column-util.ts:125-132 | The result is never `{}` and carries no colours. Its text is present exactly when the name is, and is the name with its first `#` replaced by the column number. |
| Columns.SelectedFeedback | src/domain/columns/column-util.ts:165-171 | True exactly when the cached select value is truthy. |
| Columns.ConnectedFeedback | src/domain/columns/column-util.ts:275-281 | True exactly when the connect value is the string "Connected". "Connected & previewing" does not count. |
| Columns.SteppedName | src/domain/columns/column-util.ts:223-228 | `{}` exactly when the name is absent or empty, and otherwise the templated name. |
| Columns.ColumnUtils.constructor | src/domain/columns/column-util.ts:20-23 | A fresh engine tracks no column, has empty registries and logs, and satisfies the invariant. |
| Columns.ColumnUtils.NameSubscribe | src/domain/columns/column-util.ts:134-144 | The registry takes the consumer. The name path is subscribed exactly on the column's first consumer. Any column number is accepted, 0 included. The invariant is kept. |
| Columns.ColumnUtils.NameUnsubscribe | src/domain/columns/column-util.ts:146-159 | The consumer is dropped. The path is unsubscribed and the key deleted exactly when it was the last. The invariant is kept. |
| Columns.ColumnUtils.SelectedSubscribe | src/domain/columns/column-util.ts:173-183 | The same rule for the select path. |
| Columns.ColumnUtils.SelectedUnsubscribe | src/domain/columns/column-util.ts:185-198 | The same rule, on leaving, for the select path. |
| Columns.ColumnUtils.ConnectedSubscribe | src/domain/columns/column-util.ts:283-293 | The same rule for the connect path. |
| Columns.ColumnUtils.ConnectedUnsubscribe | src/domain/columns/column-util.ts:295-308 | The same rule, on leaving, for the connect path. |
| Columns.ColumnUtils.ReloadColumn | src/domain/columns/column-util.ts:83-105 | One column's three paths are unsubscribed and the demanded ones resubscribed. The tracked columns take one loop pass. |
| Columns.ColumnUtils.ReloadColumns | src/domain/columns/column-util.ts:81-106 | The loop sends the sweep over all columns and leaves the tracked columns as the reload defines them. |
| Columns.ColumnUtils.InitConnectedFromComposition | src/domain/columns/column-util.ts:78-119 | With a column list, the sweep and the recomputed tracked columns. Then the reload marks. The remote side stays in line with the registries. |
| Columns.ColumnUtils.ReloadMarks | src/domain/columns/column-util.ts:108-118 | The marks that close a reload. |
| Columns.ColumnUtils.ReloadOnUpdate | src/domain/columns/column-util.ts:26-31 | The reload runs on the first update that finds a snapshot, and on every composition update that does. Otherwise nothing changes. |
| Columns.ColumnUtils.Dispatch | src/domain/columns/column-util.ts:32-75 | The update's effect on the tracked columns and its notices, read with the selected column as it was when the update arrived. |
| Columns.ColumnUtils.MessageUpdates | src/domain/columns/column-util.ts:25-76 | The reload when due, then the update's own effects, which see the tracked columns as the reload left them. The invariant is kept. |
| Columns.ColumnUtils.SelectedNextColumn | src/domain/columns/column-util.ts:233-241 | Within one lap, the column `add` on from the selected one is in `[1, last]` and is its cyclic successor. |
| Columns.ColumnUtils.SelectedPreviousColumn | src/domain/columns/column-util.ts:261-269 | Within one lap, the column `sub` back from the selected one is in `[1, last]` and is its cyclic predecessor. |
| Columns.ColumnUtils.ConnectedNextColumn | src/domain/columns/column-util.ts:344-352 | The same for the connected column, forward. |
| Columns.ColumnUtils.ConnectedPreviousColumn | src/domain/columns/column-util.ts:372-380 | The same for the connected column, back. |
| Columns.ColumnUtils.SelectedNameFeedback | src/domain/columns/column-util.ts:204-213 | `{}` exactly without a selected column. Otherwise its templated name, black on cyan. |
| Columns.ColumnUtils.ConnectedNameFeedback | src/domain/columns/column-util.ts:315-324 | `{}` exactly without a connected column. Otherwise its templated name, black on green. |
| Columns.ColumnUtils.SelectedNextNameFeedback | src/domain/columns/column-util.ts:219-231 | `{}` when the selected or last column is unknown. Otherwise the stepped name of the column `add` on. |
| Columns.ColumnUtils.SelectedPreviousNameFeedback | src/domain/columns/column-util.ts:247-259 | `{}` when the selected or last column is unknown. Otherwise the stepped name of the column `sub` back. |
| Columns.ColumnUtils.ConnectedNextNameFeedback | src/domain/columns/column-util.ts:330-342 | The same from the connected column, forward. |
| Columns.ColumnUtils.ConnectedPreviousNameFeedback | src/domain/columns/column-util.ts:358-370 | The same from the connected column, back. |
| Decks.DemandHas | src/domain/deck/deck-util.ts:68-73 | Each path of a deck is demanded exactly when the deck is in that path's registry. The `/select` path is never demanded. |
| Decks.DemandGrows | src/domain/deck/deck-util.ts:102-112 | Registering a deck adds exactly that registry's path of the deck. |
| Decks.DemandShrinks | src/domain/deck/deck-util.ts:114-127 | Dropping a deck removes exactly that registry's path of the deck. |
| Decks.Reloaded | src/domain/deck/deck-util.ts:57-80 | The tracked deck state after a reload. Its meaning is stated by `Decks.ReloadedSpec`. |
| Decks.ReloadedSpec | src/domain/deck/deck-util.ts:57-80 | With a deck list, the selected deck is the highest-numbered selected one, or none, and the remembered name is that deck's. Without a selected deck the name stays. The last deck is the deck count, or unchanged for an empty list. Without a list nothing changes. |
| Decks.ReloadedStep | src/domain/deck/deck-util.ts:61-79 | The reload loop computes the tracked state one deck per pass. |
| Decks.ReloadNoticesSpec | src/domain/deck/deck-util.ts:81-87 | `deckSelected` and `deckName` are marked exactly when their registry is non-empty. The three summaries are marked last, always. |
| Decks.Dispatched | src/domain/deck/deck-util.ts:39-47 | A select update for a deck whose cached select value is truthy makes it the selected deck, with its cached name. Nothing else moves. |
| Decks.DispatchNoticesSpec | src/domain/deck/deck-util.ts:31-54 | Per-deck marks only for a registered deck. Summary marks on every select update. The selected-deck variable exactly when the cached select value is truthy. |
| Decks.SelectedFeedback | src/domain/deck/deck-util.ts:94-100 | True exactly when the deck's cached select value is truthy. |
| Decks.DispatchAgreesWithFeedback | src/domain/deck/deck-util.ts:43-44 | A deck an update makes the selected one shows as selected in the selected feedback against the same cache. |
| Decks.NameFeedback | src/domain/deck/deck-util.ts:133-139 | The text is the deck's cached name, untemplated. It is never `{}` and never coloured. |
| Decks.SelectedText | src/domain/deck/deck-util.ts:175 | The cached name when it is a non-empty string, otherwise the remembered one. |
| Decks.JsPlus | src/domain/deck/deck-util.ts:198-201 | JavaScript `+`: numeric on two numbers, concatenation as soon as one side is a string. |
| Decks.JsMinus | src/domain/deck/deck-util.ts:221-224 | JavaScript `-`: always numeric. |
| Decks.NextDeckAsWritten | src/domain/deck/deck-util.ts:196-204 | `calculateNextDeck` on whatever `selectedDeck` holds. While it holds a number, this is the single-wrap step `Navigation.Next`. |
| Decks.PreviousDeckAsWritten | src/domain/deck/deck-util.ts:219-227 | `calculatePreviousDeck` on whatever `selectedDeck` holds. While it holds a number, this is the single-wrap step back `Navigation.Previous`. |
| Decks.NextDeckAfterSelectUpdate | src/domain/deck/deck-util.ts:44 | After a select update for deck 3 of five, the next deck as written is 26 where 4 is meant. |
| Decks.NextDeckAfterSelectUpdateInRange | src/domain/deck/deck-util.ts:44 | After a select update for deck 1 of twenty, the next deck as written is "11" where 2 is meant. |
| Decks.PreviousDeckAfterSelectUpdate | src/domain/deck/deck-util.ts:44 | After a select update for deck 1 of five, the previous deck as written is 50 where 5 is meant. |
| Decks.DeckUtils.constructor | src/domain/deck/deck-util.ts:10-22 | A fresh engine tracks no deck and no name, has empty registries and logs, and satisfies the invariant. |
| Decks.DeckUtils.SelectedSubscribe | src/domain/deck/deck-util.ts:102-112 | The registry takes the consumer. The `/selected` path is subscribed exactly on the deck's first consumer. The invariant is kept. |
| Decks.DeckUtils.SelectedUnsubscribe | src/domain/deck/deck-util.ts:114-127 | The consumer is dropped. The `/selected` path is unsubscribed and the key deleted exactly when it was the last. |
| Decks.DeckUtils.NameSubscribe | src/domain/deck/deck-util.ts:141-151 | The same rule for the name path. |
| Decks.DeckUtils.NameUnsubscribe | src/domain/deck/deck-util.ts:153-166 | The same rule, on leaving, for the name path. |
| Decks.DeckUtils.ReloadDeck | src/domain/deck/deck-util.ts:62-78 | One deck's two paths are unsubscribed and the demanded ones resubscribed. The tracked state takes one loop pass. |
| Decks.DeckUtils.ReloadDecks | src/domain/deck/deck-util.ts:60-79 | The loop sends the sweep over all decks and leaves the tracked state as the reload defines it. |
| Decks.DeckUtils.InitConnectedFromComposition | src/domain/deck/deck-util.ts:57-88 | With a deck list, the sweep and the recomputed tracked state. Then the reload marks. The remote side stays in line with the registries. |
| Decks.DeckUtils.ReloadMarks | src/domain/deck/deck-util.ts:81-87 | The marks that close a reload. |
| Decks.DeckUtils.ReloadOnUpdate | src/domain/deck/deck-util.ts:25-30 | The reload runs on the first update that finds a snapshot, and on every composition update that does. |
| Decks.DeckUtils.Dispatch | src/domain/deck/deck-util.ts:31-54 | The update's effect on the tracked state and its notices, read against the parameter cache. |
| Decks.DeckUtils.MessageUpdates | src/domain/deck/deck-util.ts:24-55 | The reload when due, then the update's own effects on the state the reload left. The invariant is kept. |
| Decks.DeckUtils.NextDeck | src/domain/deck/deck-util.ts:196-204 | Within one lap, the deck `add` on from the selected one is in `[1, last]` and is its cyclic successor. |
| Decks.DeckUtils.PreviousDeck | src/domain/deck/deck-util.ts:219-227 | Within one lap, the deck `sub` back is in `[1, last]` and is its cyclic predecessor. |
| Decks.DeckUtils.SelectedNameFeedback | src/domain/deck/deck-util.ts:172-181 | `{}` exactly without a selected deck. Otherwise black on green, with the cached name when it is a non-empty string and the remembered name otherwise. |
| Decks.DeckUtils.NextNameFeedback | src/domain/deck/deck-util.ts:187-194 | `{}` exactly when the selected or last deck is unknown. Otherwise the name feedback of the deck `add` on. |
| Decks.DeckUtils.PreviousNameFeedback | src/domain/deck/deck-util.ts:210-217 | `{}` exactly when the selected or last deck is unknown. Otherwise the name feedback of the deck `sub` back. |

## Left out

- Thumbnails are not modelled: their fetching, drawing and base64 caching (`getThumbs`, the thumb maps, and `drawThumb`, `drawVolume` and `drawPercentage`) are REST calls and image rendering. The walk in `initDetailsFromComposition` takes the fetch's outcome as a parameter (`thumbs`). It stops at the first clip without a thumbnail, as the source does.
- The `clipDetailsFeedbackCallback` result is not modelled: it is made of the REST clip status and the thumbnail buffers.
- REST fallback reads in the volume, opacity and speed callbacks are read as absent: they are network calls.
- The text of volume, opacity and speed readings (`Math.round(x * 100)` with a unit) is not modelled: it is floating-point formatting. The readings give the value shown, or the '?' placeholder.
- ClipFeedback.VolumeReading, ClipFeedback.OpacityReading, ClipFeedback.SpeedReading: a cached value that is present but not a number reads as '?'. The source passes any defined cached value on to the formatting (clip-utils.ts:276-278). Resolume sends numbers for these parameters.
- Float semantics are left out: the timecode arithmetic uses exact reals, and `Math.round` rounds halves up.
- `parseVariablesInString` is an awaited host call. Its parsed numbers are given integers, so NaN and fractional indices are not modelled.
- The `async` interleaving is not modelled: `initDetailsFromComposition` is not awaited in the source, and the model runs it to completion before the other reloads.
- JavaScript map and set iteration order is not pinned down. The walks over registries and id sets are proved for some order that lists each element once (`Clips.Lists`).
- Host callbacks (`markFeedbackDirty`, `checkFeedbacks`, `setVariableValues`, `getOtherClipFeedbacks`, `getLayerApiFeedbacks`) are recorded in a ghost log without their effects.
- `getClipFromCompositionState` throws on a layer outside the snapshot. The model makes that a precondition (`Composition.LookupSafe`, `ClipReload.Resolvable`) rather than modelling the exception.
- Registries are keyed by `ClipId` and by column and deck number, where the source uses their string keys. `Paths.ClipIdRoundTrip`, `Paths.IdStringInjective` and `Text.IntToStringInjective` show the two are interchangeable.
- The source decodes clip keys with `ClipId.fromId` from `clip-id.ts`; `clip-id.ts` is not part of this model. The encoding `layer:column` is assumed.
- A path captured by the update patterns with leading zeros (`/composition/columns/03/select`) is read as the number it spells. The source would compare the string "03" with the registry key "3".
- Cached values that are not strings are treated as absent names.
- ClipFeedback.MarksPreview: a connect state that is a number or a boolean makes the source throw a TypeError (clip-utils.ts:532), because the value is cast to a string and lowered. The model treats it as not previewing, which gives black and no notices. The failure of the callback is not modelled.
- Text.ToLower: lowers the ASCII letters A-Z only. JavaScript's `toLowerCase` applies Unicode case mapping, which also lowers other letters and can change the length ('İ' becomes two code units). The connect states Resolume reports are ASCII.
- The column name callbacks call `.replace` on the cached value even when a parameter exists without a value, where the source would throw. The model treats that as an absent name.
- The `!match` branch in the column connect handler (column-util.ts:45-47) is unreachable, because the capture is a non-empty digit string. The model always takes the other branch.
- Columns: the selected column after a select update holds the captured string in the source (column-util.ts:65). The model holds it as a number. This is harmless there, because `calculate*Column` applies unary `+` before the arithmetic. The published `selectedColumn` and `connectedColumn` variables are modelled as numbers.
- Decks: the unanchored `/select` pattern also matches `/selected` updates. The model keeps this (`Decks.SelectMatches`).
- Decks: `setVariableValues({selectedDeck})` publishes the captured string in the source. The model publishes the number.
- Decks.DeckUtils.NextDeck and Decks.DeckUtils.PreviousDeck are the corrected arithmetic on a numeric `selectedDeck`. The arithmetic as written is kept beside them; see Findings.
- The feedback definition files under `src/feedbacks/` only bind the engine's methods into host definitions, so they are not modelled.

## Findings

| source | as written | input that shows it | evidently intended | confidence | as-written member | corrected member |
|---|---|---|---|---|---|---|
| src/domain/deck/deck-util.ts:44, 196-204 | A select update stores the digits captured from the path, a string, into `selectedDeck`. `calculateNextDeck` then computes `deck + add` as a string concatenation. | Five decks, select update on `/composition/decks/3/select` with the deck's select cached true, then next = 1. "3" + 1 is "31", past the last deck, so the result is 31 - 5 = 26. Deck 1 of twenty gives "11". | Deck 4 (and deck 2): the single-wrap step on the deck number. | high; not executed | Decks.NextDeckAfterSelectUpdate | Decks.DeckUtils.NextDeck |
| src/domain/deck/deck-util.ts:44, 219-227 | The same string in `calculatePreviousDeck`. `deck - subtract` is numeric, but the wrap computes `lastDeck + deck` as a concatenation. | Five decks, select update for deck 1, then previous = 1. 1 - 1 is below 1, and 5 + "1" is "51", so the result is 51 - 1 = 50. | Deck 5: the single-wrap step back. | high; not executed | Decks.PreviousDeckAfterSelectUpdate | Decks.DeckUtils.PreviousDeck |
