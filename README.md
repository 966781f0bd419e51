# videojs-contrib-ads: the ad lifecycle, modelled in Dafny

The project models the core of the `videojs-contrib-ads` plugin for video.js. The plugin brokers between a
video player and an ad integration. A state machine of eight states (`content-set`, `ads-ready`, `preroll?`,
`ads-ready?`, `ad-playback`, `content-resuming`, `postroll?`, `content-playback`) decides when linear ads
may play. Around it sit the plugin's features:

- event redispatching: media events during ads and content are renamed with an `ad` or `content` prefix;
- the player snapshot: saved before an ad and restored after it;
- play cancellation: a one-tick pause after `play` while ads are requested;
- content-source change detection: `contentupdate`;
- ad cues from metadata text tracks, de-duplicated by cue id;
- ad-server URL macro substitution.

How the model is put together:

- **Shared state.** What the plugin keeps in `player.ads`, and the parts of the player it reads and writes,
  are the fields of one class, `Player.Player`. The player and its playback tech are a `Media` value held
  in a field.
- **Events, calls and timers.** Triggering an event appends to `fired`, and a call on the player (`play`,
  `pause`, `currentTime(t)`, `src(...)`, `load`, `volume(v)`) appends to `calls` and updates `media`.
  `setTimeout` hands out handles from a counter and keeps pending timers in a map. Firing one
  (`Callbacks.FireTimer`) runs its callback.
- **Timer ownership.** The class invariant `Valid()` states that every pending `adtimeout` belongs to a
  waiting state and is named by `adTimeoutTimeout`. The 1000 ms fallback `ended` belongs to
  `content-resuming` and is named by `fireEndedTimeout`. At most one play cancellation is in flight, and
  `cancelPlayTimeout` names it. Every operation that changes the player keeps `Valid()`; the one place
  where the source itself breaks it, the `nopostroll` callback, runs in its corrected form (see "## Findings").
- **The state table.** The handlers are a pure function, `States.Handler`. The methods of module
  `Plugin` that run the handlers, the `enter` and `leave` actions and `processEvent` are proved against
  it. Each is stated through a view of the player (`HandlerView`, `RestoreView`) and a function giving
  what the view becomes.
- **Pure helpers.** Redispatching, snapshot capture and restore, the `contentupdate` check, ad-cue
  walking and macro substitution are pure functions. The methods that perform them on the player are
  proved equal to those functions.
- **The browser.** Browser facts (`IS_IOS`), `isLive(player)` and `shouldPlayContentBehindAd(player)`
  are inputs (`Env`).
- **Macro inputs.** The clock, randomness, the page's location and referrer, the page variables
  reachable from `window` and `encodeURIComponent` are parameters of macro substitution.
- **Exceptions.** Where the source throws (a missing snapshot), the model returns `false` or `None`.

During `content-resuming`, while the element's source differs from the snapshot's, a `loadstart` event is
left alone: es5/redispatch.js:101-104 returns before the event is cancelled or renamed, so it reaches every
other listener under its own name. `Redispatch.WhileResuming` states this case.

## Model

| member | source | states |
|---|---|---|
| Events.NameOfParse | es5/plugin.js:620-632 | Reading any event type string and writing it back gives the same string. |
| Events.ParseOfName | es5/plugin.js:620-632 | Every event survives writing its type and reading it back: `Other` only carries type strings that have no constructor of their own, so no type has two representations. |
| Events.Prefixed | es5/redispatch.js:27-34 | The prefixed event's type is the prefix followed by the original type. |
| Events.PrefixedNames | es5/redispatch.js:88-91 | `content` + `ended` is exactly the `contentended` event the state machine handles; `ad` + `playing`/`ended` are types the state machine does not handle. |
| States.Handler | es5/plugin.js:245-583 | Events outside the vocabulary have no handler; a handler runs at most two actions, and one that keeps the state always does something; only content-set's `play` removes the poster, only ad-playback's `adserror` triggers `adend`, and only `postroll?` defers an `ended`, always on the way to content-resuming. |
| States.OtherEventsUnhandled | es5/plugin.js:586-599 | No state has a handler for an event type outside the table's vocabulary. |
| States.ContentSetTable | es5/plugin.js:246-267 | In content-set, `play` cancels play, removes the poster and waits for ads; `adsready` goes to ads-ready; `adscanceled`, `adserror` and `adskip` go to content-playback; nothing else is handled. |
| States.ContentEndedCases | es5/plugin.js:567-581 | The first `contentended` goes to `postroll?` and marks the content ended; a later one goes to content-resuming. |
| States.ContentUpdateWhilePlaying | es5/plugin.js:550-566 | `contentupdate` during content goes to content-set exactly when paused and to `ads-ready?` exactly when playing; it cancels play exactly when content does not play behind the ad. |
| States.OnlyAdStartStartsAd | es5/plugin.js:309-328 | From any other state, an event leads into ad-playback if and only if it is `adstart` in `preroll?`, content-playback or `postroll?`. |
| States.AdPlaybackExits | es5/plugin.js:418-428 | ad-playback reacts exactly to `adend` and `adserror`, both going to content-resuming; only `adserror` also triggers `adend`. |
| States.AdTimeoutEndsWaiting | es5/plugin.js:309-328 | A state handles `adtimeout` if and only if it is a waiting state; the preroll waits go to content, and `postroll?` resumes with a deferred `ended`. |
| States.AdsErrorGivesUp | es5/plugin.js:245-583 | `adserror` is handled in every state except content-resuming and content-playback, and always leads to content-playback or content-resuming. |
| States.PlayCancels | es5/plugin.js:254-259 | `play` is handled exactly in the four pre-ad states, always cancels play, and never leaves `preroll?` or `ads-ready?`. |
| States.RunAppend | es5/plugin.js:586-599 | Handling two event sequences one after the other equals handling their concatenation. |
| States.PrerollRoundTrip | es5/plugin.js:246-461 | `play`, `adsready`, `adstart`, `adend`, `playing` (in either order of the first two) lead from content-set through a preroll back to content-playback. |
| States.UnhandledIsSkipped | es5/plugin.js:593-599 | An event the current state has no handler for can be removed from a run without changing where the run ends. |
| Player.VideoElementRecycled | es5/plugin.js:201-210 | The check fails exactly when there is no snapshot; with one, the element counts as recycled exactly when `src()` or `currentSrc()` differs from the snapshot's. |
| Player.EffectsAppend | es5/plugin.js:142-231 | Applying calls one by one composes: one more call applies its effect to what the earlier calls left. |
| Player.Effect | es5/plugin.js:142-231 | No call changes the tracks, the ended flag, the duration, poster or style; `play` unpauses, and `load` makes `currentSrc()` the `src()` set. |
| Player.Player.constructor | es5/plugin.js:142-233 | `player.ads` starts in content-set with no snapshot, no flags, no pending timer, no event fired and the `stitchedAds` setting; the invariant holds. |
| Player.Player.ClearTimeout | es5/plugin.js:305-307 | The handle is no longer pending; a missing handle changes nothing. |
| Player.Player.Reset | es5/plugin.js:152-156 | The restore suppression, the content-ended flag and the snapshot are cleared. |
| Player.Player.StartLinearAdMode | es5/plugin.js:161-165 | `adstart` is triggered exactly in `preroll?`, content-playback and `postroll?`, and nothing otherwise. |
| Player.Player.EndLinearAdMode | es5/plugin.js:169-177 | Exactly in ad-playback, `adend` is triggered and the loading class removed. |
| Player.Player.SkipLinearAdMode | es5/plugin.js:184-188 | `adskip` is triggered exactly when no ad is playing. |
| Player.Player.StitchedAds | es5/plugin.js:189-194 | A defined argument sets the flag; the flag is returned either way. |
| Redispatch.Decide | es5/redispatch.js:38-129 | The `ad` prefix is used only in `preroll?`, `ads-ready?` and ad-playback, and the `content` prefix only in content-playback and content-resuming; the decision throws exactly in ad-playback without a snapshot; a silent cancel happens only for `playing` during an ad. |
| Redispatch.DecideIsByState | es5/redispatch.js:38-129 | The source's if/else precedence chain and an independent state-by-state table agree on every input. |
| Redispatch.PlayingWhileWaiting | es5/redispatch.js:52-53 | `playing` in `preroll?` or `ads-ready?` becomes `adplaying`. |
| Redispatch.PlayingDuringAd | es5/redispatch.js:64-79 | `playing` during an ad is renamed `adplaying` when the element was not recycled, and silently cancelled when it was. |
| Redispatch.OtherEventsDuringAd | es5/redispatch.js:83-86 | Any other event during an ad is prefixed `ad` exactly when the element was recycled or ads are stitched, and passes untouched otherwise. |
| Redispatch.DuringContent | es5/redispatch.js:88-91 | During content, only `ended` is touched and it becomes `contentended`; before any ad and during `postroll?`, every event passes. |
| Redispatch.WhileResuming | es5/redispatch.js:94-128 | While content resumes: after a source change only `loadstart` passes and all else is prefixed `content`; after a postroll `pause` and `ended` pass; otherwise only `playing` passes. |
| Redispatch.PrefixEvent | es5/redispatch.js:27-34 | Exactly one event is triggered, typed prefix + original type, carrying the state and the original event. |
| Redispatch.Redispatch | es5/redispatch.js:38-129 | The listener does what `Decide` says, emitting one prefixed event exactly when it renames and none otherwise. |
| Plugin.PlaysCoalesce | es5/cancelContentPlay.js:17-29 | `play` events in a row, from any state that handles `play`, schedule one 1 ms cancellation: the first schedules it (unless one is in flight, which it keeps), every later one changes nothing, and once the cancellation's handle is cleared the next `play` schedules again. |
| CancelContentPlay.CancelContentPlay | es5/cancelContentPlay.js:17-73 | With a cancellation in flight nothing changes; otherwise one 1 ms timer is scheduled and named by `cancelPlayTimeout`; at most one cancellation stays in flight. |
| CancelContentPlay.CancelPlayFires | es5/cancelContentPlay.js:62-73 | The handle is forgotten, a playing player is paused (an already paused one gets no call), and `cancelledPlay` is set. |
| ContentUpdate.CheckRunChains | es5/contentupdate.js:19-32 | Over any run of checks the `contentupdate` events chain: the first starts from the source remembered at the outset, each starts where the previous one ended, none reports an unchanged source, and the remembered source is where the last one ended. |
| ContentUpdate.CheckIdempotent | es5/contentupdate.js:19-32 | A second check with an unchanged source emits nothing and changes nothing. |
| ContentUpdate.CheckSrc | es5/contentupdate.js:19-32 | `contentupdate` with old and new source is triggered exactly when the check says so, and the remembered source is updated as the check says. |
| ContentUpdate.InitializeContentupdate | es5/contentupdate.js:10-37 | The current source is remembered and one check is scheduled 1 ms later. |
| CueTextTracks.AdTrackRun | es5/cueTextTracks.js:111-146 | The loop walks at most the cues it is given (what it does with them is `AdTrackRunFacts`). |
| CueTextTracks.AdTrackRunFacts | es5/cueTextTracks.js:111-146 | The run processes a prefix of the cues, each supported and unseen when reached, with `processCue` (then `cancelAds`, when given) in order. It stops only at an unsupported or already seen cue, and records exactly the ids of the processed cues. |
| CueTextTracks.MarkAllGrows | es5/cueTextTracks.js:97-101 | Recording ids only adds; every defined non-empty id is recorded, and nothing else. |
| CueTextTracks.NoRepeatedIds | es5/cueTextTracks.js:89-101 | No two processed cues share a non-empty id, no processed cue's id was seen before the run or is a name inherited from `Object.prototype`, and `''` is never recorded. |
| CueTextTracks.DefaultsStopOnlyAtRepeat | es5/cueTextTracks.js:71-83 | With the default hooks, the run stops only at a repeated id or an inherited name such as `constructor`; cues with distinct ids, none of them inherited names, are all processed. |
| CueTextTracks.InheritedIdStops | es5/cueTextTracks.js:89-91 | A cue whose id is an `Object.prototype` member's name counts as already seen on first sight (`includedCues` is `{}`): the walk stops there with no call and nothing recorded. |
| CueTextTracks.ConsiderCue | es5/cueTextTracks.js:115-144 | One pass of the loop body stops at an unsupported cue or at a cue `cueAlreadySeen` accepts (a recorded id or an inherited name); otherwise it makes the cue's calls and records its id. |
| CueTextTracks.ProcessAdTrack | src/cueTextTracks.js:105-140 | `includedCues` starts empty; the calls made and the ids recorded are those of `AdTrackRun` from the empty set. |
| CueTextTracks.MetadataOnly | es5/cueTextTracks.js:36-43 | The selected tracks are exactly the listed tracks of kind `metadata`. |
| CueTextTracks.ProcessMetadataTracks | es5/cueTextTracks.js:25-52 | The metadata tracks are handed on in order; an `addtrack` listener is registered instead exactly when there are no text tracks yet. |
| Macros.LoneMacro | es5/macros.js:23-28 | A macro with a string value is replaced by the value itself when `uriEncode` is absent or false, and by `encodeURIComponent(value)` when it is true. |
| Macros.Split | es5/macros.js:85-87 | A split by a non-empty key has at least one piece; with `Join` it round-trips (`JoinSplit`) and its pieces hold no key (`SplitPiecesFree`). |
| Macros.Join | es5/macros.js:85-87 | Joining nothing gives `''`; the result starts with the first part, followed by the separator when there is a second part. |
| Macros.IndexOf | es5/macros.js:85-87 | The result is the first position at which the key occurs, or none when it occurs nowhere. |
| Macros.JoinChars | es5/macros.js:85-87 | Splitting into characters and joining with `''` gives the string back. |
| Macros.JoinSplitKey | es5/macros.js:85-87 | Splitting by a non-empty key and joining with the same key gives the string back. |
| Macros.JoinSplit | es5/macros.js:85-87 | `s.split(k).join(k)` is `s` for every separator. |
| Macros.SplitPiecesFree | es5/macros.js:85-87 | No piece of a split by a non-empty key contains the key, so every occurrence is replaced. |
| Macros.ReplaceAbsent | es5/macros.js:85-87 | A string without the key is unchanged by the replacement. |
| Macros.PutLookup | es5/macros.js:58-81 | After writing `object[k] = v`, key `k` holds `v` and every other key keeps its value. |
| Macros.PutKeys | es5/macros.js:58-81 | An existing key keeps its place in the `for..in` order; a new key is appended. |
| Macros.MacroTable.Put | es5/macros.js:38-39 | The table becomes the old table with `k` written. |
| Macros.StaticMacros | es5/macros.js:65-77 | Thirteen static macros; without `mediainfo` the seven `mediainfo` macros are `''`. |
| Macros.PutAllLookup | es5/macros.js:65-77 | After writing entries with distinct keys, each key holds its entry's value and all other keys are unchanged. |
| Macros.StaticKeysDistinct | es5/macros.js:65-77 | No two static macros share a name. |
| Macros.StaticMacrosOverride | es5/macros.js:58-77 | Static macros override custom macros of the same name (examples: `{player.id}`, `{document.referrer}`, `{random}`, and `{mediainfo.name}` as `''` without mediainfo); custom macros under other names keep their values. |
| Macros.WithCustomFields | es5/macros.js:32-43 | Without that field set on `mediainfo` (or without `mediainfo`) the table is unchanged. |
| Macros.CustomFieldsLookup | es5/macros.js:32-43 | Every field of the set is written under its tag with its value and no other key changes; without mediainfo or that set the table is unchanged. |
| Macros.CustomFields | es5/macros.js:32-43 | The loop writes the table that `WithCustomFields` describes. |
| Macros.ReplaceKeys | es5/macros.js:85-87 | A string containing none of the keys comes out of the replacement loop unchanged. |
| Macros.UndefinedMacroBecomesComma | es5/macros.js:85-87 | An `undefined` macro value is replaced by `","` without encoding (the default join separator) and by the encoded `"undefined"` with encoding. |
| Macros.LonePageVariable | es5/macros.js:90-119 | A lone `{pageVariable.<name>}` becomes `"null"` for `null`, nothing for `undefined` or an object, and the string form of a boolean, number or string, encoded exactly when asked. |
| Macros.NameLength | es5/macros.js:90 | The page-variable name is the longest run of characters other than `}`. |
| Macros.ReplacePageVariables | es5/macros.js:90-119 | A string without `{pageVariable.` is unchanged by the page-variable pass. |
| Macros.ReplaceMacros | es5/macros.js:85-87 | The loop computes the key-by-key replacement in table order. |
| Macros.AdMacroReplacement | es5/macros.js:52-122 | The caller's table (or a fresh one) ends as custom, then static, then custom-field macros, and the result is every key replaced in table order followed by the page-variable pass. |
| Snapshot.Suppress | es5/snapshot.js:62-82 | One record per listed track, and the track table keeps its size. |
| Snapshot.CapturedTime | es5/snapshot.js:33-42 | Outside iOS live streams the time is `currentTime()`; on an iOS live stream with a seekable range it is the offset from the live edge, so that edge plus offset gives `currentTime()` back. |
| Snapshot.Capture | es5/snapshot.js:29-85 | The snapshot holds the element's ended flag, both sources, type, poster, style and captured time, one record per listed track; only the tracks of the element change. |
| Snapshot.SuppressFacts | es5/snapshot.js:62-82 | A capture loop records each listed track in order and disables it. A track's first record holds its prior mode, and unlisted tracks are untouched. |
| Snapshot.UndoSuppress | es5/snapshot.js:62-82 | Writing one loop's records back last to first undoes that loop exactly. |
| Snapshot.CaptureFacts | es5/snapshot.js:29-85 | After a capture every remote and in-band track is disabled and nothing else changes. Both record lists follow their track lists. The element is not "recycled" against the fresh snapshot. |
| Snapshot.CaptureThenRestoreTracks | es5/snapshot.js:110-120 | Capturing and then restoring the tracks gives back every track's original mode (corrected restore order). |
| Snapshot.SharedTrackLeftDisabled | es5/snapshot.js:110-120 | A showing track listed both as remote and in-band stays disabled after the restore as written, but is showing again after the corrected restore. |
| Snapshot.ApplyDistinctIsUndo | es5/snapshot.js:110-120 | When no track is recorded twice, writing records first to last equals writing them last to first. |
| Snapshot.AsWrittenAgreesOnDistinctTracks | es5/snapshot.js:110-120 | When no track appears twice across both record lists, the restore as written and the corrected one agree. |
| Snapshot.RestoredAttributes | es5/snapshot.js:196-203 | The snapshot's poster is written back only when non-empty, the style always (`style \|\| ''`), and nothing else of the element changes. |
| Snapshot.ResumeCalls | es5/snapshot.js:123-146 | At most a seek then `play`: `play` comes last and exactly when the snapshot had not ended; outside iOS live a seek to the duration or the saved time always comes first; on iOS live a non-negative offset makes no seek. |
| Snapshot.IosLiveKeepsOffset | es5/snapshot.js:33-42 | On an iOS live stream, content snapshotted some distance behind the live edge resumes that same distance behind the edge as it is after the ad. |
| Snapshot.ResumeOutsideIosLive | es5/snapshot.js:123-146 | Outside iOS live streams, resuming seeks to the end of an ended snapshot or to its time, and plays exactly when the content had not ended. |
| Snapshot.Poll | es5/snapshot.js:169-193 | Resume now exactly when `readyState > 1` or the tech's `seekable` is absent or non-empty; otherwise retry while attempts remain, and give up when they are 0. |
| Snapshot.PollChainStep | es5/snapshot.js:150-194 | Each step of a poll chain is one `tryToResume` check: it stops when `Poll` resumes or gives up, and retries once more with one attempt fewer when `Poll` says retry. |
| Snapshot.PollChainBound | es5/snapshot.js:150-194 | Starting from `a` attempts, at most `a` retries are scheduled and resume has run by the (a+1)-th check; a tech that never gets ready sees exactly `a` retries. |
| Snapshot.TwentyRetriesThenResume | es5/snapshot.js:105 | With the source's 20 attempts and a tech that never gets ready, 20 retries come before the last resume. |
| Snapshot.WithoutJob | es5/snapshot.js:157 | Removing a restore's listener keeps exactly the other listeners. |
| Snapshot.SuppressTracks | es5/snapshot.js:62-82 | The in-place loop produces the records and tracks of `Suppress` and changes nothing else. |
| Snapshot.GetPlayerSnapshot | es5/snapshot.js:29-85 | The snapshot taken and the player afterwards are those of `Capture`. |
| Snapshot.RestoreTracks | es5/snapshot.js:110-120 | The tracks become the corrected restore of the snapshot's records. |
| Snapshot.Resume | es5/snapshot.js:123-146 | The player receives exactly the seek and play of `ResumeCalls`. |
| Snapshot.ForgetResume | es5/snapshot.js:157-161 | This restore's `contentcanplay` listener and its pending 2000 ms fallback are gone. |
| Snapshot.TryToResume | es5/snapshot.js:150-194 | The other trigger of this resume is removed. A ready tech (ready state above 1, no `seekable`, or a seekable range) is resumed; otherwise a retry with one attempt fewer is scheduled while attempts remain, and the content is resumed when none do. |
| Snapshot.SourceReloaded | es5/snapshot.js:210-222 | The snapshot's source is set and loaded, and the tracks' restore waits for `contentloadedmetadata`. |
| Snapshot.ResumeArmed | es5/snapshot.js:218-222 | One resume with 20 attempts waits both for `contentcanplay` and for a 2000 ms fallback. |
| Snapshot.ResumedInPlace | es5/snapshot.js:223-229 | In place, the tracks are restored and `play` called, with no timer or listener. |
| Snapshot.AfterRestore | es5/snapshot.js:94-230 | The one-shot suppression is always consumed, and a suppressed or snapshot-less restore changes nothing else. Otherwise poster and style are written back, then: if `src()` or `currentSrc()` differs from the snapshot's, the snapshot's source is set and loaded, the track restore waits for `contentloadedmetadata`, and one resume with 20 attempts waits for `contentcanplay` with a 2000 ms fallback named by `tryToResumeTimeout`; if not, the tracks are restored and `play` called unless both player and snapshot ended, with no timer or listener. |
| Snapshot.RestoreAfterCapture | es5/snapshot.js:29-230 | An ad that left the element's source alone: restoring the snapshot taken before it gives every track its pre-ad mode, writes back a non-empty poster and the style, calls `play` unless both ended, and arms no timer. |
| Snapshot.RestorePlayerSnapshot | es5/snapshot.js:94-230 | The restore does what `AfterRestore` says and throws exactly when there is neither suppression nor a snapshot. |
| Plugin.HandlersScheduleOneTimer | es5/plugin.js:245-583 | No handler both cancels play and defers an `ended`, so a handler schedules at most one timer. |
| Plugin.CancelAndGo | es5/plugin.js:254-259 | A cancel-and-go handler does what the table says to the handler view. |
| Plugin.RemoveNativePoster | es5/plugin.js:52-58 | The tech's poster is removed and nothing else changes. |
| Plugin.ContentSetPlay | es5/plugin.js:254-259 | content-set's `play` does what the table says: cancel play, remove the poster, go to `ads-ready?`. |
| Plugin.HandleContentSet | es5/plugin.js:246-267 | content-set's handlers change the handler view exactly as the table says. |
| Plugin.HandleAdsReady | es5/plugin.js:268-281 | ads-ready's handlers change the handler view exactly as the table says. |
| Plugin.HandlePrerollWait | es5/plugin.js:309-328 | `preroll?`'s handlers change the handler view exactly as the table says. |
| Plugin.HandleAdsReadyWait | es5/plugin.js:342-361 | `ads-ready?`'s handlers change the handler view exactly as the table says. |
| Plugin.AdPlaybackError | es5/plugin.js:423-427 | `adserror` during an ad resumes content and triggers `adend`. |
| Plugin.HandleAdPlayback | es5/plugin.js:418-428 | ad-playback's handlers change the handler view exactly as the table says. |
| Plugin.HandleContentResuming | es5/plugin.js:447-460 | content-resuming's handlers change the handler view exactly as the table says. |
| Plugin.PostrollGiveUp | es5/plugin.js:490-507 | Giving up on the postroll moves to content-resuming with `ended` deferred one tick. |
| Plugin.HandlePostrollWait | es5/plugin.js:486-511 | `postroll?`'s handlers change the handler view exactly as the table says. |
| Plugin.HandleContentUpdate | es5/plugin.js:550-566 | content-playback's `contentupdate` changes the handler view as the table says. |
| Plugin.ContentPlaybackEnded | es5/plugin.js:567-581 | content-playback's `contentended` changes the handler view as the table says. |
| Plugin.HandleContentPlayback | es5/plugin.js:539-582 | content-playback's handlers change the handler view exactly as the table says. |
| Plugin.RunHandler | es5/plugin.js:590-599 | The current state's handler does what the table says; without a handler the player is unchanged. |
| Plugin.LeaveWait | es5/plugin.js:305-307 | Leaving a waiting state clears its ad timeout; `ads-ready?` and `postroll?` also remove the loading class. Afterwards no state-owned timer is pending. |
| Plugin.LeaveContentResuming | es5/plugin.js:443-445 | Leaving content-resuming clears the fallback `ended`. |
| Plugin.ShowContentClasses | es5/plugin.js:400-408 | The ad-playing class goes, and live content gets the live class back. |
| Plugin.RestoreVolume | es5/plugin.js:413-416 | The volume from before the ad is set back when one was saved. |
| Plugin.RestoreContent | es5/plugin.js:409-416 | Content playing behind the ad gets its volume back; otherwise the snapshot restore runs, throwing exactly when it has neither suppression nor a snapshot. |
| Plugin.LeaveAdPlayback | es5/plugin.js:400-417 | Leaving ad-playback fixes the classes and restores the content; it throws exactly when the restore throws. |
| Plugin.ArmAdTimeout | es5/plugin.js:298-300 | One `adtimeout` timer with the given delay is pending and named by `adTimeoutTimeout`, and the invariant holds in the waiting state. |
| Plugin.EnterPrerollWait | es5/plugin.js:283-304 | `readyforpreroll` is announced. After `nopreroll`, a `nopreroll` is triggered one tick later. Otherwise the loading class shows and the preroll timeout is armed. |
| Plugin.EnterAdsReadyWait | es5/plugin.js:331-336 | The loading class shows and the `adsready` timeout is armed. |
| Plugin.TakeSnapshot | es5/plugin.js:366-368 | The snapshot and the player afterwards are those of `Capture`. |
| Plugin.SaveContent | es5/plugin.js:365-374 | Without content behind the ad a snapshot is taken. With it, the volume is saved and the player muted. |
| Plugin.ShowAd | es5/plugin.js:376-398 | The ad-playing class shows, the live class goes, and the poster is removed. A play cancellation in flight gets a one-tick clear. |
| Plugin.EnterAdPlayback | es5/plugin.js:364-399 | The content is saved, the ad is shown, and nothing state-owned is pending. |
| Plugin.EnterContentResuming | es5/plugin.js:431-442 | Once content has ended, the fallback `ended` is re-armed at 1000 ms; otherwise nothing changes. |
| Plugin.EnterPostrollWait | es5/plugin.js:463-480 | A snapshot is taken. After `nopostroll`, content resumes one tick later. Otherwise the loading class shows and the postroll timeout is armed. |
| Plugin.EnterContentPlayback | es5/plugin.js:514-538 | The cancellation in flight is cleared and `contentplayback` is triggered with the transition's event. A cancelled play resumes exactly when paused, and the cancellation is forgotten. |
| Plugin.Leave | es5/plugin.js:609-612 | The previous state's `leave` leaves no state-owned timer pending, and throws exactly in ad-playback without a restorable snapshot. |
| Plugin.Enter | es5/plugin.js:614-617 | The new state's `enter` restores the invariant and sets up what the state needs (`Settled`). |
| Plugin.Transition | es5/plugin.js:602-618 | The event is recorded in `triggerevent`, then `leave` runs, and then `enter` unless `leave` threw. |
| Plugin.ProcessEvent | es5/plugin.js:586-618 | The handler runs as the table says. Only a state change runs `leave` then `enter`, in that order, with the triggering event recorded. Pending ad timeouts and fallback `ended` belong to the new state. |
| Plugin.MarkStarted | es5/plugin.js:108-112 | After `ended`, the player carries the has-started class. |
| Plugin.PlayLoadedAd | es5/plugin.js:119-125 | The ad is played exactly when its source differs from the snapshot's; the listener throws exactly when there is no snapshot. |
| Plugin.NoteNoPreroll | es5/plugin.js:127-129 | `nopreroll` sets the flag that the `preroll?` enter reads. |
| Plugin.NoteNoPostroll | es5/plugin.js:131-133 | `nopostroll` sets the flag that the `postroll?` enter reads. |
| Plugin.DropLoadingClass | es5/plugin.js:137-139 | The loading class goes once an ad or the content plays. |
| Plugin.ContribAds | es5/plugin.js:90-242 | A paused player starts in content-set with the source remembered and the check scheduled. An autoplaying player has already processed a synthetic `play` and waits for ads with the timeout armed. |
| Callbacks.ResumeAsWritten | es5/plugin.js:466-472 | The as-written callback forces content-resuming and keeps every timer. |
| Callbacks.ResumeGuarded | es5/plugin.js:466-472 | The guarded callback changes nothing outside `postroll?`; in it, it resumes with the ad timeout cleared. |
| Callbacks.GuardedKeepsOwnership | es5/plugin.js:466-472 | The guarded callback keeps every state-owned timer with its state. |
| Callbacks.NoPostrollRace | es5/plugin.js:466-472 | After a `contentupdate` in `postroll?`, the as-written callback leaves a pending `adtimeout` outside any waiting state; the guarded one leaves the player alone. |
| Callbacks.ResumeWithoutPostrollAsWritten | es5/plugin.js:466-472 | The as-written callback: content-resuming whatever the state, then `ended`. |
| Callbacks.ResumeWithoutPostroll | es5/plugin.js:466-472 | The guarded callback keeps the invariant. In `postroll?` it leaves that state, resumes and triggers `ended`; elsewhere it does nothing. |
| Callbacks.ClearPlayCancellation | es5/plugin.js:394-397 | The cancellation in flight is cleared and forgotten. |
| Callbacks.FireTimer | es5/plugin.js:290-300 | A fired timer is no longer pending and its callback runs: the announced event is triggered, or the restore, cancellation or source check runs. The invariant holds throughout. |

## Left out

- The video.js event bus is not modelled: listener registration and order, one-shot listeners, and delivering a triggered event to `redispatch`, `processEvent` and the set-up listeners. Each listener is a method to be called with the event, and what an operation triggers is recorded in `fired`.
- The `nopreroll` and `nopostroll` flags are set only by their listeners (`Plugin.NoteNoPreroll`, `Plugin.NoteNoPostroll`); nothing ties those calls to the events.
- `contentcanplay` and `contentloadedmetadata` are not delivered either. Their waiting restores are kept as lists (`canPlayListeners`, `metadataListeners`). `Snapshot.TryToResume` and `Snapshot.RestoreTracks` are what those listeners run.
- The iPhone placeholder in cancelContentPlay.js:23-57 is left out, because it is DOM styling and does not change the ad state.
- Debug logging and the `VERSION` string are left out, because they do not affect behaviour.
- `isLive(player)`, `shouldPlayContentBehindAd(player)` and `IS_IOS` are inputs (`Env`), because they read browser and duration facts.
- `Snapshot.CapturedTime`, `Snapshot.ResumeCalls`: the iOS live-stream time arithmetic uses `real`, not floating point.
- `Snapshot.TryToResume`: the `try`/`catch` around the final resume is not modelled, because the resume calls cannot throw in the model.
- CSS classes are a set. `hasClass`/`addClass` is therefore one set union.
- `Macros.ReplacePageVariables` takes the page-variable lookup as a function. An `undefined` intermediate object in the `window` walk throws in the source and is not modelled.
- Macro tables keep `for..in` order as insertion order. JavaScript visits integer-like keys (a `customMacros` key such as `"1"`, say) first, in ascending order; that reordering is not modelled. It only changes the result when one macro's value contains another macro's key.
- The static macros are written by a loop over their list (`Macros.AdMacroReplacement`), where the source has thirteen assignments in the same order.
- `CueTextTracks.ProcessMetadataTracks`: `setMetadataTrackMode` and the integration's `processMetadataTrack` are not called. The method returns the tracks handed to them, and the `addtrack` listener's filter is `HandsOnAddedTrack`.
- The integration hooks `getSupportedAdCue` and `getCueId` are function parameters; `processCue` and `cancelAds` are recorded as calls.
- `Snapshot.RestoreTracks` writes the in-band records back before the remote ones, each list last to first: the corrected restore of the first "## Findings" row. es5/snapshot.js:110-120 writes the remote records first to last, then the in-band ones; that order is `Snapshot.RestoredTracksAsWritten`, and the two agree unless a track is listed twice (`Snapshot.AsWrittenAgreesOnDistinctTracks`).
- `Snapshot.RestorePlayerSnapshot` restores tracks in that corrected order, and so do `Plugin.LeaveAdPlayback` and `Plugin.ProcessEvent` through it. A track that is both remote and in-band and was showing before the ad comes back showing in the model; the source leaves it disabled.
- `Snapshot.AfterRestore`: its in-place branch uses the corrected track order, for the same reason.
- `Snapshot.ResumedInPlace`: the tracks it restores are the corrected `Snapshot.RestoredTracks`, not `Snapshot.RestoredTracksAsWritten`.
- `Callbacks.FireTimer` runs the one-tick `nopostroll` callback in its corrected, guarded form (`Callbacks.ResumeWithoutPostroll`, the second "## Findings" row). The source's unconditional callback is `Callbacks.ResumeWithoutPostrollAsWritten`; it can break `Valid()` (`Callbacks.NoPostrollRace`), so the claim that every operation keeps `Valid()` holds of the corrected program only.
- `Snapshot.Capture`, `Snapshot.GetPlayerSnapshot`, `Snapshot.RestoredAttributes`, `Snapshot.TryToResume`: the player is assumed to have its `.vjs-tech` element. Without one, the source records no poster or style (es5/snapshot.js:57-60), so the restore writes neither back, and `tryToResume` throws on `tech.readyState` (es5/snapshot.js:167-169). Neither case is modelled.
- The handler actions run before the state assignment where the order cannot be observed (es5/plugin.js:254-258, 490-494).

## Findings

| source | as written | input that shows it | evidently intended | confidence | as-written member | corrected member |
|---|---|---|---|---|---|---|
| es5/snapshot.js:110-120 | `restoreTracks` writes the remote records back first, then the in-band records. video.js lists remote tracks in `textTracks()` too, so a shared track's in-band record was taken after the remote loop disabled it. It is written last and leaves the track disabled. | one showing track listed both in `remoteTextTracks()` and `textTracks()` | every suppressed track gets its pre-ad mode back | not executed | Snapshot.SharedTrackLeftDisabled | Snapshot.CaptureThenRestoreTracks |
| es5/plugin.js:466-472 | The one-tick `nopostroll` callback sets the state to content-resuming unconditionally. A `contentupdate` in `postroll?` within that tick (es5/plugin.js:508-510) moves to `ads-ready?`, whose `enter` arms an ad timeout. The callback then leaves that `adtimeout` pending outside any waiting state. | `nopostroll` seen, `contentended`, then `contentupdate` before the 1 ms timer fires | resume only while still in `postroll?`, as its `leave` would | not executed | Callbacks.NoPostrollRace | Callbacks.GuardedKeepsOwnership |
