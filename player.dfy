/**
 * The state the ad plugin shares between its features: the `player.ads`
 * namespace (lifecycle state, snapshot, flags, timer handles) and an abstract
 * view of the player and its playback tech.  Timers are handles in a pending
 * map, `trigger` appends to `fired`, and calls made on the player are appended
 * to `calls` and applied to `media`.
 */
module Player {
  import opened Wrappers
  import opened Events

  type Handle = nat

  datatype Mode = Disabled | Hidden | Showing
  datatype TrackKind = Subtitles | Captions | Descriptions | Chapters | Metadata
  datatype TextTrack = TextTrack(kind: TrackKind, mode: Mode)

  /** A suppressed track: the track (its index in the track table) and its mode before suppression. */
  datatype TrackRecord = TrackRecord(track: nat, mode: Mode)

  /** What `getPlayerSnapshot` records before an ad break. */
  datatype Snapshot = Snapshot(
    ended: bool,
    currentSrc: string,
    src: string,
    currentTime: real,
    mediaType: string,
    nativePoster: string,
    style: Option<string>,
    suppressedRemoteTracks: seq<TrackRecord>,
    suppressedTracks: seq<TrackRecord>)

  /**
   * The player and its tech as the plugin reads them.  `tracks` is the table of
   * text-track objects; `remoteTracks` and `textTracks` list indices into it, in
   * the order `remoteTextTracks()` and `textTracks()` return them (a track may be
   * in both).  `seekableEnd` is `seekable().end(0)`, `None` when `seekable()` is
   * empty; `techSeekable` is the tech's `seekable.length`, `None` when undefined.
   */
  datatype Media = Media(
    paused: bool,
    ended: bool,
    src: string,
    currentSrc: string,
    currentType: string,
    currentTime: real,
    duration: real,
    volume: real,
    seekableEnd: Option<real>,
    tracks: seq<TextTrack>,
    remoteTracks: seq<nat>,
    textTracks: seq<nat>,
    poster: string,
    style: Option<string>,
    readyState: int,
    techSeekable: Option<nat>)

  predicate IdsIn(ids: seq<nat>, n: nat)
  {
    forall k :: 0 <= k < |ids| ==> ids[k] < n
  }

  predicate TracksValid(m: Media)
  {
    IdsIn(m.remoteTracks, |m.tracks|) && IdsIn(m.textTracks, |m.tracks|)
  }

  /** Browser and duration facts: `IS_IOS`, `isLive(player)`, `shouldPlayContentBehindAd(player)`. */
  datatype Env = Env(isIOS: bool, isLive: bool, playContentBehindAd: bool)

  /** The plugin options the core reads (`debug` only changes logging). */
  datatype Settings = Settings(timeout: nat, prerollTimeout: nat, postrollTimeout: nat, stitchedAds: bool)

  const Defaults := Settings(5000, 100, 100, false)

  /** One `restorePlayerSnapshot` closure waiting for the tech: its snapshot and its `attempts` counter. */
  datatype ResumeJob = ResumeJob(id: nat, snapshot: Snapshot, attempts: int)

  /** What a scheduled callback does when it fires. */
  datatype Callback =
    | FireAdTimeout              // trigger('adtimeout')
    | FireEnded                  // content-resuming's 1000 ms trigger('ended')
    | Deferred(event: Event)     // a one-tick trigger(event)
    | NoPostrollResume           // postroll?'s one-tick forced resume
    | ClearCancelPlay            // ad-playback's one-tick clear of cancelPlayTimeout
    | FireCancelPlay             // cancelContentPlay's pause
    | TryToResume(job: ResumeJob)
    | CheckSrc                   // contentupdate's initial check

  datatype Timer = Timer(delay: nat, callback: Callback)

  /** The extra properties of a triggered event object. */
  datatype Detail =
    | Plain
    | Redispatched(state: State, original: Event)
    | SourceChange(oldValue: string, newValue: string)
    | Compat(triggerEvent: Option<Event>)

  datatype Fired = Fired(event: Event, detail: Detail)

  /** Calls the plugin makes on the player. */
  datatype Call = PlayMedia | PauseMedia | SeekTo(time: real) | SetSource(src: string, mediaType: string) | LoadSource | SetVolume(volume: real)

  /** The immediate effect of a call on the player's state. */
  function Effect(m: Media, c: Call): (r: Media)
    ensures r.tracks == m.tracks && r.remoteTracks == m.remoteTracks && r.textTracks == m.textTracks
    ensures r.ended == m.ended && r.duration == m.duration && r.poster == m.poster && r.style == m.style
    ensures c.PlayMedia? ==> !r.paused
    ensures c.LoadSource? ==> r.currentSrc == m.src && r.src == m.src
  {
    match c
    case PlayMedia => m.(paused := false)
    case PauseMedia => m.(paused := true)
    case SeekTo(t) => m.(currentTime := t)
    case SetSource(s, t) => m.(src := s, currentType := t)
    case LoadSource => m.(currentSrc := m.src)
    case SetVolume(v) => m.(volume := v)
  }

  function Effects(m: Media, cs: seq<Call>): (r: Media)
    ensures r.tracks == m.tracks && r.remoteTracks == m.remoteTracks && r.textTracks == m.textTracks
    decreases cs
  {
    if cs == [] then m else Effects(Effect(m, cs[0]), cs[1..])
  }

  lemma EffectsAppend(m: Media, cs: seq<Call>, c: Call)
    ensures Effects(m, cs + [c]) == Effect(Effects(m, cs), c)
    decreases cs
  {
    if cs != [] {
      assert (cs + [c])[1..] == cs[1..] + [c];
      EffectsAppend(Effect(m, cs[0]), cs[1..], c);
    }
  }

  datatype CssClass = VjsAdLoading | VjsAdPlaying | VjsLive | VjsHasStarted

  /** The state machine's steps, in the order they ran (used in proofs only). */
  datatype Step = Handled(state: State, event: Event) | Left(state: State) | Entered(state: State)

  /**
   * `videoElementRecycled()`: `None` where the source throws (no snapshot),
   * otherwise whether `src()` or `currentSrc()` differs from the snapshot's.
   */
  function VideoElementRecycled(m: Media, snapshot: Option<Snapshot>): (r: Option<bool>)
    ensures r.None? <==> snapshot.None?
    ensures snapshot.Some? ==> (r == Some(true) <==> m.src != snapshot.value.src || m.currentSrc != snapshot.value.currentSrc)
  {
    match snapshot
    case None => None
    case Some(s) => Some(m.src != s.src || m.currentSrc != s.currentSrc)
  }

  function Cleared(timers: map<Handle, Timer>, h: Option<Handle>): map<Handle, Timer>
  {
    if h.Some? then timers - {h.value} else timers
  }

  /**
   * Every state-owned timer pending belongs to state `s`: an `adtimeout` only
   * in a waiting state and only through `adTimeout`, the fallback `ended` only
   * in content-resuming and only through `fireEnded`.
   */
  predicate TimersOwned(s: State, timers: map<Handle, Timer>, adTimeout: Option<Handle>, fireEnded: Option<Handle>)
  {
    forall h :: h in timers ==>
      && (timers[h].callback == FireAdTimeout ==> IsWaitState(s) && adTimeout == Some(h))
      && (timers[h].callback == FireEnded ==> s == ContentResuming && fireEnded == Some(h))
  }

  class Player {
    const settings: Settings

    // player.ads
    var state: State
    var snapshot: Option<Snapshot>
    var contentHasEnded: bool
    var disableNextSnapshotRestore: bool
    var nopreroll: bool
    var nopostroll: bool
    var stitched: bool
    var triggerEvent: Option<Event>
    var adTimeoutTimeout: Option<Handle>
    var fireEndedTimeout: Option<Handle>
    var cancelPlayTimeout: Option<Handle>
    var tryToResumeTimeout: Option<Handle>
    var cancelledPlay: bool
    var preAdVolume: Option<real>
    var contentSrc: string
    var includedCues: set<string>

    // the rest of the player
    var media: Media
    var env: Env
    var classes: set<CssClass>
    var metadataListeners: seq<Snapshot>
    var canPlayListeners: seq<ResumeJob>
    var nextJob: nat
    var timers: map<Handle, Timer>
    var nextHandle: Handle
    var fired: seq<Fired>
    var calls: seq<Call>

    /** Structural facts: valid track indices, handles (pending or named) below `nextHandle`, each handle field naming its own kind of timer. */
    ghost predicate Wf()
      reads this
    {
      TracksValid(media) && HandlesFresh() && HandlesNamed()
    }

    /** Every pending or named handle was handed out by `SetTimeout`. */
    ghost predicate HandlesFresh()
      reads this
    {
      && 0 < nextHandle
      && (forall h :: h in timers ==> 0 < h < nextHandle)
      && (adTimeoutTimeout.Some? ==> adTimeoutTimeout.value < nextHandle)
      && (fireEndedTimeout.Some? ==> fireEndedTimeout.value < nextHandle)
      && (cancelPlayTimeout.Some? ==> cancelPlayTimeout.value < nextHandle)
      && (tryToResumeTimeout.Some? ==> tryToResumeTimeout.value < nextHandle)
    }

    /** A handle field that names a pending timer names one of its own kind. */
    ghost predicate HandlesNamed()
      reads this
    {
      && (adTimeoutTimeout.Some? && adTimeoutTimeout.value in timers ==> timers[adTimeoutTimeout.value].callback == FireAdTimeout)
      && (fireEndedTimeout.Some? && fireEndedTimeout.value in timers ==> timers[fireEndedTimeout.value].callback == FireEnded)
      && (tryToResumeTimeout.Some? && tryToResumeTimeout.value in timers ==> timers[tryToResumeTimeout.value].callback.TryToResume?)
    }

    /** `TimersOwned` for this player's timers and handles. */
    ghost predicate TimersOwnedIn(s: State)
      reads this
    {
      TimersOwned(s, timers, adTimeoutTimeout, fireEndedTimeout)
    }

    /** No state-owned timer is pending at all. */
    ghost predicate NoOwnedTimers()
      reads this
    {
      forall h :: h in timers ==> timers[h].callback != FireAdTimeout && timers[h].callback != FireEnded
    }

    /** At most one play cancellation is in flight, and `cancelPlayTimeout` names it. */
    ghost predicate SingleFlight()
      reads this
    {
      && (forall h :: h in timers && timers[h].callback == FireCancelPlay ==> cancelPlayTimeout == Some(h))
      && (cancelPlayTimeout.Some? ==> cancelPlayTimeout.value in timers && timers[cancelPlayTimeout.value].callback == FireCancelPlay)
    }

    ghost predicate Valid()
      reads this
    {
      Wf() && TimersOwnedIn(state) && SingleFlight()
    }

    /** The `player.ads` object as the plugin creates it (es5/plugin.js:142-233). */
    constructor (settings: Settings, media: Media, env: Env)
      requires TracksValid(media)
      ensures Valid()
      ensures this.settings == settings && this.media == media && this.env == env
      ensures state == ContentSet && snapshot == None && !contentHasEnded && !disableNextSnapshotRestore
      ensures !nopreroll && !nopostroll && stitched == settings.stitchedAds && triggerEvent == None
      ensures adTimeoutTimeout == None && fireEndedTimeout == None && cancelPlayTimeout == None && tryToResumeTimeout == None
      ensures !cancelledPlay && preAdVolume == None && includedCues == {} && classes == {}
      ensures metadataListeners == [] && canPlayListeners == [] && timers == map[] && nextHandle == 1
      ensures fired == [] && calls == []
    {
      this.settings := settings;
      this.media := media;
      this.env := env;
      state := ContentSet;
      snapshot := None;
      contentHasEnded := false;
      disableNextSnapshotRestore := false;
      nopreroll := false;
      nopostroll := false;
      stitched := settings.stitchedAds;
      triggerEvent := None;
      adTimeoutTimeout := None;
      fireEndedTimeout := None;
      cancelPlayTimeout := None;
      tryToResumeTimeout := None;
      cancelledPlay := false;
      preAdVolume := None;
      contentSrc := media.currentSrc;
      includedCues := {};
      classes := {};
      metadataListeners := [];
      canPlayListeners := [];
      nextJob := 0;
      timers := map[];
      nextHandle := 1;
      fired := [];
      calls := [];
    }

    /** `setTimeout`: a fresh handle, pending with its delay and callback. */
    method SetTimeout(delay: nat, callback: Callback) returns (h: Handle)
      requires forall k :: k in timers ==> k < nextHandle
      modifies `timers, `nextHandle
      ensures h == old(nextHandle) && h !in old(timers) && nextHandle == h + 1
      ensures timers == old(timers)[h := Timer(delay, callback)]
    {
      h := nextHandle;
      timers := timers[h := Timer(delay, callback)];
      nextHandle := nextHandle + 1;
    }

    /**
     * `setTimeout` for a callback no state owns and that is not a play
     * cancellation: the invariants hold on, for the state that owns the timers.
     */
    method Schedule(delay: nat, callback: Callback, ghost owner: State) returns (h: Handle)
      requires Wf() && SingleFlight() && TimersOwnedIn(owner)
      requires callback !in {FireAdTimeout, FireEnded, FireCancelPlay}
      modifies `timers, `nextHandle
      ensures Wf() && SingleFlight() && TimersOwnedIn(owner)
      ensures h == old(nextHandle) && h !in old(timers) && nextHandle == h + 1
      ensures timers == old(timers)[h := Timer(delay, callback)]
    {
      h := SetTimeout(delay, callback);
    }

    /** `clearTimeout`: the handle is no longer pending; a missing or stale handle is ignored. */
    method ClearTimeout(h: Option<Handle>)
      modifies `timers
      ensures timers == Cleared(old(timers), h)
    {
      if h.Some? {
        timers := timers - {h.value};
      }
    }

    method Trigger(e: Event, detail: Detail)
      modifies `fired
      ensures fired == old(fired) + [Fired(e, detail)]
    {
      fired := fired + [Fired(e, detail)];
    }

    method Invoke(c: Call)
      modifies `calls, `media
      ensures calls == old(calls) + [c] && media == Effect(old(media), c)
    {
      calls := calls + [c];
      media := Effect(media, c);
    }

    /** `reset()`: forget the restore suppression, the content end and the snapshot. */
    method Reset()
      modifies `disableNextSnapshotRestore, `contentHasEnded, `snapshot
      ensures !disableNextSnapshotRestore && !contentHasEnded && snapshot == None
    {
      disableNextSnapshotRestore := false;
      contentHasEnded := false;
      snapshot := None;
    }

    /** `startLinearAdMode()`: `adstart` only from preroll?, content-playback or postroll?. */
    method StartLinearAdMode()
      modifies `fired
      ensures fired == old(fired) + (if state in {PrerollWait, ContentPlayback, PostrollWait} then [Fired(AdStart, Plain)] else [])
    {
      if state == PrerollWait || state == ContentPlayback || state == PostrollWait {
        Trigger(AdStart, Plain);
      }
    }

    /** `endLinearAdMode()`: `adend`, and the loading class dropped, only from ad-playback. */
    method EndLinearAdMode()
      modifies `fired, `classes
      ensures fired == old(fired) + (if state == AdPlayback then [Fired(AdEnd, Plain)] else [])
      ensures classes == if state == AdPlayback then old(classes) - {VjsAdLoading} else old(classes)
    {
      if state == AdPlayback {
        Trigger(AdEnd, Plain);
        classes := classes - {VjsAdLoading};
      }
    }

    /** `skipLinearAdMode()`: `adskip` unless an ad is already playing. */
    method SkipLinearAdMode()
      modifies `fired
      ensures fired == old(fired) + (if state != AdPlayback then [Fired(AdSkip, Plain)] else [])
    {
      if state != AdPlayback {
        Trigger(AdSkip, Plain);
      }
    }

    /** `stitchedAds(arg)`: a defined argument sets the flag; the flag is returned. */
    method StitchedAds(arg: Option<bool>) returns (r: bool)
      modifies `stitched
      ensures stitched == (if arg.Some? then arg.value else old(stitched)) && r == stitched
    {
      if arg.Some? {
        stitched := arg.value;
      }
      r := stitched;
    }
  }
}
