/**
 * The ad plugin at work on a player: the state machine's `processEvent` with
 * the handlers and the `enter` and `leave` actions of each state, and the
 * plugin's set-up.  Every step keeps `Valid()`: the pending ad
 * timeout and fallback `ended` belong to the current state.
 */
module Plugin {
  import opened Wrappers
  import opened Events
  import opened Player
  import opened States
  import Redispatch
  import SnapshotOps = Snapshot
  import CancelContentPlay
  import ContentUpdate

  /** What the handlers of the current event read. */
  function CondOf(p: Player): Cond
    reads p
  {
    Cond(p.media.paused, p.contentHasEnded, p.env.playContentBehindAd)
  }

  /** The events a handler triggers synchronously, in order. */
  function HandlerEvents(actions: seq<Action>): seq<Fired>
  {
    (if TriggerAdEnd in actions then [Fired(AdEnd, Plain)] else [])
    + (if TriggerReadyForPreroll in actions then [Fired(ReadyForPreroll, Plain)] else [])
  }

  /** The one timer a handler schedules, if any: the play cancellation (unless one is in flight) or the deferred `ended`. */
  function HandlerTimer(actions: seq<Action>, cancelInFlight: bool): Option<Callback>
  {
    if CancelPlay in actions && !cancelInFlight then Some(FireCancelPlay)
    else if EndedSoon in actions then Some(Deferred(Ended))
    else None
  }

  /** No handler both cancels a play and defers an `ended`, so a handler schedules at most one timer. */
  lemma HandlersScheduleOneTimer(s: State, e: Event, c: Cond)
    ensures var r := Handler(s, e, c);
      r.Some? ==> !(CancelPlay in r.value.actions && EndedSoon in r.value.actions)
  {
  }

  /** The handle names a pending timer, and that timer is `t`. */
  predicate Armed(timers: map<Handle, Timer>, h: Option<Handle>, t: Timer)
  {
    h.Some? && h.value in timers && timers[h.value] == t
  }

  lemma QuietStateOwnsNothing(p: Player, s: State)
    requires p.TimersOwnedIn(s) && !IsWaitState(s) && s != ContentResuming
    ensures p.NoOwnedTimers()
  {
  }

  lemma NothingOwnedFitsAnyState(p: Player, s: State)
    requires p.NoOwnedTimers()
    ensures p.TimersOwnedIn(s)
  {
  }

  /** `removeNativePoster(player)`: the tech's `poster` attribute is removed. */
  method RemoveNativePoster(p: Player)
    modifies p`media
    ensures p.media == old(p.media).(poster := "")
  {
    p.media := p.media.(poster := "");
  }

  /** The part of the player a handler reads or writes. */
  datatype HandlerView = HandlerView(
    state: State,
    cancelPlayTimeout: Option<Handle>,
    timers: map<Handle, Timer>,
    nextHandle: Handle,
    media: Media,
    fired: seq<Fired>,
    contentHasEnded: bool)

  function HandlerViewOf(p: Player): HandlerView
    reads p
  {
    HandlerView(p.state, p.cancelPlayTimeout, p.timers, p.nextHandle, p.media, p.fired, p.contentHasEnded)
  }

  /**
   * The view after a handler with reaction `r` ran: the target state, at
   * most one new 1 ms timer, the poster removed, the events triggered and the
   * content-ended flag.
   */
  function AfterReaction(a: HandlerView, r: Reaction): HandlerView
  {
    var tm := HandlerTimer(r.actions, a.cancelPlayTimeout.Some?);
    HandlerView(
      r.target,
      if tm == Some(FireCancelPlay) then Some(a.nextHandle) else a.cancelPlayTimeout,
      if tm.Some? then a.timers[a.nextHandle := Timer(1, tm.value)] else a.timers,
      if tm.Some? then a.nextHandle + 1 else a.nextHandle,
      if RemovePoster in r.actions then a.media.(poster := "") else a.media,
      a.fired + HandlerEvents(r.actions),
      a.contentHasEnded || MarkContentEnded in r.actions)
  }

  /** The view after the handler for `e`, as the table says; without a handler, nothing changes. */
  function AfterHandler(e: Event, c: Cond, a: HandlerView): HandlerView
  {
    match Handler(a.state, e, c)
    case None => a
    case Some(r) => AfterReaction(a, r)
  }

  /** A handler that only assigns the state changes nothing else. */
  lemma AfterGo(e: Event, c: Cond, a: HandlerView, target: State)
    requires Handler(a.state, e, c) == Go(target)
    ensures AfterHandler(e, c, a) == a.(state := target)
  {
  }

  /** A handler that assigns the state and cancels play schedules the cancellation unless one is in flight. */
  lemma AfterCancel(e: Event, c: Cond, a: HandlerView, target: State)
    requires Handler(a.state, e, c) == Some(Reaction(target, [CancelPlay]))
    ensures AfterHandler(e, c, a) ==
      if a.cancelPlayTimeout.Some? then a.(state := target)
      else a.(state := target, cancelPlayTimeout := Some(a.nextHandle),
              timers := a.timers[a.nextHandle := Timer(1, FireCancelPlay)], nextHandle := a.nextHandle + 1)
  {
  }

  /** Giving up on the postroll: content-resuming, and a 1 ms timer that triggers `ended`. */
  lemma AfterEndedSoon(e: Event, c: Cond, a: HandlerView)
    requires Handler(a.state, e, c) == Some(Reaction(ContentResuming, [EndedSoon]))
    ensures AfterHandler(e, c, a) ==
      a.(state := ContentResuming, timers := a.timers[a.nextHandle := Timer(1, Deferred(Ended))], nextHandle := a.nextHandle + 1)
  {
  }

  /** An event the state has no handler for changes nothing. */
  lemma AfterNone(e: Event, c: Cond, a: HandlerView)
    requires Handler(a.state, e, c) == None
    ensures AfterHandler(e, c, a) == a
  {
  }

  /** The view after `n` `play` events in a row, each run through the table. */
  function Plays(c: Cond, a: HandlerView, n: nat): HandlerView
  {
    if n == 0 then a else AfterHandler(Play, c, Plays(c, a, n - 1))
  }

  /**
   * `play` events in a row, from any state that handles `play`, schedule one
   * play cancellation: the first schedules it unless one is in flight, and
   * every later one changes nothing. Once the cancellation has fired (its handle
   * cleared), the next `play` schedules again.
   */
  lemma {:induction false} PlaysCoalesce(c: Cond, a: HandlerView, n: nat)
    requires a.state in {ContentSet, AdsReady, PrerollWait, AdsReadyWait}
    ensures var b := AfterHandler(Play, c, a);
      && Plays(c, a, n + 1) == b
      && b.cancelPlayTimeout.Some?
      && (a.cancelPlayTimeout.None? ==>
            b.cancelPlayTimeout == Some(a.nextHandle) && b.timers == a.timers[a.nextHandle := Timer(1, FireCancelPlay)])
      && (a.cancelPlayTimeout.Some? ==> b.timers == a.timers && b.cancelPlayTimeout == a.cancelPlayTimeout)
      && AfterHandler(Play, c, b.(cancelPlayTimeout := None)).cancelPlayTimeout == Some(b.nextHandle)
  {
    var b := AfterHandler(Play, c, a);
    if n > 0 {
      PlaysCoalesce(c, a, n - 1);
      assert Plays(c, a, n + 1) == AfterHandler(Play, c, b);
    }
  }

  /**
   * A `play` (or content-playback's `contentupdate`) handler whose table entry
   * is "cancel play, then go to `target`": `cancelContentPlay(player)` and the
   * state assignment.
   */
  method CancelAndGo(p: Player, e: Event, target: State)
    requires p.Valid() && Handler(p.state, e, CondOf(p)) == Some(Reaction(target, [CancelPlay]))
    modifies p`state, p`cancelPlayTimeout, p`timers, p`nextHandle
    ensures p.Wf() && p.SingleFlight() && p.TimersOwnedIn(old(p.state))
    ensures HandlerViewOf(p) == AfterHandler(e, old(CondOf(p)), old(HandlerViewOf(p)))
  {
    AfterCancel(e, CondOf(p), HandlerViewOf(p), target);
    var _ := CancelContentPlay.CancelContentPlay(p);
    p.state := target;
  }

  /** `states['content-set'].events.play`: cancel play, remove the poster, wait for ads. */
  method ContentSetPlay(p: Player)
    requires p.Valid() && p.state == ContentSet
    modifies p`state, p`cancelPlayTimeout, p`timers, p`nextHandle, p`media
    ensures p.Wf() && p.SingleFlight() && p.TimersOwnedIn(ContentSet)
    ensures HandlerViewOf(p) == AfterHandler(Play, old(CondOf(p)), old(HandlerViewOf(p)))
  {
    var _ := CancelContentPlay.CancelContentPlay(p);
    RemoveNativePoster(p);
    p.state := AdsReadyWait;
  }

  /** `states['content-set'].events`. */
  method HandleContentSet(p: Player, e: Event)
    requires p.Valid() && p.state == ContentSet
    modifies p`state, p`cancelPlayTimeout, p`timers, p`nextHandle, p`media
    ensures p.Wf() && p.SingleFlight() && p.TimersOwnedIn(ContentSet)
    ensures HandlerViewOf(p) == AfterHandler(e, old(CondOf(p)), old(HandlerViewOf(p)))
  {
    ghost var a, c := HandlerViewOf(p), CondOf(p);
    if e == AdsCanceled || e == AdsError || e == AdSkip {
      AfterGo(e, c, a, ContentPlayback);
      p.state := ContentPlayback;
    } else if e == AdsReadyEvent {
      AfterGo(e, c, a, AdsReady);
      p.state := AdsReady;
    } else if e == Play {
      ContentSetPlay(p);
    } else {
      AfterNone(e, c, a);
    }
  }

  /** `states['ads-ready'].events`. */
  method HandleAdsReady(p: Player, e: Event)
    requires p.Valid() && p.state == AdsReady
    modifies p`state, p`cancelPlayTimeout, p`timers, p`nextHandle
    ensures p.Wf() && p.SingleFlight() && p.TimersOwnedIn(AdsReady)
    ensures HandlerViewOf(p) == AfterHandler(e, old(CondOf(p)), old(HandlerViewOf(p)))
  {
    ghost var a, c := HandlerViewOf(p), CondOf(p);
    if e == Play {
      CancelAndGo(p, e, PrerollWait);
    } else if e == AdSkip || e == AdsError {
      AfterGo(e, c, a, ContentPlayback);
      p.state := ContentPlayback;
    } else {
      AfterNone(e, c, a);
    }
  }

  /** `states['preroll?'].events`. */
  method HandlePrerollWait(p: Player, e: Event)
    requires p.Valid() && p.state == PrerollWait
    modifies p`state, p`cancelPlayTimeout, p`timers, p`nextHandle
    ensures p.Wf() && p.SingleFlight() && p.TimersOwnedIn(PrerollWait)
    ensures HandlerViewOf(p) == AfterHandler(e, old(CondOf(p)), old(HandlerViewOf(p)))
  {
    ghost var a, c := HandlerViewOf(p), CondOf(p);
    if e == Play {
      CancelAndGo(p, e, PrerollWait);
    } else if e == AdStart {
      AfterGo(e, c, a, AdPlayback);
      p.state := AdPlayback;
    } else if e == AdSkip || e == AdTimeout || e == AdsError || e == NoPreroll {
      AfterGo(e, c, a, ContentPlayback);
      p.state := ContentPlayback;
    } else {
      AfterNone(e, c, a);
    }
  }

  /** `states['ads-ready?'].events`. */
  method HandleAdsReadyWait(p: Player, e: Event)
    requires p.Valid() && p.state == AdsReadyWait
    modifies p`state, p`cancelPlayTimeout, p`timers, p`nextHandle
    ensures p.Wf() && p.SingleFlight() && p.TimersOwnedIn(AdsReadyWait)
    ensures HandlerViewOf(p) == AfterHandler(e, old(CondOf(p)), old(HandlerViewOf(p)))
  {
    ghost var a, c := HandlerViewOf(p), CondOf(p);
    if e == Play {
      CancelAndGo(p, e, AdsReadyWait);
    } else if e == AdsReadyEvent {
      AfterGo(e, c, a, PrerollWait);
      p.state := PrerollWait;
    } else if e == AdsCanceled || e == AdSkip || e == AdTimeout || e == AdsError {
      AfterGo(e, c, a, ContentPlayback);
      p.state := ContentPlayback;
    } else {
      AfterNone(e, c, a);
    }
  }

  /** `states['ad-playback'].events.adserror`: resume content and announce the end of the ad. */
  method AdPlaybackError(p: Player)
    requires p.Valid() && p.state == AdPlayback
    modifies p`state, p`fired
    ensures p.Wf() && p.SingleFlight() && p.TimersOwnedIn(AdPlayback)
    ensures HandlerViewOf(p) == AfterHandler(AdsError, old(CondOf(p)), old(HandlerViewOf(p)))
  {
    p.state := ContentResuming;
    p.Trigger(AdEnd, Plain);
  }

  /** `states['ad-playback'].events`. */
  method HandleAdPlayback(p: Player, e: Event)
    requires p.Valid() && p.state == AdPlayback
    modifies p`state, p`fired
    ensures p.Wf() && p.SingleFlight() && p.TimersOwnedIn(AdPlayback)
    ensures HandlerViewOf(p) == AfterHandler(e, old(CondOf(p)), old(HandlerViewOf(p)))
  {
    ghost var a, c := HandlerViewOf(p), CondOf(p);
    if e == AdEnd {
      AfterGo(e, c, a, ContentResuming);
      p.state := ContentResuming;
    } else if e == AdsError {
      AdPlaybackError(p);
    } else {
      AfterNone(e, c, a);
    }
  }

  /** `states['content-resuming'].events`. */
  method HandleContentResuming(p: Player, e: Event)
    requires p.Valid() && p.state == ContentResuming
    modifies p`state
    ensures p.Wf() && p.SingleFlight() && p.TimersOwnedIn(ContentResuming)
    ensures HandlerViewOf(p) == AfterHandler(e, old(CondOf(p)), old(HandlerViewOf(p)))
  {
    ghost var a, c := HandlerViewOf(p), CondOf(p);
    if e == ContentUpdate {
      AfterGo(e, c, a, ContentSet);
      p.state := ContentSet;
    } else if e == ContentResumed || e == Playing || e == Ended {
      AfterGo(e, c, a, ContentPlayback);
      p.state := ContentPlayback;
    } else {
      AfterNone(e, c, a);
    }
  }

  /** `states['postroll?'].events` for `adskip`, `adtimeout` and `adserror`: give up on the postroll and trigger `ended` a tick later. */
  method PostrollGiveUp(p: Player, e: Event)
    requires p.Valid() && p.state == PostrollWait && e in {AdSkip, AdTimeout, AdsError}
    modifies p`state, p`timers, p`nextHandle
    ensures p.Wf() && p.SingleFlight() && p.TimersOwnedIn(PostrollWait)
    ensures HandlerViewOf(p) == AfterHandler(e, old(CondOf(p)), old(HandlerViewOf(p)))
  {
    AfterEndedSoon(e, CondOf(p), HandlerViewOf(p));
    var _ := p.Schedule(1, Deferred(Ended), PostrollWait);
    p.state := ContentResuming;
  }

  /** `states['postroll?'].events`. */
  method HandlePostrollWait(p: Player, e: Event)
    requires p.Valid() && p.state == PostrollWait
    modifies p`state, p`timers, p`nextHandle
    ensures p.Wf() && p.SingleFlight() && p.TimersOwnedIn(PostrollWait)
    ensures HandlerViewOf(p) == AfterHandler(e, old(CondOf(p)), old(HandlerViewOf(p)))
  {
    ghost var a, c := HandlerViewOf(p), CondOf(p);
    if e == AdStart {
      AfterGo(e, c, a, AdPlayback);
      p.state := AdPlayback;
    } else if e == AdSkip || e == AdTimeout || e == AdsError {
      PostrollGiveUp(p, e);
    } else if e == ContentUpdate {
      AfterGo(e, c, a, AdsReadyWait);
      p.state := AdsReadyWait;
    } else {
      AfterNone(e, c, a);
    }
  }

  /** `states['content-playback'].events.contentupdate`: cancel play unless content plays behind the ad, then wait for ads again. */
  method HandleContentUpdate(p: Player)
    requires p.Valid() && p.state == ContentPlayback
    modifies p`state, p`cancelPlayTimeout, p`timers, p`nextHandle
    ensures p.Wf() && p.SingleFlight() && p.TimersOwnedIn(ContentPlayback)
    ensures HandlerViewOf(p) == AfterHandler(ContentUpdate, old(CondOf(p)), old(HandlerViewOf(p)))
  {
    var next := if p.media.paused then ContentSet else AdsReadyWait;
    if !p.env.playContentBehindAd {
      CancelAndGo(p, ContentUpdate, next);
    } else {
      AfterGo(ContentUpdate, CondOf(p), HandlerViewOf(p), next);
      p.state := next;
    }
  }

  /** `states['content-playback'].events.contentended`: the first end waits for a postroll, a later one resumes. */
  method ContentPlaybackEnded(p: Player)
    requires p.Valid() && p.state == ContentPlayback
    modifies p`state, p`contentHasEnded
    ensures p.Wf() && p.SingleFlight() && p.TimersOwnedIn(ContentPlayback)
    ensures HandlerViewOf(p) == AfterHandler(ContentEnded, old(CondOf(p)), old(HandlerViewOf(p)))
  {
    if p.contentHasEnded {
      p.state := ContentResuming;
      return;
    }
    p.contentHasEnded := true;
    p.state := PostrollWait;
  }

  /** `states['content-playback'].events`. */
  method HandleContentPlayback(p: Player, e: Event)
    requires p.Valid() && p.state == ContentPlayback
    modifies p`state, p`cancelPlayTimeout, p`timers, p`nextHandle, p`fired, p`contentHasEnded
    ensures p.Wf() && p.SingleFlight() && p.TimersOwnedIn(ContentPlayback)
    ensures HandlerViewOf(p) == AfterHandler(e, old(CondOf(p)), old(HandlerViewOf(p)))
  {
    ghost var a, c := HandlerViewOf(p), CondOf(p);
    if e == AdsReadyEvent {
      p.Trigger(ReadyForPreroll, Plain);
    } else if e == AdStart {
      AfterGo(e, c, a, AdPlayback);
      p.state := AdPlayback;
    } else if e == ContentUpdate {
      HandleContentUpdate(p);
    } else if e == ContentEnded {
      ContentPlaybackEnded(p);
    } else {
      AfterNone(e, c, a);
    }
  }

  /**
   * `states[state].events[event.type].apply(player.ads)`: the handler of the
   * current state for the event, if it has one, as the table `Handler` says.
   * The handler leaves the previous state's timers in place; `leave` clears them.
   */
  method RunHandler(p: Player, e: Event)
    requires p.Valid()
    modifies p`state, p`cancelPlayTimeout, p`timers, p`nextHandle, p`media, p`fired, p`contentHasEnded
    ensures p.Wf() && p.SingleFlight() && p.TimersOwnedIn(old(p.state))
    ensures HandlerViewOf(p) == AfterHandler(e, old(CondOf(p)), old(HandlerViewOf(p)))
    ensures var r := Handler(old(p.state), e, old(CondOf(p)));
      && (r.None? ==> unchanged(p)) && (r.Some? ==> p.state == r.value.target)
  {
    var state := p.state;
    ghost var target := AfterHandler(e, CondOf(p), HandlerViewOf(p));
    match state {
      case ContentSet => HandleContentSet(p, e);
      case AdsReady => HandleAdsReady(p, e);
      case PrerollWait => HandlePrerollWait(p, e);
      case AdsReadyWait => HandleAdsReadyWait(p, e);
      case AdPlayback => HandleAdPlayback(p, e);
      case ContentResuming => HandleContentResuming(p, e);
      case PostrollWait => HandlePostrollWait(p, e);
      case ContentPlayback => HandleContentPlayback(p, e);
    }
    ghost var v := HandlerViewOf(p);
    assert v == target;
    assert p.Wf() && p.SingleFlight() && p.TimersOwnedIn(state);
  }

  // ---------------------------------------------------------------------------
  // leave actions
  // ---------------------------------------------------------------------------

  /** `leave` of `ads-ready?`, `preroll?` and `postroll?`: clear the ad timeout; all but `preroll?` drop the loading class. */
  method LeaveWait(p: Player, prev: State)
    requires IsWaitState(prev)
    requires p.Wf() && p.SingleFlight() && p.TimersOwnedIn(prev)
    modifies p`timers, p`classes
    ensures p.Wf() && p.SingleFlight() && p.NoOwnedTimers()
    ensures p.timers == Cleared(old(p.timers), p.adTimeoutTimeout)
    ensures p.classes == if prev == PrerollWait then old(p.classes) else old(p.classes) - {VjsAdLoading}
  {
    p.ClearTimeout(p.adTimeoutTimeout);
    if prev != PrerollWait {
      p.classes := p.classes - {VjsAdLoading};
    }
  }

  /** `leave` of `content-resuming`: clear the fallback `ended`. */
  method LeaveContentResuming(p: Player)
    requires p.Wf() && p.SingleFlight() && p.TimersOwnedIn(ContentResuming)
    modifies p`timers
    ensures p.Wf() && p.SingleFlight() && p.NoOwnedTimers()
    ensures p.timers == Cleared(old(p.timers), p.fireEndedTimeout)
  {
    p.ClearTimeout(p.fireEndedTimeout);
  }

  /** `player.volume(v)` on a restore view; `volume(undefined)` only reads, so no volume means no change. */
  function VolumeRestored(a: SnapshotOps.RestoreView, v: Option<real>): SnapshotOps.RestoreView
  {
    match v
    case None => a
    case Some(x) => a.(calls := a.calls + [SetVolume(x)], media := Effect(a.media, SetVolume(x)))
  }

  /** The classes of `ad-playback`'s `leave`: the ad-playing class goes, and live content gets the live class back. */
  method ShowContentClasses(p: Player)
    requires p.Wf() && p.SingleFlight() && p.NoOwnedTimers()
    modifies p`classes
    ensures p.Wf() && p.SingleFlight() && p.NoOwnedTimers()
    ensures p.classes == (old(p.classes) - {VjsAdPlaying}) + (if p.env.isLive then {VjsLive} else {})
  {
    p.classes := p.classes - {VjsAdPlaying};
    if p.env.isLive {
      p.classes := p.classes + {VjsLive};
    }
  }

  /** `player.volume(this.preAdVolume_)`. */
  method RestoreVolume(p: Player)
    requires p.Wf()
    modifies p`calls, p`media
    ensures p.Wf()
    ensures SnapshotOps.RestoreViewOf(p) == VolumeRestored(old(SnapshotOps.RestoreViewOf(p)), p.preAdVolume)
  {
    if p.preAdVolume.Some? {
      p.Invoke(SetVolume(p.preAdVolume.value));
    }
  }

  /**
   * The content half of `ad-playback`'s `leave`: restore the snapshot, or,
   * with content playing behind the ad, the volume from before the ad.
   * Returns false where the restore throws (no snapshot).
   */
  method RestoreContent(p: Player) returns (ok: bool)
    requires p.Wf() && p.SingleFlight() && p.NoOwnedTimers()
    modifies p`disableNextSnapshotRestore, p`media, p`calls, p`metadataListeners, p`canPlayListeners
    modifies p`nextJob, p`timers, p`nextHandle, p`tryToResumeTimeout
    ensures p.Wf() && p.SingleFlight() && p.NoOwnedTimers()
    ensures ok <==> p.env.playContentBehindAd || old(p.disableNextSnapshotRestore) || old(p.snapshot).Some?
    ensures !p.env.playContentBehindAd ==> SnapshotOps.RestoreViewOf(p) == SnapshotOps.AfterRestore(old(SnapshotOps.RestoreViewOf(p)))
    ensures p.env.playContentBehindAd ==> SnapshotOps.RestoreViewOf(p) == VolumeRestored(old(SnapshotOps.RestoreViewOf(p)), p.preAdVolume)
  {
    if !p.env.playContentBehindAd {
      NothingOwnedFitsAnyState(p, p.state);
      ok := SnapshotOps.RestorePlayerSnapshot(p);
    } else {
      RestoreVolume(p);
      ok := true;
    }
  }

  /**
   * `leave` of `ad-playback`: drop the ad-playing class, restore the live
   * class for live content, then restore the content.  Returns false where
   * the restore throws (no snapshot).
   */
  method LeaveAdPlayback(p: Player) returns (ok: bool)
    requires p.Wf() && p.SingleFlight() && p.TimersOwnedIn(AdPlayback)
    modifies p`classes, p`disableNextSnapshotRestore, p`media, p`calls, p`metadataListeners, p`canPlayListeners
    modifies p`nextJob, p`timers, p`nextHandle, p`tryToResumeTimeout
    ensures p.Wf() && p.SingleFlight() && p.NoOwnedTimers()
    ensures p.classes == (old(p.classes) - {VjsAdPlaying}) + (if p.env.isLive then {VjsLive} else {})
    ensures ok <==> p.env.playContentBehindAd || old(p.disableNextSnapshotRestore) || old(p.snapshot).Some?
    ensures !p.env.playContentBehindAd ==> SnapshotOps.RestoreViewOf(p) == SnapshotOps.AfterRestore(old(SnapshotOps.RestoreViewOf(p)))
    ensures p.env.playContentBehindAd ==> SnapshotOps.RestoreViewOf(p) == VolumeRestored(old(SnapshotOps.RestoreViewOf(p)), p.preAdVolume)
  {
    QuietStateOwnsNothing(p, AdPlayback);
    ShowContentClasses(p);
    ok := RestoreContent(p);
  }

  // ---------------------------------------------------------------------------
  // enter actions
  // ---------------------------------------------------------------------------

  /** `this.adTimeoutTimeout = player.setTimeout(() => player.trigger('adtimeout'), delay)` in a waiting state. */
  method ArmAdTimeout(p: Player, delay: nat)
    requires p.Wf() && p.SingleFlight() && p.NoOwnedTimers() && IsWaitState(p.state)
    modifies p`timers, p`nextHandle, p`adTimeoutTimeout
    ensures p.Valid()
    ensures p.timers == old(p.timers)[old(p.nextHandle) := Timer(delay, FireAdTimeout)]
    ensures p.adTimeoutTimeout == Some(old(p.nextHandle)) && p.nextHandle == old(p.nextHandle) + 1
  {
    var h := p.SetTimeout(delay, FireAdTimeout);
    p.adTimeoutTimeout := Some(h);
  }

  /** Show the loading class; nothing the invariants speak about changes. */
  method ShowLoading(p: Player)
    requires p.Wf() && p.SingleFlight() && p.NoOwnedTimers()
    modifies p`classes
    ensures p.Wf() && p.SingleFlight() && p.NoOwnedTimers()
    ensures p.classes == old(p.classes) + {VjsAdLoading}
  {
    p.classes := p.classes + {VjsAdLoading};
  }

  /**
   * `enter` of `preroll?`: with `nopreroll` already seen, announce
   * `readyforpreroll` and trigger `nopreroll` a tick later; otherwise show the
   * loading class, arm the preroll timeout and announce `readyforpreroll`.
   */
  method EnterPrerollWait(p: Player)
    requires p.Wf() && p.SingleFlight() && p.NoOwnedTimers() && p.state == PrerollWait
    modifies p`fired, p`timers, p`nextHandle, p`classes, p`adTimeoutTimeout
    ensures p.Valid()
    ensures p.fired == old(p.fired) + [Fired(ReadyForPreroll, Plain)] && p.nextHandle == old(p.nextHandle) + 1
    ensures p.nopreroll ==>
      && p.timers == old(p.timers)[old(p.nextHandle) := Timer(1, Deferred(NoPreroll))]
      && p.classes == old(p.classes) && p.adTimeoutTimeout == old(p.adTimeoutTimeout)
    ensures !p.nopreroll ==>
      && p.timers == old(p.timers)[old(p.nextHandle) := Timer(p.settings.prerollTimeout, FireAdTimeout)]
      && p.adTimeoutTimeout == Some(old(p.nextHandle)) && p.classes == old(p.classes) + {VjsAdLoading}
  {
    if p.nopreroll {
      p.Trigger(ReadyForPreroll, Plain);
      var _ := p.SetTimeout(1, Deferred(NoPreroll));
    } else {
      ShowLoading(p);
      ArmAdTimeout(p, p.settings.prerollTimeout);
      p.Trigger(ReadyForPreroll, Plain);
    }
  }

  /** `enter` of `ads-ready?`: show the loading class and arm the ad timeout for `adsready`. */
  method EnterAdsReadyWait(p: Player)
    requires p.Wf() && p.SingleFlight() && p.NoOwnedTimers() && p.state == AdsReadyWait
    modifies p`timers, p`nextHandle, p`classes, p`adTimeoutTimeout
    ensures p.Valid()
    ensures p.classes == old(p.classes) + {VjsAdLoading}
    ensures p.timers == old(p.timers)[old(p.nextHandle) := Timer(p.settings.timeout, FireAdTimeout)]
    ensures p.adTimeoutTimeout == Some(old(p.nextHandle)) && p.nextHandle == old(p.nextHandle) + 1
  {
    ShowLoading(p);
    ArmAdTimeout(p, p.settings.timeout);
  }

  /** `this.snapshot = getPlayerSnapshot(player)`. */
  method TakeSnapshot(p: Player)
    requires p.Wf() && p.SingleFlight() && p.NoOwnedTimers()
    modifies p`snapshot, p`media
    ensures p.Wf() && p.SingleFlight() && p.NoOwnedTimers()
    ensures p.snapshot.Some? && (p.snapshot.value, p.media) == SnapshotOps.Capture(old(p.media), p.env)
  {
    NothingOwnedFitsAnyState(p, p.state);
    var s := SnapshotOps.GetPlayerSnapshot(p);
    p.snapshot := Some(s);
  }

  /**
   * The content half of `ad-playback`'s `enter`: take a snapshot, or, with
   * content playing behind the ad, remember the volume and mute.
   */
  method SaveContent(p: Player)
    requires p.Wf() && p.SingleFlight() && p.NoOwnedTimers()
    modifies p`snapshot, p`media, p`preAdVolume, p`calls
    ensures p.Wf() && p.SingleFlight() && p.NoOwnedTimers()
    ensures !p.env.playContentBehindAd ==>
      && (p.snapshot.Some? && (p.snapshot.value, p.media) == SnapshotOps.Capture(old(p.media), p.env))
      && p.preAdVolume == old(p.preAdVolume) && p.calls == old(p.calls)
    ensures p.env.playContentBehindAd ==>
      && p.snapshot == old(p.snapshot) && p.preAdVolume == Some(old(p.media).volume)
      && p.calls == old(p.calls) + [SetVolume(0.0)] && p.media == Effect(old(p.media), SetVolume(0.0))
  {
    if !p.env.playContentBehindAd {
      TakeSnapshot(p);
    } else {
      p.preAdVolume := Some(p.media.volume);
      p.Invoke(SetVolume(0.0));
    }
  }

  /**
   * The display half of `ad-playback`'s `enter`: show the ad-playing class,
   * drop the live class, remove the poster, and clear a play cancellation in
   * flight a tick later.
   */
  method ShowAd(p: Player)
    requires p.Wf() && p.SingleFlight() && p.NoOwnedTimers()
    modifies p`media, p`classes, p`timers, p`nextHandle
    ensures p.Wf() && p.SingleFlight() && p.NoOwnedTimers()
    ensures p.media == old(p.media).(poster := "")
    ensures p.classes == (old(p.classes) + {VjsAdPlaying}) - {VjsLive}
    ensures old(p.cancelPlayTimeout).Some? ==>
      p.timers == old(p.timers)[old(p.nextHandle) := Timer(1, ClearCancelPlay)] && p.nextHandle == old(p.nextHandle) + 1
    ensures old(p.cancelPlayTimeout).None? ==> p.timers == old(p.timers) && p.nextHandle == old(p.nextHandle)
  {
    p.classes := (p.classes + {VjsAdPlaying}) - {VjsLive};
    RemoveNativePoster(p);
    if p.cancelPlayTimeout.Some? {
      var _ := p.SetTimeout(1, ClearCancelPlay);
    }
  }

  /** `enter` of `ad-playback`: save the content, then show the ad. */
  method EnterAdPlayback(p: Player)
    requires p.Wf() && p.SingleFlight() && p.NoOwnedTimers() && p.state == AdPlayback
    modifies p`snapshot, p`media, p`preAdVolume, p`calls, p`classes, p`timers, p`nextHandle
    ensures p.Valid() && p.NoOwnedTimers()
    ensures !p.env.playContentBehindAd ==>
      var (s, m) := SnapshotOps.Capture(old(p.media), p.env);
      && p.snapshot == Some(s) && p.media == m.(poster := "")
      && p.preAdVolume == old(p.preAdVolume) && p.calls == old(p.calls)
    ensures p.env.playContentBehindAd ==>
      && p.snapshot == old(p.snapshot) && p.preAdVolume == Some(old(p.media).volume)
      && p.calls == old(p.calls) + [SetVolume(0.0)] && p.media == Effect(old(p.media), SetVolume(0.0)).(poster := "")
    ensures p.classes == (old(p.classes) + {VjsAdPlaying}) - {VjsLive}
    ensures old(p.cancelPlayTimeout).Some? ==>
      p.timers == old(p.timers)[old(p.nextHandle) := Timer(1, ClearCancelPlay)] && p.nextHandle == old(p.nextHandle) + 1
    ensures old(p.cancelPlayTimeout).None? ==> p.timers == old(p.timers) && p.nextHandle == old(p.nextHandle)
  {
    SaveContent(p);
    ShowAd(p);
    NothingOwnedFitsAnyState(p, AdPlayback);
  }

  /** `enter` of `content-resuming`: once content has ended, re-arm the 1000 ms fallback `ended`. */
  method EnterContentResuming(p: Player)
    requires p.Wf() && p.SingleFlight() && p.NoOwnedTimers() && p.state == ContentResuming
    modifies p`timers, p`nextHandle, p`fireEndedTimeout
    ensures p.Valid()
    ensures p.contentHasEnded ==>
      && p.timers == Cleared(old(p.timers), old(p.fireEndedTimeout))[old(p.nextHandle) := Timer(1000, FireEnded)]
      && p.fireEndedTimeout == Some(old(p.nextHandle)) && p.nextHandle == old(p.nextHandle) + 1
    ensures !p.contentHasEnded ==>
      p.timers == old(p.timers) && p.fireEndedTimeout == old(p.fireEndedTimeout) && p.nextHandle == old(p.nextHandle)
  {
    if p.contentHasEnded {
      p.ClearTimeout(p.fireEndedTimeout);
      var h := p.SetTimeout(1000, FireEnded);
      p.fireEndedTimeout := Some(h);
    }
  }

  /**
   * `enter` of `postroll?`: take a snapshot; with `nopostroll` already seen,
   * resume content a tick later; otherwise show the loading class and arm the
   * postroll timeout.
   */
  method EnterPostrollWait(p: Player)
    requires p.Wf() && p.SingleFlight() && p.NoOwnedTimers() && p.state == PostrollWait
    modifies p`snapshot, p`media, p`timers, p`nextHandle, p`classes, p`adTimeoutTimeout
    ensures p.Valid()
    ensures p.snapshot.Some? && (p.snapshot.value, p.media) == SnapshotOps.Capture(old(p.media), p.env)
    ensures p.nextHandle == old(p.nextHandle) + 1
    ensures p.nopostroll ==>
      && p.timers == old(p.timers)[old(p.nextHandle) := Timer(1, NoPostrollResume)]
      && p.classes == old(p.classes) && p.adTimeoutTimeout == old(p.adTimeoutTimeout)
    ensures !p.nopostroll ==>
      && p.timers == old(p.timers)[old(p.nextHandle) := Timer(p.settings.postrollTimeout, FireAdTimeout)]
      && p.adTimeoutTimeout == Some(old(p.nextHandle)) && p.classes == old(p.classes) + {VjsAdLoading}
  {
    TakeSnapshot(p);
    if p.nopostroll {
      var _ := p.SetTimeout(1, NoPostrollResume);
    } else {
      ShowLoading(p);
      ArmAdTimeout(p, p.settings.postrollTimeout);
    }
  }

  /**
   * `enter` of `content-playback`: clear a play cancellation in flight,
   * trigger `contentplayback` with the transition's event, and play again if
   * a play was cancelled and the player is paused.
   */
  method EnterContentPlayback(p: Player)
    requires p.Wf() && p.SingleFlight() && p.NoOwnedTimers() && p.state == ContentPlayback
    modifies p`timers, p`cancelPlayTimeout, p`fired, p`cancelledPlay, p`calls, p`media
    ensures p.Valid()
    ensures p.timers == Cleared(old(p.timers), old(p.cancelPlayTimeout)) && p.cancelPlayTimeout == None
    ensures p.fired == old(p.fired) + [Fired(ContentPlaybackEvent, Compat(p.triggerEvent))]
    ensures !p.cancelledPlay
    ensures var resume := old(p.cancelledPlay) && old(p.media).paused;
      && p.calls == old(p.calls) + (if resume then [PlayMedia] else [])
      && p.media == (if resume then Effect(old(p.media), PlayMedia) else old(p.media))
  {
    if p.cancelPlayTimeout.Some? {
      p.ClearTimeout(p.cancelPlayTimeout);
      p.cancelPlayTimeout := None;
    }
    assert p.Wf() && p.SingleFlight() && p.NoOwnedTimers();
    NothingOwnedFitsAnyState(p, ContentPlayback);
    p.Trigger(ContentPlaybackEvent, Compat(p.triggerEvent));
    if p.cancelledPlay {
      p.cancelledPlay := false;
      if p.media.paused {
        p.Invoke(PlayMedia);
      }
    }
  }

  // ---------------------------------------------------------------------------
  // processEvent
  // ---------------------------------------------------------------------------

  /**
   * What the `enter` of the current state guarantees: each waiting state has
   * its timeout armed (unless the matching `nopreroll`/`nopostroll` was
   * already seen), an ad or a postroll wait has a snapshot to restore,
   * content playback has no play cancellation left, and a resume after the
   * end has its fallback `ended`.
   */
  ghost predicate Settled(p: Player)
    reads p
  {
    && (p.state == AdsReadyWait ==> Armed(p.timers, p.adTimeoutTimeout, Timer(p.settings.timeout, FireAdTimeout)))
    && (p.state == PrerollWait && !p.nopreroll ==> Armed(p.timers, p.adTimeoutTimeout, Timer(p.settings.prerollTimeout, FireAdTimeout)))
    && (p.state == PostrollWait && !p.nopostroll ==> Armed(p.timers, p.adTimeoutTimeout, Timer(p.settings.postrollTimeout, FireAdTimeout)))
    && (p.state == PostrollWait ==> p.snapshot.Some?)
    && (p.state == AdPlayback && !p.env.playContentBehindAd ==> p.snapshot.Some?)
    && (p.state == ContentPlayback ==> p.cancelPlayTimeout == None && !p.cancelledPlay)
    && (p.state == ContentResuming && p.contentHasEnded ==> Armed(p.timers, p.fireEndedTimeout, Timer(1000, FireEnded)))
  }

  /**
   * `states[previousState].leave`, where there is one.  Afterwards no ad
   * timeout or fallback `ended` is pending.  Returns false where it throws.
   */
  method Leave(p: Player, prev: State) returns (ok: bool)
    requires p.Wf() && p.SingleFlight() && p.TimersOwnedIn(prev)
    modifies p`classes, p`disableNextSnapshotRestore, p`media, p`calls, p`metadataListeners, p`canPlayListeners
    modifies p`nextJob, p`timers, p`nextHandle, p`tryToResumeTimeout
    ensures p.Wf() && p.SingleFlight() && p.NoOwnedTimers()
    ensures p.snapshot == old(p.snapshot)
    ensures ok <==> !(prev == AdPlayback && !p.env.playContentBehindAd && !old(p.disableNextSnapshotRestore) && old(p.snapshot).None?)
    ensures IsWaitState(prev) ==> p.timers == Cleared(old(p.timers), p.adTimeoutTimeout) && p.media == old(p.media)
    ensures prev == ContentResuming ==> p.timers == Cleared(old(p.timers), p.fireEndedTimeout) && p.classes == old(p.classes)
    ensures !HasLeave(prev) ==> p.timers == old(p.timers) && p.classes == old(p.classes) && p.media == old(p.media)
  {
    ok := true;
    if IsWaitState(prev) {
      LeaveWait(p, prev);
    } else if prev == AdPlayback {
      ok := LeaveAdPlayback(p);
    } else if prev == ContentResuming {
      LeaveContentResuming(p);
    } else {
      QuietStateOwnsNothing(p, prev);
    }
  }

  /** `states[newState].enter`, where there is one, with nothing state-owned pending beforehand. */
  method Enter(p: Player, next: State)
    requires p.Wf() && p.SingleFlight() && p.NoOwnedTimers() && p.state == next
    modifies p`fired, p`timers, p`nextHandle, p`classes, p`adTimeoutTimeout, p`snapshot, p`media, p`preAdVolume
    modifies p`calls, p`fireEndedTimeout, p`cancelPlayTimeout, p`cancelledPlay
    ensures p.Valid()
    ensures Settled(p)
    ensures !HasEnter(next) ==> p.timers == old(p.timers) && p.fired == old(p.fired) && p.media == old(p.media)
  {
    match next {
      case PrerollWait => EnterPrerollWait(p);
      case AdsReadyWait => EnterAdsReadyWait(p);
      case AdPlayback => EnterAdPlayback(p);
      case ContentResuming => EnterContentResuming(p);
      case PostrollWait => EnterPostrollWait(p);
      case ContentPlayback => EnterContentPlayback(p);
      case ContentSet => NothingOwnedFitsAnyState(p, next);
      case AdsReady => NothingOwnedFitsAnyState(p, next);
    }
  }

  /**
   * The second half of `processEvent`, once the handler has changed the state
   * from `prev`: record the event, `leave` the previous state and, unless that
   * throws, `enter` the new one.  `steps` lists the `leave` and `enter` run.
   */
  method Transition(p: Player, e: Event, prev: State) returns (ok: bool, ghost steps: seq<Step>)
    requires p.Wf() && p.SingleFlight() && p.TimersOwnedIn(prev) && p.state != prev
    modifies p
    ensures p.Valid()
    ensures p.state == old(p.state) && p.triggerEvent == Some(e)
    ensures ok <==> !(prev == AdPlayback && !p.env.playContentBehindAd && !old(p.disableNextSnapshotRestore) && old(p.snapshot).None?)
    ensures steps == [Left(prev)] + (if ok then [Entered(p.state)] else [])
    ensures ok ==> Settled(p)
  {
    var newState := p.state;
    p.triggerEvent := Some(e);
    steps := [Left(prev)];
    ok := Leave(p, prev);
    if !ok {
      NothingOwnedFitsAnyState(p, newState);
      return;
    }
    steps := steps + [Entered(newState)];
    Enter(p, newState);
  }

  /**
   * `processEvent(event)`: run the current state's handler; if the state
   * changed, record the event in `triggerevent`, run the old state's `leave`,
   * then the new state's `enter`.  Returns false where `leave` throws.
   * Afterwards every pending ad timeout and fallback `ended` belongs to the
   * new state, and each waiting state that announced itself has its timeout
   * armed.  `steps` lists the handler, `leave` and `enter` run, in order.
   */
  method ProcessEvent(p: Player, e: Event) returns (ok: bool, ghost steps: seq<Step>)
    requires p.Valid()
    modifies p
    ensures p.Valid()
    ensures var r := Handler(old(p.state), e, old(CondOf(p)));
      && (r.None? ==> ok && steps == [] && unchanged(p))
      && (r.Some? ==> p.state == r.value.target)
      && (r.Some? && r.value.target == old(p.state) ==>
            ok && p.triggerEvent == old(p.triggerEvent) && steps == [Handled(old(p.state), e)])
      && (r.Some? && r.value.target != old(p.state) ==>
            && p.triggerEvent == Some(e)
            && (ok <==> !(old(p.state) == AdPlayback && !p.env.playContentBehindAd
                          && !old(p.disableNextSnapshotRestore) && old(p.snapshot).None?))
            && steps == [Handled(old(p.state), e), Left(old(p.state))] + (if ok then [Entered(p.state)] else []))
    ensures ok && p.state != old(p.state) ==> Settled(p)
  {
    var state := p.state;
    steps := if Handler(state, e, CondOf(p)).Some? then [Handled(state, e)] else [];
    RunHandler(p, e);
    ok := true;
    if state != p.state {
      ghost var more;
      ok, more := Transition(p, e, state);
      steps := steps + more;
    }
  }

  // ---------------------------------------------------------------------------
  // set-up
  // ---------------------------------------------------------------------------

  /** The `ended` listener: a player that reached the end is always marked as started. */
  method MarkStarted(p: Player)
    modifies p`classes
    ensures p.classes == old(p.classes) + {VjsHasStarted}
  {
    if VjsHasStarted !in p.classes {
      p.classes := p.classes + {VjsHasStarted};
    }
  }

  /**
   * The `addurationchange`/`adcanplay` listener: once the ad's source is in
   * the element, play it.  Returns false where it throws (no snapshot).
   */
  method PlayLoadedAd(p: Player) returns (ok: bool)
    requires p.Valid()
    modifies p`calls, p`media
    ensures p.Valid()
    ensures ok <==> p.snapshot.Some?
    ensures ok && old(p.media.currentSrc) != p.snapshot.value.currentSrc ==>
      p.calls == old(p.calls) + [PlayMedia] && p.media == old(p.media).(paused := false)
    ensures !(ok && old(p.media.currentSrc) != p.snapshot.value.currentSrc) ==>
      p.calls == old(p.calls) && p.media == old(p.media)
  {
    if p.snapshot.None? {
      return false;
    }
    ok := true;
    if p.media.currentSrc != p.snapshot.value.currentSrc {
      p.Invoke(PlayMedia);
    }
  }

  /** The `nopreroll` listener: the preroll wait will not arm its timeout. */
  method NoteNoPreroll(p: Player)
    modifies p`nopreroll
    ensures p.nopreroll
  {
    p.nopreroll := true;
  }

  /** The `nopostroll` listener: the postroll wait resumes content at once. */
  method NoteNoPostroll(p: Player)
    modifies p`nopostroll
    ensures p.nopostroll
  {
    p.nopostroll := true;
  }

  /** The `ads-ad-started`/`playing` listener: the loading spinner goes once an ad or the content plays. */
  method DropLoadingClass(p: Player)
    modifies p`classes
    ensures p.classes == old(p.classes) - {VjsAdLoading}
  {
    p.classes := p.classes - {VjsAdLoading};
  }

  /**
   * The plugin's set-up on a player: create `player.ads`, start the source
   * check, and, with the player already playing, process a synthetic `play`.
   */
  method ContribAds(settings: Settings, media: Media, env: Env) returns (p: Player)
    requires TracksValid(media)
    ensures fresh(p) && p.Valid()
    ensures media.paused ==>
      p.state == ContentSet && p.contentSrc == media.currentSrc && p.timers == map[1 := Timer(1, Callback.CheckSrc)]
    ensures !media.paused ==> p.state == AdsReadyWait && Settled(p) && p.triggerEvent == Some(Play)
  {
    p := new Player(settings, media, env);
    var _ := ContentUpdate.InitializeContentupdate(p);
    if !p.media.paused {
      ghost var steps;
      var ok;
      ok, steps := ProcessEvent(p, Play);
    }
  }
}
