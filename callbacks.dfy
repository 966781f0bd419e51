/**
 * The callbacks of the timers the plugin schedules, run when a pending timer
 * fires: the fired handle is no longer pending and its callback runs on the
 * player.  Also the `nopostroll` resume, whose as-written form can force
 * content-resuming on a state that has moved on.
 */
module Callbacks {
  import opened Wrappers
  import opened Events
  import opened Player
  import opened States
  import Plugin
  import SnapshotOps = Snapshot
  import CancelContentPlay
  import ContentUpdate

  // ---------------------------------------------------------------------------
  // the one-tick `nopostroll` resume
  // ---------------------------------------------------------------------------

  /** What the `nopostroll` resume reads and writes of the player: the state and its timers. */
  datatype Flow = Flow(state: State, timers: map<Handle, Timer>, adTimeout: Option<Handle>, fireEnded: Option<Handle>)

  function FlowOf(p: Player): Flow
    reads p
  {
    Flow(p.state, p.timers, p.adTimeoutTimeout, p.fireEndedTimeout)
  }

  /** Every state-owned timer of the flow belongs to its state. */
  predicate OwnedFlow(f: Flow)
  {
    TimersOwned(f.state, f.timers, f.adTimeout, f.fireEnded)
  }

  /** The callback as written: `player.ads.state = 'content-resuming'`, whatever the state is by then. */
  function ResumeAsWritten(f: Flow): (g: Flow)
    ensures g.state == ContentResuming && g.timers == f.timers && g.adTimeout == f.adTimeout
  {
    f.(state := ContentResuming)
  }

  /**
   * The callback as intended: resume only if the player is still waiting for
   * the postroll, and then as `postroll?`'s `leave` does, with its ad timeout
   * cleared.
   */
  function ResumeGuarded(f: Flow): (g: Flow)
    ensures f.state != PostrollWait ==> g == f
    ensures f.state == PostrollWait ==> g.state == ContentResuming && g.adTimeout == f.adTimeout
    ensures f.state == PostrollWait ==> forall h :: h in g.timers ==> h in f.timers && g.timers[h] == f.timers[h] && Some(h) != f.adTimeout
  {
    if f.state == PostrollWait then f.(state := ContentResuming, timers := Cleared(f.timers, f.adTimeout)) else f
  }

  /** The guarded resume keeps every state-owned timer with its state. */
  lemma GuardedKeepsOwnership(f: Flow)
    requires OwnedFlow(f)
    ensures OwnedFlow(ResumeGuarded(f))
  {
    if f.state == PostrollWait {
      var g := ResumeGuarded(f);
      forall h | h in g.timers
        ensures g.timers[h].callback != FireAdTimeout && g.timers[h].callback != FireEnded
      {
        assert f.timers[h] == g.timers[h];
      }
    }
  }

  /**
   * The race: `contentupdate` arrives in `postroll?` within the tick, so the
   * state moves to `ads-ready?`, whose `enter` arms the ad timeout (handle 1
   * here).  The callback as written then puts the player in content-resuming
   * with that `adtimeout` still pending, outside any state that owns it; the
   * guarded callback leaves the player alone.
   */
  lemma NoPostrollRace(c: Cond)
    ensures Handler(PostrollWait, ContentUpdate, c) == Go(AdsReadyWait)
    ensures var f := Flow(AdsReadyWait, map[1 := Timer(5000, FireAdTimeout)], Some(1), None);
      && OwnedFlow(f) && !OwnedFlow(ResumeAsWritten(f)) && ResumeGuarded(f) == f
  {
    var f := Flow(AdsReadyWait, map[1 := Timer(5000, FireAdTimeout)], Some(1), None);
    var g := ResumeAsWritten(f);
    assert 1 in g.timers && g.timers[1].callback == FireAdTimeout && !IsWaitState(g.state);
  }

  /** The `nopostroll` callback as written: force content-resuming, then trigger `ended`. */
  method ResumeWithoutPostrollAsWritten(p: Player)
    modifies p`state, p`fired
    ensures FlowOf(p) == ResumeAsWritten(old(FlowOf(p)))
    ensures p.fired == old(p.fired) + [Fired(Ended, Plain)]
  {
    p.state := ContentResuming;
    p.Trigger(Ended, Plain);
  }

  /**
   * The `nopostroll` callback as intended: still in `postroll?`, leave it
   * (ad timeout cleared, loading class gone), move to content-resuming and
   * trigger `ended`; otherwise do nothing.
   */
  method ResumeWithoutPostroll(p: Player)
    requires p.Valid()
    modifies p`state, p`timers, p`classes, p`fired
    ensures p.Valid()
    ensures FlowOf(p) == ResumeGuarded(old(FlowOf(p)))
    ensures old(p.state) == PostrollWait ==>
      p.classes == old(p.classes) - {VjsAdLoading} && p.fired == old(p.fired) + [Fired(Ended, Plain)]
    ensures old(p.state) != PostrollWait ==> p.classes == old(p.classes) && p.fired == old(p.fired)
  {
    if p.state == PostrollWait {
      Plugin.LeaveWait(p, PostrollWait);
      p.state := ContentResuming;
      Plugin.NothingOwnedFitsAnyState(p, ContentResuming);
      p.Trigger(Ended, Plain);
    }
  }

  // ---------------------------------------------------------------------------
  // firing a timer
  // ---------------------------------------------------------------------------

  /** The fired timer is no longer pending. */
  method Expire(p: Player, h: Handle)
    requires p.Valid() && h in p.timers && p.timers[h].callback != FireCancelPlay
    modifies p`timers
    ensures p.Valid() && p.timers == old(p.timers) - {h}
  {
    p.ClearTimeout(Some(h));
  }

  /** The events a callback triggers straight away: `adtimeout`, the fallback `ended`, a one-tick trigger. */
  function Announced(cb: Callback): Option<Event>
  {
    match cb
    case FireAdTimeout => Some(AdTimeout)
    case FireEnded => Some(Ended)
    case Deferred(e) => Some(e)
    case _ => None
  }

  /**
   * Pending timer `h` fires: it stops being pending and its callback runs, the
   * `nopostroll` resume in its guarded form.  Every step keeps `Valid()`, and
   * a handle fires at most once.
   */
  method FireTimer(p: Player, h: Handle)
    requires p.Valid() && h in p.timers
    modifies p
    ensures p.Valid() && h !in p.timers
    ensures var cb := old(p.timers[h].callback);
      && (Announced(cb).Some? ==>
            p.fired == old(p.fired) + [Fired(Announced(cb).value, Plain)]
            && p.timers == old(p.timers) - {h} && p.state == old(p.state))
      && (cb == NoPostrollResume ==> p.state == if old(p.state) == PostrollWait then ContentResuming else old(p.state))
      && (cb == ClearCancelPlay ==>
            p.cancelPlayTimeout == None && p.timers == Cleared(old(p.timers) - {h}, old(p.cancelPlayTimeout)))
      && (cb == FireCancelPlay ==>
            old(p.cancelPlayTimeout) == Some(h) && p.cancelPlayTimeout == None && p.cancelledPlay)
      && (cb.TryToResume? ==> p.canPlayListeners == SnapshotOps.WithoutJob(old(p.canPlayListeners), cb.job.id))
      && (cb == Callback.CheckSrc ==>
            p.contentSrc == ContentUpdate.NextContentSrc(p.state, old(p.contentSrc), p.media.currentSrc))
  {
    var cb := p.timers[h].callback;
    if cb == FireCancelPlay {
      CancelContentPlay.CancelPlayFires(p, h);
      return;
    }
    Expire(p, h);
    match cb {
      case FireAdTimeout => p.Trigger(AdTimeout, Plain);
      case FireEnded => p.Trigger(Ended, Plain);
      case Deferred(e) => p.Trigger(e, Plain);
      case NoPostrollResume => ResumeWithoutPostroll(p);
      case ClearCancelPlay => ClearPlayCancellation(p);
      case TryToResume(job) => SnapshotOps.TryToResume(p, job);
      case CheckSrc => var _ := ContentUpdate.CheckSrc(p);
    }
  }

  /** `ad-playback`'s one-tick clear: cancel the pending play cancellation and forget its handle. */
  method ClearPlayCancellation(p: Player)
    requires p.Valid()
    modifies p`timers, p`cancelPlayTimeout
    ensures p.Valid()
    ensures p.cancelPlayTimeout == None && p.timers == Cleared(old(p.timers), old(p.cancelPlayTimeout))
  {
    p.ClearTimeout(p.cancelPlayTimeout);
    p.cancelPlayTimeout := None;
  }
}
