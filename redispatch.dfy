/**
 * `redispatch`: the listener on media events that lets an event through,
 * cancels it, or cancels it and emits a copy whose type carries an `ad` or
 * `content` prefix, so that integrations see `ended` only when content ends.
 */
module Redispatch {
  import opened Wrappers
  import opened Events
  import opened Player

  datatype Outcome =
    | PassThrough        // the event goes on to the remaining listeners
    | Cancelled          // propagation stopped, nothing emitted
    | Renamed(prefix: string)  // propagation stopped, `prefix + type` emitted
    | Throws             // `videoElementRecycled` threw: there is no snapshot

  /**
   * The decision chain, in the source's order of precedence. The `ad` prefix
   * appears only in the three states around a linear ad, the `content` prefix
   * only while content plays or resumes, and the decision throws exactly when an
   * ad is playing without a snapshot.
   */
  function Decide(e: Event, state: State, snapshot: Option<Snapshot>, m: Media, stitched: bool): (r: Outcome)
    ensures r.Renamed? ==>
      || (r.prefix == "ad" && state in {PrerollWait, AdsReadyWait, AdPlayback})
      || (r.prefix == "content" && state in {ContentPlayback, ContentResuming})
    ensures r.Throws? <==> state == AdPlayback && snapshot.None?
    ensures r.Cancelled? ==> state == AdPlayback && e == Playing
  {
    var recycled := VideoElementRecycled(m, snapshot);
    if e == Playing && state == PrerollWait then Renamed("ad")
    else if e == Playing && state == AdPlayback && recycled.None? then Throws
    else if e == Playing && state == AdPlayback && !recycled.value then Renamed("ad")
    else if e == Playing && state == AdsReadyWait then Renamed("ad")
    else if e == Playing && state == AdPlayback then Cancelled
    else if state == AdPlayback then
      (if recycled.None? then Throws
       else if recycled.value || stitched then Renamed("ad")
       else PassThrough)
    else if state == ContentPlayback && e == Ended then Renamed("content")
    else if state == ContentResuming then
      (if snapshot.Some? && m.currentSrc != snapshot.value.currentSrc then
         (if e == LoadStart then PassThrough else Renamed("content"))
       else if snapshot.Some? && snapshot.value.ended then
         (if e == Pause || e == Ended then PassThrough else Renamed("content"))
       else if e != Playing then Renamed("content")
       else PassThrough)
    else PassThrough
  }

  /** The same decision read state by state, as a table. */
  function ByState(e: Event, state: State, snapshot: Option<Snapshot>, m: Media, stitched: bool): Outcome
  {
    match state
    case PrerollWait => if e == Playing then Renamed("ad") else PassThrough
    case AdsReadyWait => if e == Playing then Renamed("ad") else PassThrough
    case AdPlayback =>
      (match VideoElementRecycled(m, snapshot)
       case None => Throws
       case Some(recycled) =>
         if e == Playing then (if recycled then Cancelled else Renamed("ad"))
         else if recycled || stitched then Renamed("ad")
         else PassThrough)
    case ContentPlayback => if e == Ended then Renamed("content") else PassThrough
    case ContentResuming =>
      (match snapshot
       case Some(s) =>
         if m.currentSrc != s.currentSrc then (if e == LoadStart then PassThrough else Renamed("content"))
         else if s.ended then (if e == Pause || e == Ended then PassThrough else Renamed("content"))
         else if e == Playing then PassThrough
         else Renamed("content")
       case None => if e == Playing then PassThrough else Renamed("content"))
    case ContentSet => PassThrough
    case AdsReady => PassThrough
    case PostrollWait => PassThrough
  }

  /** The precedence chain and the state table agree on every input. */
  lemma DecideIsByState(e: Event, state: State, snapshot: Option<Snapshot>, m: Media, stitched: bool)
    ensures Decide(e, state, snapshot, m, stitched) == ByState(e, state, snapshot, m, stitched)
  {
  }

  /** `playing` while waiting for an ad is cancelled and re-sent as `adplaying`. */
  lemma PlayingWhileWaiting(state: State, snapshot: Option<Snapshot>, m: Media, stitched: bool)
    requires state == PrerollWait || state == AdsReadyWait
    ensures Decide(Playing, state, snapshot, m, stitched) == Renamed("ad")
    ensures Name(Prefixed("ad", Playing)) == "adplaying"
  {
  }

  /** `playing` during an ad: `adplaying` unless the ad recycled the element, then silently cancelled. */
  lemma PlayingDuringAd(s: Snapshot, m: Media, stitched: bool)
    ensures Decide(Playing, AdPlayback, Some(s), m, stitched) ==
      (if m.src != s.src || m.currentSrc != s.currentSrc then Cancelled else Renamed("ad"))
  {
  }

  /** Any other event during an ad is prefixed `ad` exactly when the element was recycled or ads are stitched. */
  lemma OtherEventsDuringAd(e: Event, s: Snapshot, m: Media, stitched: bool)
    requires e != Playing
    ensures Decide(e, AdPlayback, Some(s), m, stitched) ==
      (if m.src != s.src || m.currentSrc != s.currentSrc || stitched then Renamed("ad") else PassThrough)
  {
  }

  /** During content only `ended` is touched, becoming `contentended`; before any ad and while a postroll is awaited nothing is. */
  lemma DuringContent(e: Event, state: State, snapshot: Option<Snapshot>, m: Media, stitched: bool)
    ensures state == ContentPlayback ==>
      Decide(e, state, snapshot, m, stitched) == (if e == Ended then Renamed("content") else PassThrough)
    ensures state in {ContentSet, AdsReady, PostrollWait} ==> Decide(e, state, snapshot, m, stitched) == PassThrough
    ensures Prefixed("content", Ended) == ContentEnded
  {
    PrefixedNames();
  }

  /**
   * While content resumes: after a source change only `loadstart` passes
   * (untouched and not cancelled); after a postroll `pause` and `ended` pass;
   * otherwise only `playing` passes. Everything else is prefixed `content`.
   */
  lemma WhileResuming(e: Event, snapshot: Option<Snapshot>, m: Media, stitched: bool)
    ensures var r := Decide(e, ContentResuming, snapshot, m, stitched);
      && (snapshot.Some? && m.currentSrc != snapshot.value.currentSrc ==>
            (r == PassThrough <==> e == LoadStart) && (r != PassThrough ==> r == Renamed("content")))
      && (snapshot.Some? && m.currentSrc == snapshot.value.currentSrc && snapshot.value.ended ==>
            (r == PassThrough <==> e == Pause || e == Ended) && (r != PassThrough ==> r == Renamed("content")))
      && (snapshot.None? || (m.currentSrc == snapshot.value.currentSrc && !snapshot.value.ended) ==>
            (r == PassThrough <==> e == Playing) && (r != PassThrough ==> r == Renamed("content")))
  {
  }

  /** `prefixEvent` (after `cancelEvent`): one event of type `prefix + type`, carrying the state and the original. */
  method PrefixEvent(p: Player, prefix: string, e: Event)
    modifies p`fired
    ensures p.fired == old(p.fired) + [Fired(Prefixed(prefix, e), Redispatched(p.state, e))]
    ensures Name(Prefixed(prefix, e)) == prefix + Name(e)
  {
    p.Trigger(Prefixed(prefix, e), Redispatched(p.state, e));
  }

  /** `redispatch` run as a listener on the player: what `Decide` says, with at most one emitted event. */
  method Redispatch(p: Player, e: Event) returns (r: Outcome)
    modifies p`fired
    ensures r == Decide(e, p.state, p.snapshot, p.media, p.stitched)
    ensures p.fired == old(p.fired) + (if r.Renamed? then [Fired(Prefixed(r.prefix, e), Redispatched(p.state, e))] else [])
  {
    var state := p.state;
    if e == Playing && state == PrerollWait {
      r := Renamed("ad");
    } else if e == Playing && state == AdPlayback && p.snapshot.None? {
      return Throws;
    } else if e == Playing && state == AdPlayback && VideoElementRecycled(p.media, p.snapshot) == Some(false) {
      r := Renamed("ad");
    } else if e == Playing && state == AdsReadyWait {
      r := Renamed("ad");
    } else if e == Playing && state == AdPlayback {
      return Cancelled;
    } else if state == AdPlayback {
      var recycled := VideoElementRecycled(p.media, p.snapshot);
      if recycled.None? {
        return Throws;
      }
      if recycled.value || p.stitched {
        r := Renamed("ad");
      } else {
        return PassThrough;
      }
    } else if state == ContentPlayback && e == Ended {
      r := Renamed("content");
    } else if state == ContentResuming {
      if p.snapshot.Some? && p.media.currentSrc != p.snapshot.value.currentSrc {
        if e == LoadStart {
          return PassThrough;
        }
        r := Renamed("content");
      } else if p.snapshot.Some? && p.snapshot.value.ended {
        if e == Pause || e == Ended {
          return PassThrough;
        }
        r := Renamed("content");
      } else if e != Playing {
        r := Renamed("content");
      } else {
        return PassThrough;
      }
    } else {
      return PassThrough;
    }
    PrefixEvent(p, r.prefix, e);
  }
}
