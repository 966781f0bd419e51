/**
 * The `states` table of the ad state machine: for each state, the events it
 * handles, the state each handler assigns and what else the handler does.
 * `enter` and `leave` actions live with the player (module `Plugin`).
 */
module States {
  import opened Wrappers
  import opened Events

  /** What a handler does besides assigning `this.state`. */
  datatype Action =
    | CancelPlay              // cancelContentPlay(player)
    | RemovePoster            // removeNativePoster(player)
    | TriggerAdEnd            // player.trigger('adend')
    | EndedSoon               // setTimeout(() => player.trigger('ended'), 1)
    | TriggerReadyForPreroll  // player.trigger('readyforpreroll')
    | MarkContentEnded        // this._contentHasEnded = true

  /** The state a handler leaves behind (its own state when it assigns none) and its actions, in order. */
  datatype Reaction = Reaction(target: State, actions: seq<Action>)

  /** What handlers read besides the state: `player.paused()`, `_contentHasEnded`, `shouldPlayContentBehindAd(player)`. */
  datatype Cond = Cond(paused: bool, contentHasEnded: bool, playContentBehindAd: bool)

  function Go(target: State): Option<Reaction>
  {
    Some(Reaction(target, []))
  }

  /** `states[s].events[e.type]`, run: `None` when the state has no handler for the event. */
  function Handler(s: State, e: Event, c: Cond): (r: Option<Reaction>)
    ensures e.Other? ==> r.None?
    ensures r.Some? ==> |r.value.actions| <= 2
    ensures r.Some? && r.value.target == s ==> r.value.actions != []
    ensures r.Some? && RemovePoster in r.value.actions ==> s == ContentSet && e == Play
    ensures r.Some? && TriggerAdEnd in r.value.actions ==> s == AdPlayback && e == AdsError
    ensures r.Some? && EndedSoon in r.value.actions ==> s == PostrollWait && r.value.target == ContentResuming
  {
    match s
    case ContentSet =>
      (match e
       case AdsCanceled => Go(ContentPlayback)
       case AdsReadyEvent => Go(AdsReady)
       case Play => Some(Reaction(AdsReadyWait, [CancelPlay, RemovePoster]))
       case AdsError => Go(ContentPlayback)
       case AdSkip => Go(ContentPlayback)
       case _ => None)
    case AdsReady =>
      (match e
       case Play => Some(Reaction(PrerollWait, [CancelPlay]))
       case AdSkip => Go(ContentPlayback)
       case AdsError => Go(ContentPlayback)
       case _ => None)
    case PrerollWait =>
      (match e
       case Play => Some(Reaction(PrerollWait, [CancelPlay]))
       case AdStart => Go(AdPlayback)
       case AdSkip => Go(ContentPlayback)
       case AdTimeout => Go(ContentPlayback)
       case AdsError => Go(ContentPlayback)
       case NoPreroll => Go(ContentPlayback)
       case _ => None)
    case AdsReadyWait =>
      (match e
       case Play => Some(Reaction(AdsReadyWait, [CancelPlay]))
       case AdsCanceled => Go(ContentPlayback)
       case AdsReadyEvent => Go(PrerollWait)
       case AdSkip => Go(ContentPlayback)
       case AdTimeout => Go(ContentPlayback)
       case AdsError => Go(ContentPlayback)
       case _ => None)
    case AdPlayback =>
      (match e
       case AdEnd => Go(ContentResuming)
       case AdsError => Some(Reaction(ContentResuming, [TriggerAdEnd]))
       case _ => None)
    case ContentResuming =>
      (match e
       case ContentUpdate => Go(ContentSet)
       case ContentResumed => Go(ContentPlayback)
       case Playing => Go(ContentPlayback)
       case Ended => Go(ContentPlayback)
       case _ => None)
    case PostrollWait =>
      (match e
       case AdStart => Go(AdPlayback)
       case AdSkip => Some(Reaction(ContentResuming, [EndedSoon]))
       case AdTimeout => Some(Reaction(ContentResuming, [EndedSoon]))
       case AdsError => Some(Reaction(ContentResuming, [EndedSoon]))
       case ContentUpdate => Go(AdsReadyWait)
       case _ => None)
    case ContentPlayback =>
      (match e
       case AdsReadyEvent => Some(Reaction(ContentPlayback, [TriggerReadyForPreroll]))
       case AdStart => Go(AdPlayback)
       case ContentUpdate =>
         Some(Reaction(if c.paused then ContentSet else AdsReadyWait,
                       if c.playContentBehindAd then [] else [CancelPlay]))
       case ContentEnded =>
         if c.contentHasEnded then Go(ContentResuming) else Some(Reaction(PostrollWait, [MarkContentEnded]))
       case _ => None)
  }

  /** Whether a state has an `enter` action. */
  predicate HasEnter(s: State)
  {
    s in {PrerollWait, AdsReadyWait, AdPlayback, ContentResuming, PostrollWait, ContentPlayback}
  }

  /** Whether a state has a `leave` action. */
  predicate HasLeave(s: State)
  {
    s in {PrerollWait, AdsReadyWait, AdPlayback, ContentResuming, PostrollWait}
  }

  /** No handler reacts to an event type outside the table's vocabulary. */
  lemma OtherEventsUnhandled(s: State, name: OtherName, c: Cond)
    ensures Handler(s, Other(name), c) == None
  {
  }

  /** content-set: `play` waits for ads, `adsready` notes them, and a cancel, error or skip goes straight to content. */
  lemma ContentSetTable(c: Cond)
    ensures Handler(ContentSet, Play, c) == Some(Reaction(AdsReadyWait, [CancelPlay, RemovePoster]))
    ensures Handler(ContentSet, AdsReadyEvent, c) == Go(AdsReady)
    ensures forall e :: e in {AdsCanceled, AdsError, AdSkip} ==> Handler(ContentSet, e, c) == Go(ContentPlayback)
    ensures forall e :: Handler(ContentSet, e, c).Some? <==> e in {Play, AdsReadyEvent, AdsCanceled, AdsError, AdSkip}
  {
  }

  /**
   * content-playback, `contentended`: the first end goes to `postroll?` and
   * marks the content ended; once ended it goes to `content-resuming` and the
   * flag stays as it is.
   */
  lemma ContentEndedCases(c: Cond)
    ensures !c.contentHasEnded ==> Handler(ContentPlayback, ContentEnded, c) == Some(Reaction(PostrollWait, [MarkContentEnded]))
    ensures c.contentHasEnded ==> Handler(ContentPlayback, ContentEnded, c) == Some(Reaction(ContentResuming, []))
  {
  }

  /**
   * content-playback, `contentupdate`: paused goes to `content-set`, playing to
   * `ads-ready?`; play is cancelled unless content plays behind the ad.
   */
  lemma ContentUpdateWhilePlaying(c: Cond)
    ensures var r := Handler(ContentPlayback, ContentUpdate, c);
      && r.Some? && (r.value.target == ContentSet <==> c.paused) && (r.value.target == AdsReadyWait <==> !c.paused)
      && (CancelPlay in r.value.actions <==> !c.playContentBehindAd)
  {
  }

  /**
   * An ad starts only through `adstart`, and only from the three states in
   * which `startLinearAdMode` triggers it.
   */
  lemma OnlyAdStartStartsAd(s: State, e: Event, c: Cond)
    requires s != AdPlayback
    ensures (Handler(s, e, c).Some? && Handler(s, e, c).value.target == AdPlayback) <==>
      e == AdStart && s in {PrerollWait, ContentPlayback, PostrollWait}
  {
  }

  /** ad-playback is left only on `adend` or `adserror`, both to content-resuming; `adserror` also triggers `adend`. */
  lemma AdPlaybackExits(e: Event, c: Cond)
    ensures var r := Handler(AdPlayback, e, c);
      && (r.Some? <==> e == AdEnd || e == AdsError)
      && (r.Some? ==> r.value.target == ContentResuming)
      && (r.Some? ==> (r.value.actions == [TriggerAdEnd] <==> e == AdsError))
  {
  }

  /**
   * `adtimeout` ends every wait: back to content before content has played,
   * to content-resuming (with an `ended` one tick later) while a postroll is
   * awaited; no other state reacts to it.
   */
  lemma AdTimeoutEndsWaiting(s: State, c: Cond)
    ensures IsWaitState(s) <==> Handler(s, AdTimeout, c).Some?
    ensures s in {AdsReadyWait, PrerollWait} ==> Handler(s, AdTimeout, c) == Go(ContentPlayback)
    ensures s == PostrollWait ==> Handler(s, AdTimeout, c) == Some(Reaction(ContentResuming, [EndedSoon]))
  {
  }

  /**
   * `adserror` is handled wherever the plugin is in or waiting for an ad
   * workflow, and always leads back towards content.
   */
  lemma AdsErrorGivesUp(s: State, c: Cond)
    ensures Handler(s, AdsError, c).Some? <==> s !in {ContentResuming, ContentPlayback}
    ensures Handler(s, AdsError, c).Some? ==> Handler(s, AdsError, c).value.target in {ContentPlayback, ContentResuming}
  {
  }

  /** `play` only starts the workflow or cancels another play; it never leaves a waiting state. */
  lemma PlayCancels(s: State, c: Cond)
    ensures Handler(s, Play, c).Some? <==> s in {ContentSet, AdsReady, PrerollWait, AdsReadyWait}
    ensures Handler(s, Play, c).Some? ==> CancelPlay in Handler(s, Play, c).value.actions
    ensures s in {PrerollWait, AdsReadyWait} ==> Handler(s, Play, c).value.target == s
  {
  }

  /** The state after a sequence of events, each handled in the state the previous one left (flags fixed). */
  function Run(s: State, es: seq<Event>, c: Cond): State
    decreases |es|
  {
    if es == [] then s
    else
      var r := Handler(s, es[0], c);
      Run(if r.Some? then r.value.target else s, es[1..], c)
  }

  /** Running two event sequences one after the other is running their concatenation. */
  lemma {:induction false} RunAppend(s: State, a: seq<Event>, b: seq<Event>, c: Cond)
    ensures Run(s, a + b, c) == Run(Run(s, a, c), b, c)
    decreases |a|
  {
    if a != [] {
      assert (a + b)[0] == a[0];
      assert (a + b)[1..] == a[1..] + b;
      var r := Handler(s, a[0], c);
      RunAppend(if r.Some? then r.value.target else s, a[1..], b, c);
    } else {
      assert a + b == b;
    }
  }

  /** The wait for a preroll: `play`, `adsready`, `adstart`, `adend`, `playing` runs from content-set through the ad back to content. */
  lemma PrerollRoundTrip(c: Cond)
    ensures Run(ContentSet, [Play, AdsReadyEvent, AdStart, AdEnd, Playing], c) == ContentPlayback
    ensures Run(ContentSet, [AdsReadyEvent, Play, AdStart, AdEnd, Playing], c) == ContentPlayback
  {
    var es := [Play, AdsReadyEvent, AdStart, AdEnd, Playing];
    assert es[1..] == [AdsReadyEvent, AdStart, AdEnd, Playing];
    assert es[1..][1..] == [AdStart, AdEnd, Playing];
    assert es[1..][1..][1..] == [AdEnd, Playing];
    assert es[1..][1..][1..][1..] == [Playing];
    var fs := [AdsReadyEvent, Play, AdStart, AdEnd, Playing];
    assert fs[1..] == [Play, AdStart, AdEnd, Playing];
    assert fs[1..][1..] == [AdStart, AdEnd, Playing];
    assert fs[1..][1..][1..] == [AdEnd, Playing];
    assert fs[1..][1..][1..][1..] == [Playing];
  }

  /** An event the current state does not handle can be dropped from a run anywhere it occurs. */
  lemma {:induction false} UnhandledIsSkipped(s: State, a: seq<Event>, e: Event, b: seq<Event>, c: Cond)
    requires Handler(Run(s, a, c), e, c).None?
    ensures Run(s, a + [e] + b, c) == Run(s, a + b, c)
  {
    assert a + [e] + b == a + ([e] + b);
    RunAppend(s, a, [e] + b, c);
    RunAppend(s, a, b, c);
    assert ([e] + b)[0] == e && ([e] + b)[1..] == b;
  }
}
