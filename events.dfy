/**
 * The vocabulary of the ad framework: the eight states of the ad state machine
 * and the events that flow through the player, with their wire names.
 */
module Events {

  /** The eight states of `player.ads.state`. */
  datatype State =
    | ContentSet       // "content-set"
    | AdsReady         // "ads-ready"
    | AdsReadyWait     // "ads-ready?"
    | PrerollWait      // "preroll?"
    | AdPlayback       // "ad-playback"
    | ContentResuming  // "content-resuming"
    | PostrollWait     // "postroll?"
    | ContentPlayback  // "content-playback"

  function StateName(s: State): string
  {
    match s
    case ContentSet => "content-set"
    case AdsReady => "ads-ready"
    case AdsReadyWait => "ads-ready?"
    case PrerollWait => "preroll?"
    case AdPlayback => "ad-playback"
    case ContentResuming => "content-resuming"
    case PostrollWait => "postroll?"
    case ContentPlayback => "content-playback"
  }

  /** The states in which the plugin waits for the ad integration with an `adtimeout` pending. */
  predicate IsWaitState(s: State)
  {
    s == AdsReadyWait || s == PrerollWait || s == PostrollWait
  }

  /** The type strings that have an event constructor of their own. */
  const KnownNames: set<string> := {
    "play", "playing", "pause", "ended", "loadstart",
    "adsready", "adscanceled", "adskip", "adserror", "adstart", "adend", "adtimeout",
    "contentupdate", "contentended", "contentresumed", "contentplaying",
    "nopreroll", "nopostroll", "readyforpreroll", "contentplayback"}

  /** Any other event type string, so that every type has exactly one representation. */
  type OtherName = s: string | s !in KnownNames witness "x"

  /**
   * Event types the plugin reacts to or emits, by name; every other type is `Other(name)`.
   * `AdsReadyEvent` is "adsready" and `ContentPlaybackEvent` is "contentplayback"
   * (the suffix keeps them apart from the states of the same name).
   */
  datatype Event =
    | Play | Playing | Pause | Ended | LoadStart
    | AdsReadyEvent | AdsCanceled | AdSkip | AdsError | AdStart | AdEnd | AdTimeout
    | ContentUpdate | ContentEnded | ContentResumed | ContentPlaying
    | NoPreroll | NoPostroll | ReadyForPreroll | ContentPlaybackEvent
    | Other(name: OtherName)

  /** The `type` string of an event. */
  function Name(e: Event): string
  {
    match e
    case Play => "play"
    case Playing => "playing"
    case Pause => "pause"
    case Ended => "ended"
    case LoadStart => "loadstart"
    case AdsReadyEvent => "adsready"
    case AdsCanceled => "adscanceled"
    case AdSkip => "adskip"
    case AdsError => "adserror"
    case AdStart => "adstart"
    case AdEnd => "adend"
    case AdTimeout => "adtimeout"
    case ContentUpdate => "contentupdate"
    case ContentEnded => "contentended"
    case ContentResumed => "contentresumed"
    case ContentPlaying => "contentplaying"
    case NoPreroll => "nopreroll"
    case NoPostroll => "nopostroll"
    case ReadyForPreroll => "readyforpreroll"
    case ContentPlaybackEvent => "contentplayback"
    case Other(n) => n
  }

  /** The event whose `type` is `s`. */
  function Parse(s: string): Event
  {
    if s == "play" then Play
    else if s == "playing" then Playing
    else if s == "pause" then Pause
    else if s == "ended" then Ended
    else if s == "loadstart" then LoadStart
    else if s == "adsready" then AdsReadyEvent
    else if s == "adscanceled" then AdsCanceled
    else if s == "adskip" then AdSkip
    else if s == "adserror" then AdsError
    else if s == "adstart" then AdStart
    else if s == "adend" then AdEnd
    else if s == "adtimeout" then AdTimeout
    else if s == "contentupdate" then ContentUpdate
    else if s == "contentended" then ContentEnded
    else if s == "contentresumed" then ContentResumed
    else if s == "contentplaying" then ContentPlaying
    else if s == "nopreroll" then NoPreroll
    else if s == "nopostroll" then NoPostroll
    else if s == "readyforpreroll" then ReadyForPreroll
    else if s == "contentplayback" then ContentPlaybackEvent
    else Other(s)
  }

  /** Reading a type string and writing it back gives the same string. */
  lemma NameOfParse(s: string)
    ensures Name(Parse(s)) == s
  {
  }

  /** Writing an event's type and reading it back gives the same event: no type has two representations. */
  lemma ParseOfName(e: Event)
    ensures Parse(Name(e)) == e
  {
    match e
    case Other(n) =>
    case _ =>
  }

  /** The event `prefix + event.type` that the redispatcher triggers in place of `e`. */
  function Prefixed(prefix: string, e: Event): (r: Event)
    ensures Name(r) == prefix + Name(e)
  {
    NameOfParse(prefix + Name(e));
    Parse(prefix + Name(e))
  }

  /** A content-prefixed `ended` is exactly the `contentended` the state machine handles; `adplaying` has no constructor. */
  lemma PrefixedNames()
    ensures Prefixed("content", Ended) == ContentEnded
    ensures Prefixed("ad", Playing) == Other("adplaying")
    ensures Prefixed("ad", Ended) == Other("adended")
  {
    var adPlaying := "ad" + Name(Playing);
    assert adPlaying == "adplaying" && adPlaying[2] == 'p' && adPlaying[0] == 'a';
    var adEnded := "ad" + Name(Ended);
    assert adEnded == "adended" && |adEnded| == 7 && adEnded[2] == 'e';
  }
}
