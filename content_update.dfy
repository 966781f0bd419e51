/**
 * `initializeContentupdate(player)`: remember the content source and emit
 * `contentupdate` whenever `currentSrc()` has moved away from it, except
 * while an ad is playing.
 */
module ContentUpdate {
  import opened Wrappers
  import opened Events
  import opened Player

  /** The `contentupdate` a check emits, if any: its old and new source. */
  function Check(state: State, contentSrc: string, currentSrc: string): (r: Option<Detail>)
  {
    if state != AdPlayback && currentSrc != contentSrc then Some(SourceChange(contentSrc, currentSrc)) else None
  }

  /** `player.ads.contentSrc` after a check. */
  function NextContentSrc(state: State, contentSrc: string, currentSrc: string): string
  {
    if Check(state, contentSrc, currentSrc).Some? then currentSrc else contentSrc
  }

  /**
   * A check emits exactly when no ad is playing and the source moved; it emits
   * the previous and the current source, and afterwards the remembered source
   * is the current one unless an ad is playing.
   */
  lemma CheckFacts(state: State, contentSrc: string, currentSrc: string)
    ensures var r := Check(state, contentSrc, currentSrc);
      && (r.Some? <==> state != AdPlayback && currentSrc != contentSrc)
      && (r.Some? ==> r.value.oldValue == contentSrc && r.value.newValue == currentSrc)
      && (state != AdPlayback ==> NextContentSrc(state, contentSrc, currentSrc) == currentSrc)
      && (state == AdPlayback ==> NextContentSrc(state, contentSrc, currentSrc) == contentSrc)
  {
  }

  /** A second check with an unchanged source emits nothing and changes nothing. */
  lemma CheckIdempotent(state: State, contentSrc: string, currentSrc: string)
    ensures var next := NextContentSrc(state, contentSrc, currentSrc);
      Check(state, next, currentSrc).None? && NextContentSrc(state, next, currentSrc) == next
  {
  }

  /** One observation a check is made on: the state and `currentSrc()` at that moment. */
  datatype Observation = Observation(state: State, currentSrc: string)

  /** The remembered source and the `contentupdate` details after checks on `obs`, in order. */
  function CheckRun(contentSrc: string, obs: seq<Observation>): (r: (string, seq<Detail>))
    decreases |obs|
  {
    if obs == [] then (contentSrc, [])
    else
      var o := obs[0];
      var rest := CheckRun(NextContentSrc(o.state, contentSrc, o.currentSrc), obs[1..]);
      match Check(o.state, contentSrc, o.currentSrc)
      case None => rest
      case Some(d) => (rest.0, [d] + rest.1)
  }

  /**
   * Over any run of checks the `contentupdate` events form a chain: the first
   * starts from the source remembered at the outset, each starts where the one
   * before ended, none reports an unchanged source, and the remembered source
   * is where the last one ended.
   */
  lemma {:induction false} CheckRunChains(contentSrc: string, obs: seq<Observation>)
    ensures var (src, ds) := CheckRun(contentSrc, obs);
      && (forall i :: 0 <= i < |ds| ==> ds[i].SourceChange? && ds[i].oldValue != ds[i].newValue)
      && (|ds| > 0 ==> ds[0].oldValue == contentSrc && src == ds[|ds| - 1].newValue)
      && (|ds| == 0 ==> src == contentSrc)
      && (forall i :: 0 <= i < |ds| - 1 ==> ds[i].newValue == ds[i + 1].oldValue)
    decreases |obs|
  {
    if obs != [] {
      var o := obs[0];
      var next := NextContentSrc(o.state, contentSrc, o.currentSrc);
      CheckRunChains(next, obs[1..]);
      var rest := CheckRun(next, obs[1..]);
      match Check(o.state, contentSrc, o.currentSrc)
      case None =>
      case Some(d) =>
        var ds := [d] + rest.1;
        assert forall i :: 0 < i < |ds| ==> ds[i] == rest.1[i - 1];
    }
  }

  /** `checkSrc`: outside ad-playback, a changed source emits `contentupdate` and only then is remembered. */
  method CheckSrc(p: Player) returns (triggered: bool)
    modifies p`fired, p`contentSrc
    ensures var r := Check(p.state, old(p.contentSrc), p.media.currentSrc);
      && (triggered <==> r.Some?)
      && p.fired == old(p.fired) + (if triggered then [Fired(ContentUpdate, r.value)] else [])
      && p.contentSrc == NextContentSrc(p.state, old(p.contentSrc), p.media.currentSrc)
  {
    triggered := false;
    if p.state != AdPlayback {
      var src := p.media.currentSrc;
      if src != p.contentSrc {
        p.Trigger(ContentUpdate, SourceChange(p.contentSrc, src));
        p.contentSrc := src;
        triggered := true;
      }
    }
  }

  /**
   * `initializeContentupdate(player)`: remember `currentSrc()` and schedule a
   * check in 1 ms; the check on every `loadstart` is the plugin's listener.
   */
  method InitializeContentupdate(p: Player) returns (h: Handle)
    requires p.Valid()
    modifies p`contentSrc, p`timers, p`nextHandle
    ensures p.Valid()
    ensures p.contentSrc == p.media.currentSrc
    ensures h == old(p.nextHandle) && p.nextHandle == h + 1 && p.timers == old(p.timers)[h := Timer(1, Callback.CheckSrc)]
  {
    p.contentSrc := p.media.currentSrc;
    h := p.SetTimeout(1, Callback.CheckSrc);
  }
}
