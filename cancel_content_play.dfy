/**
 * `cancelContentPlay(player)`: keep content from playing while ads are
 * requested by pausing the player one tick after a `play`, and remember that
 * a play was cancelled so that content-playback can play again.  At most one
 * such pause is in flight, and `cancelPlayTimeout` is its handle.
 */
module CancelContentPlay {
  import opened Wrappers
  import opened Events
  import opened Player

  /** The cancellation as the player sees it: whether one is in flight, whether the player is paused, and `cancelledPlay`. */
  datatype Flight = Flight(inFlight: bool, paused: bool, cancelledPlay: bool)

  /** The flight view of a player. */
  function FlightOf(inFlight: Option<Handle>, m: Media, cancelledPlay: bool): Flight
  {
    Flight(inFlight.Some?, m.paused, cancelledPlay)
  }

  /** A call to `cancelContentPlay`: a no-op while a cancellation is in flight. */
  function Cancel(f: Flight): Flight
  {
    f.(inFlight := true)
  }

  /** The scheduled callback: the flight is over, the player is paused and the cancellation remembered. */
  function Land(f: Flight): Flight
  {
    f.(inFlight := false, paused := true, cancelledPlay := true)
  }

  /**
   * `cancelContentPlay(player)`: with a cancellation in flight nothing happens;
   * otherwise one 1 ms timer is scheduled and its handle kept in
   * `cancelPlayTimeout`.
   */
  method CancelContentPlay(p: Player) returns (scheduled: bool)
    requires p.Valid()
    modifies p`cancelPlayTimeout, p`timers, p`nextHandle
    ensures p.Valid()
    ensures scheduled <==> old(p.cancelPlayTimeout).None?
    ensures FlightOf(p.cancelPlayTimeout, p.media, p.cancelledPlay) == Cancel(FlightOf(old(p.cancelPlayTimeout), p.media, p.cancelledPlay))
    ensures !scheduled ==>
      p.cancelPlayTimeout == old(p.cancelPlayTimeout) && p.timers == old(p.timers) && p.nextHandle == old(p.nextHandle)
    ensures scheduled ==>
      && p.cancelPlayTimeout == Some(old(p.nextHandle)) && p.nextHandle == old(p.nextHandle) + 1
      && p.timers == old(p.timers)[old(p.nextHandle) := Timer(1, FireCancelPlay)]
  {
    if p.cancelPlayTimeout.Some? {
      return false;
    }
    var h := p.SetTimeout(1, FireCancelPlay);
    p.cancelPlayTimeout := Some(h);
    scheduled := true;
  }

  /**
   * The scheduled callback (its timer `h` has fired, so it is no longer
   * pending): forget the handle first, pause unless already paused, then set
   * `cancelledPlay`.
   */
  method CancelPlayFires(p: Player, h: Handle)
    requires p.Valid() && h in p.timers && p.timers[h].callback == FireCancelPlay
    modifies p`timers, p`cancelPlayTimeout, p`calls, p`media, p`cancelledPlay
    ensures p.Valid()
    ensures old(p.cancelPlayTimeout) == Some(h)
    ensures FlightOf(p.cancelPlayTimeout, p.media, p.cancelledPlay) == Land(FlightOf(old(p.cancelPlayTimeout), old(p.media), old(p.cancelledPlay)))
    ensures p.timers == old(p.timers) - {h} && p.cancelPlayTimeout == None && p.cancelledPlay
    ensures p.calls == old(p.calls) + (if old(p.media).paused then [] else [PauseMedia])
    ensures p.media == (if old(p.media).paused then old(p.media) else Effect(old(p.media), PauseMedia))
  {
    p.timers := p.timers - {h};
    p.cancelPlayTimeout := None;
    if !p.media.paused {
      p.Invoke(PauseMedia);
    }
    p.cancelledPlay := true;
  }
}
