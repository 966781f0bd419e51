/**
 * Saving the player state before an ad and restoring it afterwards:
 * `getPlayerSnapshot`, `restorePlayerSnapshot` and its inner `restoreTracks`,
 * `resume` and `tryToResume`.
 */
module Snapshot {
  import opened Wrappers
  import opened Events
  import opened Player

  /** `track.mode = mode` on the track at index `id` of the table. */
  function SetMode(tracks: seq<TextTrack>, id: nat, mode: Mode): (r: seq<TextTrack>)
    ensures |r| == |tracks|
  {
    if id < |tracks| then tracks[id := tracks[id].(mode := mode)] else tracks
  }

  /** One capture loop: for each listed track, record its mode, then disable it. */
  function Suppress(tracks: seq<TextTrack>, ids: seq<nat>): (r: (seq<TrackRecord>, seq<TextTrack>))
    requires IdsIn(ids, |tracks|)
    ensures |r.0| == |ids| && |r.1| == |tracks|
    decreases |ids|
  {
    if ids == [] then ([], tracks)
    else
      var rest := Suppress(SetMode(tracks, ids[0], Disabled), ids[1..]);
      ([TrackRecord(ids[0], tracks[ids[0]].mode)] + rest.0, rest.1)
  }

  /** Writing records back first to last (the order of the restore loops as written). */
  function ApplyInOrder(tracks: seq<TextTrack>, recs: seq<TrackRecord>): (r: seq<TextTrack>)
    ensures |r| == |tracks|
    decreases |recs|
  {
    if recs == [] then tracks else ApplyInOrder(SetMode(tracks, recs[0].track, recs[0].mode), recs[1..])
  }

  /** Writing records back last to first, so that the earliest record of a track has the final word. */
  function Undo(tracks: seq<TextTrack>, recs: seq<TrackRecord>): (r: seq<TextTrack>)
    ensures |r| == |tracks|
    decreases |recs|
  {
    if recs == [] then tracks else SetMode(Undo(tracks, recs[1..]), recs[0].track, recs[0].mode)
  }

  /**
   * Every suppressed track's mode as it was before the ad: in-band records,
   * then remote ones, each last to first, so that a track's earliest record
   * has the final word. This is the restore as intended; the loops as written
   * are `RestoredTracksAsWritten`, and `SharedTrackLeftDisabled` shows where they differ.
   */
  function RestoredTracks(tracks: seq<TextTrack>, s: Snapshot): (r: seq<TextTrack>)
    ensures |r| == |tracks|
  {
    Undo(Undo(tracks, s.suppressedTracks), s.suppressedRemoteTracks)
  }

  /** `restoreTracks` as the source writes it: remote records first to last, then in-band ones first to last. */
  function RestoredTracksAsWritten(tracks: seq<TextTrack>, s: Snapshot): (r: seq<TextTrack>)
    ensures |r| == |tracks|
  {
    ApplyInOrder(ApplyInOrder(tracks, s.suppressedRemoteTracks), s.suppressedTracks)
  }

  /** The time recorded: on iOS live streams, the (usually negative) offset from the live edge. */
  function CapturedTime(m: Media, env: Env): (t: real)
    ensures !(env.isIOS && env.isLive) ==> t == m.currentTime
    ensures env.isIOS && env.isLive && m.seekableEnd.Some? ==> m.seekableEnd.value + t == m.currentTime
  {
    if env.isIOS && env.isLive then
      (if m.seekableEnd.Some? then m.currentTime - m.seekableEnd.value else m.currentTime)
    else m.currentTime
  }

  /** `getPlayerSnapshot`: the snapshot and the player afterwards (every listed track disabled). */
  function Capture(m: Media, env: Env): (r: (Snapshot, Media))
    requires TracksValid(m)
    ensures TracksValid(r.1)
    ensures var (s, after) := r;
      && s.ended == m.ended && s.currentSrc == m.currentSrc && s.src == m.src && s.mediaType == m.currentType
      && s.nativePoster == m.poster && s.style == m.style && s.currentTime == CapturedTime(m, env)
      && after == m.(tracks := after.tracks)
      && |s.suppressedRemoteTracks| == |m.remoteTracks| && |s.suppressedTracks| == |m.textTracks|
  {
    var (remoteRecs, afterRemote) := Suppress(m.tracks, m.remoteTracks);
    var (textRecs, afterText) := Suppress(afterRemote, m.textTracks);
    (Snapshot(m.ended, m.currentSrc, m.src, CapturedTime(m, env), m.currentType,
              m.poster, m.style, remoteRecs, textRecs),
     m.(tracks := afterText))
  }

  lemma {:induction false} SuppressFacts(tracks: seq<TextTrack>, ids: seq<nat>)
    requires IdsIn(ids, |tracks|)
    ensures var r := Suppress(tracks, ids);
      && (forall k :: 0 <= k < |ids| ==> r.0[k].track == ids[k] && r.1[ids[k]].mode == Disabled)
      && (forall k :: 0 <= k < |ids| && ids[k] !in ids[..k] ==> r.0[k].mode == tracks[ids[k]].mode)
      && (forall t :: 0 <= t < |tracks| && t !in ids ==> r.1[t] == tracks[t])
      && (forall t :: 0 <= t < |tracks| ==> r.1[t].kind == tracks[t].kind)
    decreases |ids|
  {
    if ids != [] {
      var t1 := SetMode(tracks, ids[0], Disabled);
      var rest := Suppress(t1, ids[1..]);
      SuppressFacts(t1, ids[1..]);
      var r := Suppress(tracks, ids);
      assert r.0 == [TrackRecord(ids[0], tracks[ids[0]].mode)] + rest.0 && r.1 == rest.1;
      forall k | 0 <= k < |ids|
        ensures r.0[k].track == ids[k] && r.1[ids[k]].mode == Disabled
      {
        if k > 0 {
          assert ids[1..][k - 1] == ids[k];
        } else if ids[0] in ids[1..] {
          var j :| 0 <= j < |ids[1..]| && ids[1..][j] == ids[0];
        } else {
          assert rest.1[ids[0]] == t1[ids[0]];
        }
      }
      forall k | 0 <= k < |ids| && ids[k] !in ids[..k]
        ensures r.0[k].mode == tracks[ids[k]].mode
      {
        if k > 0 {
          assert ids[1..][k - 1] == ids[k];
          assert ids[1..][..k - 1] == ids[1..k];
          assert ids[k] != ids[0] by { assert ids[0] == ids[..k][0]; }
          assert ids[1..][..k - 1] == ids[..k][1..];
        }
      }
      forall t | 0 <= t < |tracks| && t !in ids
        ensures r.1[t] == tracks[t]
      {
        assert t != ids[0];
        assert t !in ids[1..];
      }
    }
  }

  lemma {:induction false} UndoSuppress(tracks: seq<TextTrack>, ids: seq<nat>)
    requires IdsIn(ids, |tracks|)
    ensures Undo(Suppress(tracks, ids).1, Suppress(tracks, ids).0) == tracks
    decreases |ids|
  {
    if ids != [] {
      var t1 := SetMode(tracks, ids[0], Disabled);
      UndoSuppress(t1, ids[1..]);
      var r := Suppress(tracks, ids);
      assert r.0[1..] == Suppress(t1, ids[1..]).0;
      assert SetMode(t1, ids[0], tracks[ids[0]].mode) == tracks;
    }
  }

  /**
   * After a capture every remote and in-band track is disabled, the other tracks
   * are untouched, and each list of records follows its track list in order. A
   * remote track's record holds its prior mode; an in-band record holds the mode
   * the track had when the in-band loop reached it.
   */
  lemma CaptureFacts(m: Media, env: Env)
    requires TracksValid(m)
    ensures var (s, after) := Capture(m, env);
      var afterRemote := Suppress(m.tracks, m.remoteTracks).1;
      && |s.suppressedRemoteTracks| == |m.remoteTracks| && |s.suppressedTracks| == |m.textTracks|
      && (forall k :: 0 <= k < |m.remoteTracks| ==>
            s.suppressedRemoteTracks[k].track == m.remoteTracks[k] && after.tracks[m.remoteTracks[k]].mode == Disabled)
      && (forall k :: 0 <= k < |m.textTracks| ==>
            s.suppressedTracks[k].track == m.textTracks[k] && after.tracks[m.textTracks[k]].mode == Disabled)
      && (forall k :: 0 <= k < |m.remoteTracks| && m.remoteTracks[k] !in m.remoteTracks[..k] ==>
            s.suppressedRemoteTracks[k].mode == m.tracks[m.remoteTracks[k]].mode)
      && (forall k :: 0 <= k < |m.textTracks| && m.textTracks[k] !in m.textTracks[..k] ==>
            s.suppressedTracks[k].mode == afterRemote[m.textTracks[k]].mode)
      && (forall t :: 0 <= t < |m.tracks| && t !in m.remoteTracks && t !in m.textTracks ==> after.tracks[t] == m.tracks[t])
      && after == m.(tracks := after.tracks)
      && VideoElementRecycled(after, Some(s)) == Some(false)
  {
    var (remoteRecs, afterRemote) := Suppress(m.tracks, m.remoteTracks);
    SuppressFacts(m.tracks, m.remoteTracks);
    SuppressFacts(afterRemote, m.textTracks);
  }

  /** Capturing and then restoring the tracks, with no change to the track table, gives back every original mode. */
  lemma CaptureThenRestoreTracks(m: Media, env: Env)
    requires TracksValid(m)
    ensures RestoredTracks(Capture(m, env).1.tracks, Capture(m, env).0) == m.tracks
  {
    var (remoteRecs, afterRemote) := Suppress(m.tracks, m.remoteTracks);
    UndoSuppress(m.tracks, m.remoteTracks);
    UndoSuppress(afterRemote, m.textTracks);
  }

  /**
   * A track that is both remote and in-band (video.js puts remote tracks in
   * `textTracks()` too) and was showing ends up disabled after the restore loops
   * as written: the in-band record, taken after the remote loop disabled the
   * track, is written last.
   */
  lemma SharedTrackLeftDisabled()
    ensures var m := Media(false, false, "a.mp4", "a.mp4", "video/mp4", 10.0, 60.0, 1.0, None,
                           [TextTrack(Subtitles, Showing)], [0], [0], "", None, 4, Some(1));
      var (s, after) := Capture(m, Env(false, false, false));
      && RestoredTracksAsWritten(after.tracks, s)[0].mode == Disabled
      && RestoredTracks(after.tracks, s)[0].mode == Showing
  {
    var m := Media(false, false, "a.mp4", "a.mp4", "video/mp4", 10.0, 60.0, 1.0, None,
                   [TextTrack(Subtitles, Showing)], [0], [0], "", None, 4, Some(1));
    var (remoteRecs, afterRemote) := Suppress(m.tracks, m.remoteTracks);
    assert remoteRecs == [TrackRecord(0, Showing)] && afterRemote == [TextTrack(Subtitles, Disabled)];
    var (textRecs, afterText) := Suppress(afterRemote, m.textTracks);
    assert textRecs == [TrackRecord(0, Disabled)] && afterText == [TextTrack(Subtitles, Disabled)];
    var (s, after) := Capture(m, Env(false, false, false));
    assert s.suppressedRemoteTracks == remoteRecs && s.suppressedTracks == textRecs && after.tracks == afterText;
    var once := ApplyInOrder(afterText, remoteRecs);
    assert once == ApplyInOrder(SetMode(afterText, 0, Showing), []);
    assert once == [TextTrack(Subtitles, Showing)];
    assert ApplyInOrder(once, textRecs) == ApplyInOrder(SetMode(once, 0, Disabled), []);
    CaptureThenRestoreTracks(m, Env(false, false, false));
  }

  predicate DistinctTracks(recs: seq<TrackRecord>)
  {
    forall i, j :: 0 <= i < j < |recs| ==> recs[i].track != recs[j].track
  }

  lemma {:induction false} UndoPastUnrelated(tracks: seq<TextTrack>, x: TrackRecord, recs: seq<TrackRecord>)
    requires forall k :: 0 <= k < |recs| ==> recs[k].track != x.track
    ensures Undo(SetMode(tracks, x.track, x.mode), recs) == SetMode(Undo(tracks, recs), x.track, x.mode)
    decreases |recs|
  {
    if recs != [] {
      UndoPastUnrelated(tracks, x, recs[1..]);
    }
  }

  lemma {:induction false} ApplyDistinctIsUndo(tracks: seq<TextTrack>, recs: seq<TrackRecord>)
    requires DistinctTracks(recs)
    ensures ApplyInOrder(tracks, recs) == Undo(tracks, recs)
    decreases |recs|
  {
    if recs != [] {
      ApplyDistinctIsUndo(SetMode(tracks, recs[0].track, recs[0].mode), recs[1..]);
      UndoPastUnrelated(tracks, recs[0], recs[1..]);
    }
  }

  lemma {:induction false} ApplyAppend(tracks: seq<TextTrack>, a: seq<TrackRecord>, b: seq<TrackRecord>)
    ensures ApplyInOrder(ApplyInOrder(tracks, a), b) == ApplyInOrder(tracks, a + b)
    decreases |a|
  {
    if a != [] {
      assert (a + b)[1..] == a[1..] + b && (a + b)[0] == a[0];
      ApplyAppend(SetMode(tracks, a[0].track, a[0].mode), a[1..], b);
    } else {
      assert a + b == b;
    }
  }

  lemma {:induction false} UndoAppend(tracks: seq<TextTrack>, a: seq<TrackRecord>, b: seq<TrackRecord>)
    ensures Undo(Undo(tracks, b), a) == Undo(tracks, a + b)
    decreases |a|
  {
    if a != [] {
      assert (a + b)[1..] == a[1..] + b && (a + b)[0] == a[0];
      UndoAppend(tracks, a[1..], b);
    } else {
      assert a + b == b;
    }
  }

  /** When no track is listed twice across both lists, the restore order as written makes no difference. */
  lemma AsWrittenAgreesOnDistinctTracks(tracks: seq<TextTrack>, s: Snapshot)
    requires DistinctTracks(s.suppressedRemoteTracks + s.suppressedTracks)
    ensures RestoredTracksAsWritten(tracks, s) == RestoredTracks(tracks, s)
  {
    var all := s.suppressedRemoteTracks + s.suppressedTracks;
    ApplyAppend(tracks, s.suppressedRemoteTracks, s.suppressedTracks);
    ApplyDistinctIsUndo(tracks, all);
    UndoAppend(tracks, s.suppressedRemoteTracks, s.suppressedTracks);
  }

  /** The poster (only when non-empty) and the inline style (`style || ''`) written back to the tech. */
  function RestoredAttributes(m: Media, s: Snapshot): (r: Media)
    ensures r.poster == (if s.nativePoster != "" then s.nativePoster else m.poster)
    ensures r.style == Some(s.style.GetOr(""))
    ensures r.(poster := m.poster, style := m.style) == m
  {
    m.(poster := if s.nativePoster != "" then s.nativePoster else m.poster,
       style := Some(s.style.GetOr("")))
  }

  /** The calls `resume` makes: a seek (none on iOS live at or ahead of the live edge), then `play` unless the content had ended. */
  function ResumeCalls(m: Media, env: Env, s: Snapshot): (r: seq<Call>)
    ensures !s.ended <==> |r| > 0 && r[|r| - 1] == PlayMedia
    ensures |r| <= 2 && forall i :: 0 <= i < |r| - 1 ==> r[i].SeekTo?
    ensures !(env.isIOS && env.isLive) ==> |r| > 0 && r[0] == SeekTo(if s.ended then m.duration else s.currentTime)
    ensures env.isIOS && env.isLive && s.currentTime >= 0.0 ==> r == (if s.ended then [] else [PlayMedia])
  {
    (if env.isIOS && env.isLive then
       (if s.currentTime < 0.0 then
          [SeekTo(if m.seekableEnd.Some? then m.seekableEnd.value + s.currentTime else m.currentTime)]
        else [])
     else if s.ended then [SeekTo(m.duration)]
     else [SeekTo(s.currentTime)])
    + (if !s.ended then [PlayMedia] else [])
  }

  /**
   * On an iOS live stream, a snapshot taken some distance behind the live edge
   * resumes the same distance behind the live edge as it is when the ad ends.
   */
  lemma IosLiveKeepsOffset(m: Media, env: Env, later: Media)
    requires env.isIOS && env.isLive && m.seekableEnd.Some? && later.seekableEnd.Some?
    requires m.currentTime < m.seekableEnd.value
    ensures var s := Snapshot(m.ended, m.currentSrc, m.src, CapturedTime(m, env), m.currentType,
                              m.poster, m.style, [], []);
      ResumeCalls(later, env, s)[0] == SeekTo(later.seekableEnd.value - (m.seekableEnd.value - m.currentTime))
  {
  }

  /** Outside iOS live streams, resuming seeks to the end of an ended snapshot or to its time, and plays exactly when it had not ended. */
  lemma ResumeOutsideIosLive(m: Media, env: Env, s: Snapshot)
    requires !(env.isIOS && env.isLive)
    ensures var after := Effects(m, ResumeCalls(m, env, s));
      && after.currentTime == (if s.ended then m.duration else s.currentTime)
      && (PlayMedia in ResumeCalls(m, env, s) <==> !s.ended)
      && (!s.ended ==> !after.paused)
      && after.src == m.src && after.currentSrc == m.currentSrc && after.tracks == m.tracks
  {
    var seek := SeekTo(if s.ended then m.duration else s.currentTime);
    if s.ended {
      assert ResumeCalls(m, env, s) == [seek];
    } else {
      assert ResumeCalls(m, env, s) == [seek] + [PlayMedia];
      EffectsAppend(m, [seek], PlayMedia);
    }
  }

  datatype PollResult = ResumeNow | RetryLater | GiveUp

  /**
   * One `tryToResume` check: resume when `readyState > 1`, when the tech has no
   * `seekable`, or when it has a seekable range; otherwise retry while
   * `attempts--` is truthy, and give up (one last guarded resume) when it is 0.
   */
  function Poll(readyState: int, seekable: Option<nat>, attempts: int): (r: PollResult)
    ensures r == ResumeNow <==> readyState > 1 || seekable != Some(0)
    ensures r == RetryLater <==> readyState <= 1 && seekable == Some(0) && attempts != 0
    ensures r == GiveUp <==> readyState <= 1 && seekable == Some(0) && attempts == 0
  {
    if readyState > 1 then ResumeNow
    else if seekable.None? then ResumeNow
    else if seekable.value > 0 then ResumeNow
    else if attempts != 0 then RetryLater
    else GiveUp
  }

  /**
   * A chain of polls starting with `attempts`, where `ready[i]` says whether the
   * tech is ready at the i-th poll: the number of 50 ms retries scheduled, and
   * whether `resume` ran within the polls observed.
   */
  datatype PollSummary = PollSummary(retries: nat, resumed: bool)

  function PollChain(attempts: int, ready: seq<bool>): PollSummary
    decreases |ready|
  {
    if ready == [] then PollSummary(0, false)
    else if ready[0] then PollSummary(0, true)
    else if attempts != 0 then
      var rest := PollChain(attempts - 1, ready[1..]);
      PollSummary(rest.retries + 1, rest.resumed)
    else PollSummary(0, true)
  }

  /**
   * From `attempts = a`, at most `a` retries are scheduled and `resume` has run by
   * the (a+1)-th poll; when the tech never becomes ready, exactly `a` retries
   * come first.
   */
  lemma {:induction false} PollChainBound(a: nat, ready: seq<bool>)
    ensures PollChain(a, ready).retries <= a
    ensures |ready| > a ==> PollChain(a, ready).resumed
    ensures |ready| > a && (forall i :: 0 <= i < |ready| ==> !ready[i]) ==> PollChain(a, ready).retries == a
    decreases |ready|
  {
    if ready != [] && !ready[0] && a != 0 {
      PollChainBound(a - 1, ready[1..]);
      if |ready| > a && (forall i :: 0 <= i < |ready| ==> !ready[i]) {
        assert forall i :: 0 <= i < |ready[1..]| ==> !ready[1..][i] by {
          forall i | 0 <= i < |ready[1..]| ensures !ready[1..][i] { assert ready[1..][i] == ready[i + 1]; }
        }
      }
    }
  }

  /**
   * One step of a chain is one `tryToResume` check: the chain stops (resumed)
   * when `Poll` says resume now or give up, and goes on with one more retry and
   * one attempt fewer when it says retry.
   */
  lemma PollChainStep(readyState: int, seekable: Option<nat>, attempts: int, rest: seq<bool>)
    ensures var poll := Poll(readyState, seekable, attempts);
      var c := PollChain(attempts, [poll == ResumeNow] + rest);
      && (poll != RetryLater ==> c == PollSummary(0, true))
      && (poll == RetryLater ==> c == PollSummary(PollChain(attempts - 1, rest).retries + 1, PollChain(attempts - 1, rest).resumed))
  {
    assert ([Poll(readyState, seekable, attempts) == ResumeNow] + rest)[1..] == rest;
  }

  /** The restore's budget: a tech that never gets ready is polled through 20 retries, then resumed once. */
  lemma TwentyRetriesThenResume(ready: seq<bool>)
    requires |ready| == 21 && forall i :: 0 <= i < |ready| ==> !ready[i]
    ensures PollChain(20, ready) == PollSummary(20, true)
  {
    PollChainBound(20, ready);
  }

  function WithoutJob(listeners: seq<ResumeJob>, id: nat): (r: seq<ResumeJob>)
    ensures forall k :: 0 <= k < |r| ==> r[k].id != id && r[k] in listeners
    ensures forall j :: j in listeners && j.id != id ==> j in r
  {
    if listeners == [] then []
    else if listeners[0].id == id then WithoutJob(listeners[1..], id)
    else [listeners[0]] + WithoutJob(listeners[1..], id)
  }

  /** One pass of a capture loop: the track's mode as it was, and the track disabled. */
  method DisableTrack(p: Player, id: nat) returns (mode: Mode)
    requires p.Valid() && id < |p.media.tracks|
    modifies p`media
    ensures p.Valid() && mode == old(p.media.tracks[id].mode)
    ensures p.media == old(p.media).(tracks := SetMode(old(p.media.tracks), id, Disabled))
  {
    mode := p.media.tracks[id].mode;
    p.media := p.media.(tracks := SetMode(p.media.tracks, id, Disabled));
  }

  /** One capture loop over the listed tracks of the player, in place. */
  method SuppressTracks(p: Player, ids: seq<nat>) returns (recs: seq<TrackRecord>)
    requires p.Valid() && IdsIn(ids, |p.media.tracks|)
    modifies p`media
    ensures p.Valid()
    ensures (recs, p.media.tracks) == Suppress(old(p.media.tracks), ids)
    ensures p.media == old(p.media).(tracks := p.media.tracks)
  {
    ghost var goal := Suppress(p.media.tracks, ids);
    recs := [];
    var i := 0;
    while i < |ids|
      invariant 0 <= i <= |ids|
      invariant p.Valid()
      invariant p.media == old(p.media).(tracks := p.media.tracks) && |p.media.tracks| == |old(p.media.tracks)|
      invariant recs + Suppress(p.media.tracks, ids[i..]).0 == goal.0
      invariant Suppress(p.media.tracks, ids[i..]).1 == goal.1
    {
      var id := ids[i];
      assert ids[i..][1..] == ids[i + 1..];
      var mode := DisableTrack(p, id);
      recs := recs + [TrackRecord(id, mode)];
      i := i + 1;
    }
    assert ids[i..] == [];
    assert Suppress(p.media.tracks, ids[i..]) == ([], p.media.tracks);
    assert recs + [] == recs;
  }

  /** `getPlayerSnapshot`: the snapshot, with every remote then every in-band track disabled in place as in `Capture`. */
  method GetPlayerSnapshot(p: Player) returns (s: Snapshot)
    requires p.Valid()
    modifies p`media
    ensures p.Valid()
    ensures (s, p.media) == Capture(old(p.media), p.env)
  {
    var m := p.media;
    var suppressedRemoteTracks := SuppressTracks(p, m.remoteTracks);
    var suppressedTracks := SuppressTracks(p, m.textTracks);
    s := Snapshot(m.ended, m.currentSrc, m.src, CapturedTime(m, p.env), m.currentType,
                  m.poster, m.style, suppressedRemoteTracks, suppressedTracks);
  }

  /** Writing one list of records back, last to first. */
  method UndoRecords(p: Player, recs: seq<TrackRecord>)
    requires p.Valid()
    modifies p`media
    ensures p.Valid()
    ensures p.media == old(p.media).(tracks := Undo(old(p.media).tracks, recs))
  {
    var i := |recs|;
    while i > 0
      invariant 0 <= i <= |recs|
      invariant p.Valid()
      invariant p.media == old(p.media).(tracks := Undo(old(p.media).tracks, recs[i..]))
    {
      i := i - 1;
      assert recs[i..][1..] == recs[i + 1..];
      p.media := p.media.(tracks := SetMode(p.media.tracks, recs[i].track, recs[i].mode));
    }
  }

  /** `restoreTracks`: every suppressed track gets its recorded mode back. */
  method RestoreTracks(p: Player, s: Snapshot)
    requires p.Valid()
    modifies p`media
    ensures p.Valid()
    ensures p.media == old(p.media).(tracks := RestoredTracks(old(p.media).tracks, s))
  {
    UndoRecords(p, s.suppressedTracks);
    UndoRecords(p, s.suppressedRemoteTracks);
  }

  /** `resume`: the seek and play of `ResumeCalls`, made on the player. */
  method Resume(p: Player, s: Snapshot)
    requires p.Valid()
    modifies p`media, p`calls
    ensures p.Valid()
    ensures p.calls == old(p.calls) + ResumeCalls(old(p.media), p.env, s)
    ensures p.media == Effects(old(p.media), ResumeCalls(old(p.media), p.env, s))
  {
    ghost var m0 := p.media;
    ghost var c0 := p.calls;
    if p.env.isIOS && p.env.isLive {
      if s.currentTime < 0.0 {
        var currentTime := if p.media.seekableEnd.Some? then p.media.seekableEnd.value + s.currentTime else p.media.currentTime;
        p.Invoke(SeekTo(currentTime));
      }
    } else if s.ended {
      p.Invoke(SeekTo(p.media.duration));
    } else {
      p.Invoke(SeekTo(s.currentTime));
    }
    ghost var seeks := p.calls[|c0|..];
    assert p.calls == c0 + seeks;
    assert p.media == Effects(m0, seeks) by {
      if seeks != [] {
        assert seeks[1..] == [];
      }
    }
    if !s.ended {
      p.Invoke(PlayMedia);
      EffectsAppend(m0, seeks, PlayMedia);
    }
    assert ResumeCalls(m0, p.env, s) == seeks + (if !s.ended then [PlayMedia] else []);
  }

  /** `player.off('contentcanplay', tryToResume)` and `player.clearTimeout(player.ads.tryToResumeTimeout_)`. */
  method ForgetResume(p: Player, job: ResumeJob)
    requires p.Valid()
    modifies p`canPlayListeners, p`tryToResumeTimeout, p`timers
    ensures p.Valid()
    ensures p.canPlayListeners == WithoutJob(old(p.canPlayListeners), job.id) && p.tryToResumeTimeout == None
    ensures p.timers == Cleared(old(p.timers), old(p.tryToResumeTimeout))
  {
    p.canPlayListeners := WithoutJob(p.canPlayListeners, job.id);
    if p.tryToResumeTimeout.Some? {
      p.ClearTimeout(p.tryToResumeTimeout);
      p.tryToResumeTimeout := None;
    }
  }

  /**
   * `tryToResume` for one restore: drop this restore's `contentcanplay` listener
   * and the pending 2000 ms fallback, then resume, or retry in 50 ms with
   * `attempts` decremented.
   */
  method TryToResume(p: Player, job: ResumeJob)
    requires p.Valid()
    modifies p`canPlayListeners, p`tryToResumeTimeout, p`timers, p`nextHandle, p`media, p`calls
    ensures p.Valid()
    ensures p.canPlayListeners == WithoutJob(old(p.canPlayListeners), job.id) && p.tryToResumeTimeout == None
    ensures var cleared := Cleared(old(p.timers), old(p.tryToResumeTimeout));
      if Poll(old(p.media).readyState, old(p.media).techSeekable, job.attempts) == RetryLater then
        && p.timers == cleared[old(p.nextHandle) := Timer(50, Callback.TryToResume(job.(attempts := job.attempts - 1)))]
        && p.nextHandle == old(p.nextHandle) + 1 && p.media == old(p.media) && p.calls == old(p.calls)
      else
        && p.timers == cleared && p.nextHandle == old(p.nextHandle)
        && p.calls == old(p.calls) + ResumeCalls(old(p.media), p.env, job.snapshot)
        && p.media == Effects(old(p.media), ResumeCalls(old(p.media), p.env, job.snapshot))
  {
    ForgetResume(p, job);
    var poll := Poll(p.media.readyState, p.media.techSeekable, job.attempts);
    if poll == RetryLater {
      var _ := p.SetTimeout(50, Callback.TryToResume(job.(attempts := job.attempts - 1)));
    } else {
      Resume(p, job.snapshot);
    }
  }

  /** The part of the player a snapshot restore reads or writes (besides `env`). */
  datatype RestoreView = RestoreView(
    disableNextSnapshotRestore: bool,
    snapshot: Option<Snapshot>,
    media: Media,
    calls: seq<Call>,
    metadataListeners: seq<Snapshot>,
    canPlayListeners: seq<ResumeJob>,
    nextJob: nat,
    timers: map<Handle, Timer>,
    nextHandle: Handle,
    tryToResumeTimeout: Option<Handle>)

  function RestoreViewOf(p: Player): RestoreView
    reads p
  {
    RestoreView(p.disableNextSnapshotRestore, p.snapshot, p.media, p.calls, p.metadataListeners,
                p.canPlayListeners, p.nextJob, p.timers, p.nextHandle, p.tryToResumeTimeout)
  }

  /** The source reset and reloaded, with the tracks' restore waiting for `contentloadedmetadata`. */
  function SourceReloaded(a: RestoreView, s: Snapshot): (b: RestoreView)
    ensures b.timers == a.timers && b.metadataListeners == a.metadataListeners + [s]
    ensures b.calls == a.calls + [SetSource(s.currentSrc, s.mediaType), LoadSource]
  {
    a.(metadataListeners := a.metadataListeners + [s],
       calls := a.calls + [SetSource(s.currentSrc, s.mediaType), LoadSource],
       media := Effect(Effect(a.media, SetSource(s.currentSrc, s.mediaType)), LoadSource))
  }

  /** One resume with 20 attempts, waiting for `contentcanplay` and for its 2000 ms fallback. */
  function ResumeArmed(a: RestoreView, s: Snapshot): (b: RestoreView)
    ensures b.timers == a.timers[a.nextHandle := Timer(2000, Callback.TryToResume(ResumeJob(a.nextJob, s, 20)))]
    ensures b.tryToResumeTimeout == Some(a.nextHandle) && b.canPlayListeners == a.canPlayListeners + [ResumeJob(a.nextJob, s, 20)]
  {
    var job := ResumeJob(a.nextJob, s, 20);
    a.(canPlayListeners := a.canPlayListeners + [job], nextJob := a.nextJob + 1,
       timers := a.timers[a.nextHandle := Timer(2000, Callback.TryToResume(job))],
       nextHandle := a.nextHandle + 1, tryToResumeTimeout := Some(a.nextHandle))
  }

  /** The in-place branch: the tracks restored and `play` called; no timer, no listener. */
  function ResumedInPlace(a: RestoreView, s: Snapshot): (b: RestoreView)
    ensures b.timers == a.timers && b.calls == a.calls + [PlayMedia] && !b.media.paused
    ensures b.media.tracks == RestoredTracks(a.media.tracks, s)
  {
    a.(media := Effect(a.media.(tracks := RestoredTracks(a.media.tracks, s)), PlayMedia), calls := a.calls + [PlayMedia])
  }

  /**
   * What `restorePlayerSnapshot(player, player.ads.snapshot)` makes of view
   * `a`: the one-shot suppression consumed; with no suppression and a
   * snapshot, poster and style written back, then either the source reloaded
   * (element recycled), or the tracks restored and `play` called unless both
   * the player and the snapshot ended.
   */
  function AfterRestore(a: RestoreView): (b: RestoreView)
    ensures !b.disableNextSnapshotRestore && b.snapshot == a.snapshot
    ensures a.disableNextSnapshotRestore || a.snapshot.None? ==> b == a.(disableNextSnapshotRestore := false)
    ensures forall h :: h in b.timers ==> (h in a.timers && b.timers[h] == a.timers[h]) || b.timers[h].callback.TryToResume?
    ensures !a.disableNextSnapshotRestore && a.snapshot.Some? ==>
      var s := a.snapshot.value;
      var recycled := a.media.src != s.src || a.media.currentSrc != s.currentSrc;
      var job := ResumeJob(a.nextJob, s, 20);
      && b.media.poster == (if s.nativePoster != "" then s.nativePoster else a.media.poster)
      && b.media.style == Some(s.style.GetOr(""))
      && (recycled ==>
            && b.calls == a.calls + [SetSource(s.currentSrc, s.mediaType), LoadSource]
            && b.media.src == s.currentSrc && b.media.currentSrc == s.currentSrc && b.media.tracks == a.media.tracks
            && b.metadataListeners == a.metadataListeners + [s]
            && b.canPlayListeners == a.canPlayListeners + [job]
            && b.timers == a.timers[a.nextHandle := Timer(2000, Callback.TryToResume(job))]
            && b.tryToResumeTimeout == Some(a.nextHandle) && b.nextHandle == a.nextHandle + 1)
      && (!recycled && !(a.media.ended && s.ended) ==>
            && b.media.tracks == RestoredTracks(a.media.tracks, s)
            && b.calls == a.calls + [PlayMedia] && !b.media.paused
            && b.timers == a.timers && b.metadataListeners == a.metadataListeners && b.canPlayListeners == a.canPlayListeners)
      && (!recycled && a.media.ended && s.ended ==>
            && b.media.tracks == a.media.tracks && b.calls == a.calls
            && b.timers == a.timers && b.metadataListeners == a.metadataListeners && b.canPlayListeners == a.canPlayListeners)
  {
    if a.disableNextSnapshotRestore || a.snapshot.None? then a.(disableNextSnapshotRestore := false)
    else
      var s := a.snapshot.value;
      var a1 := a.(media := RestoredAttributes(a.media, s));
      if VideoElementRecycled(a1.media, a1.snapshot) == Some(true) then ResumeArmed(SourceReloaded(a1, s), s)
      else if !a1.media.ended || !s.ended then ResumedInPlace(a1, s)
      else a1
  }

  /**
   * An ad that left the element alone: restoring the snapshot taken before it
   * gives every suppressed track its mode back, writes back a non-empty poster,
   * and calls `play` unless both the player and the snapshot ended.
   */
  lemma RestoreAfterCapture(a: RestoreView, m: Media, env: Env)
    requires TracksValid(m) && !a.disableNextSnapshotRestore
    requires a.snapshot == Some(Capture(m, env).0) && a.media.tracks == Capture(m, env).1.tracks
    requires a.media.src == m.src && a.media.currentSrc == m.currentSrc
    ensures var b := AfterRestore(a);
      && (!(a.media.ended && m.ended) ==> b.media.tracks == m.tracks && b.calls == a.calls + [PlayMedia])
      && (m.poster != "" ==> b.media.poster == m.poster)
      && b.media.style == Some(m.style.GetOr(""))
      && b.timers == a.timers
  {
    CaptureThenRestoreTracks(m, env);
  }

  /** `player.one('contentloadedmetadata', restoreTracks)`, then `src` and `load`. */
  method ReloadSource(p: Player, s: Snapshot)
    requires p.Valid()
    modifies p`media, p`calls, p`metadataListeners
    ensures p.Valid()
    ensures RestoreViewOf(p) == SourceReloaded(old(RestoreViewOf(p)), s)
  {
    p.metadataListeners := p.metadataListeners + [s];
    p.Invoke(SetSource(s.currentSrc, s.mediaType));
    p.Invoke(LoadSource);
  }

  /** `player.one('contentcanplay', tryToResume)` and the 2000 ms fallback. */
  method ArmResume(p: Player, s: Snapshot)
    requires p.Valid()
    modifies p`canPlayListeners, p`nextJob, p`timers, p`nextHandle, p`tryToResumeTimeout
    ensures p.Valid()
    ensures RestoreViewOf(p) == ResumeArmed(old(RestoreViewOf(p)), s)
  {
    var job := ResumeJob(p.nextJob, s, 20);
    p.nextJob := p.nextJob + 1;
    p.canPlayListeners := p.canPlayListeners + [job];
    var h := p.Schedule(2000, Callback.TryToResume(job), p.state);
    p.tryToResumeTimeout := Some(h);
  }

  method ResumeInPlace(p: Player, s: Snapshot)
    requires p.Valid()
    modifies p`media, p`calls
    ensures p.Valid()
    ensures RestoreViewOf(p) == ResumedInPlace(old(RestoreViewOf(p)), s)
  {
    RestoreTracks(p, s);
    p.Invoke(PlayMedia);
  }

  /** Poster and style written back to the tech. */
  method WriteBackAttributes(p: Player, s: Snapshot)
    requires p.Valid()
    modifies p`media
    ensures p.Valid()
    ensures RestoreViewOf(p) == old(RestoreViewOf(p)).(media := RestoredAttributes(old(p.media), s))
  {
    p.media := RestoredAttributes(p.media, s);
  }

  /** The restore once neither suppressed nor missing a snapshot: write back poster and style, then reload or resume in place. */
  method RestoreFromSnapshot(p: Player, s: Snapshot)
    requires p.Valid() && p.snapshot == Some(s) && !p.disableNextSnapshotRestore
    modifies p`media, p`calls, p`metadataListeners, p`canPlayListeners
    modifies p`nextJob, p`timers, p`nextHandle, p`tryToResumeTimeout
    ensures p.Valid()
    ensures RestoreViewOf(p) == AfterRestore(old(RestoreViewOf(p)))
  {
    WriteBackAttributes(p, s);
    var recycled := VideoElementRecycled(p.media, p.snapshot);
    if recycled == Some(true) {
      ReloadSource(p, s);
      ArmResume(p, s);
    } else if !p.media.ended || !s.ended {
      ResumeInPlace(p, s);
    }
  }

  /**
   * `restorePlayerSnapshot(player, player.ads.snapshot)`. Returns false where the
   * source throws (no snapshot and no suppression).
   */
  method RestorePlayerSnapshot(p: Player) returns (ok: bool)
    requires p.Valid()
    modifies p`disableNextSnapshotRestore, p`media, p`calls, p`metadataListeners, p`canPlayListeners
    modifies p`nextJob, p`timers, p`nextHandle, p`tryToResumeTimeout
    ensures p.Valid()
    ensures ok <==> old(p.disableNextSnapshotRestore) || old(p.snapshot).Some?
    ensures RestoreViewOf(p) == AfterRestore(old(RestoreViewOf(p)))
  {
    ghost var a := RestoreViewOf(p);
    if p.disableNextSnapshotRestore {
      p.disableNextSnapshotRestore := false;
      assert RestoreViewOf(p) == a.(disableNextSnapshotRestore := false);
      return true;
    }
    if p.snapshot.None? {
      return false;
    }
    RestoreFromSnapshot(p, p.snapshot.value);
    ok := true;
  }
}
