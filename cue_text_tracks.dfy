/**
 * `cueTextTracks`: handing metadata text tracks to an integration, and walking
 * a track's cues as ad cues with de-duplication by cue id through
 * `player.ads.includedCues`. The integration's hooks (`getSupportedAdCue`,
 * `getCueId`) are function parameters; its `processCue` and `cancelAds`
 * callbacks are recorded as calls.
 */
module CueTextTracks {
  import opened Wrappers
  import opened Player

  /** A cue of a text track; `text` stands for whatever else the cue holds. */
  datatype Cue = Cue(id: Option<string>, startTime: real, text: string)

  /** A call made to the integration: `processCue(player, cueData, cueId, startTime)` or `cancelAds(player, cueData)`. */
  datatype CueCall<D> = ProcessCue(data: D, cueId: Option<string>, startTime: real) | CancelAds(data: D)

  /** The default `getSupportedAdCue`: every cue is supported, as itself. */
  function DefaultSupportedAdCue(c: Cue): Option<Cue>
  {
    Some(c)
  }

  /** The default `getCueId`: the cue's own `id`. */
  function DefaultCueId(c: Cue): Option<string>
  {
    c.id
  }

  /**
   * The property names every plain object inherits from `Object.prototype`.
   * `includedCues` starts as `{}`, so looking one of them up finds the
   * inherited member, which is truthy.
   */
  const ObjectMembers: set<string> := {
    "constructor", "hasOwnProperty", "isPrototypeOf", "propertyIsEnumerable",
    "toLocaleString", "toString", "valueOf", "__proto__",
    "__defineGetter__", "__defineSetter__", "__lookupGetter__", "__lookupSetter__"}

  /**
   * `cueAlreadySeen`: an `undefined` id is never seen; a recorded id is, and
   * so is an inherited member's name, recorded or not.
   */
  predicate AlreadySeen(seen: set<string>, id: Option<string>)
  {
    id.Some? && (id.value in seen || id.value in ObjectMembers)
  }

  /** `setCueAlreadySeen`: `undefined` and `''` are not recorded. */
  function MarkSeen(seen: set<string>, id: Option<string>): set<string>
  {
    if id.Some? && id.value != "" then seen + {id.value} else seen
  }

  /** The ids recorded after marking the cues `cs` one after another. */
  function MarkAll(seen: set<string>, cs: seq<Cue>, cueId: Cue -> Option<string>): set<string>
    decreases |cs|
  {
    if cs == [] then seen else MarkAll(MarkSeen(seen, cueId(cs[0])), cs[1..], cueId)
  }

  /** The calls for one processed cue: `processCue`, then `cancelAds` when it was supplied. */
  function CallsFor<D>(data: D, id: Option<string>, startTime: real, hasCancelAds: bool): seq<CueCall<D>>
  {
    [ProcessCue(data, id, startTime)] + (if hasCancelAds then [CancelAds(data)] else [])
  }

  /** The calls for a run of supported cues, processed in order. */
  function Expected<D>(cs: seq<Cue>, supported: Cue -> Option<D>, cueId: Cue -> Option<string>, hasCancelAds: bool): seq<CueCall<D>>
    requires forall i :: 0 <= i < |cs| ==> supported(cs[i]).Some?
    decreases |cs|
  {
    if cs == [] then []
    else CallsFor(supported(cs[0]).value, cueId(cs[0]), cs[0].startTime, hasCancelAds)
         + Expected(cs[1..], supported, cueId, hasCancelAds)
  }

  datatype Run<D> = Run(calls: seq<CueCall<D>>, seen: set<string>, processed: nat)

  /** `processAdTrack`'s loop from a given `includedCues`: it returns at the first unsupported or already-seen cue. */
  function AdTrackRun<D>(cues: seq<Cue>, supported: Cue -> Option<D>, cueId: Cue -> Option<string>,
                         hasCancelAds: bool, seen: set<string>): (r: Run<D>)
    ensures r.processed <= |cues|
    decreases |cues|
  {
    if cues == [] then Run([], seen, 0)
    else match supported(cues[0])
      case None => Run([], seen, 0)
      case Some(data) =>
        var id := cueId(cues[0]);
        if AlreadySeen(seen, id) then Run([], seen, 0)
        else
          var rest := AdTrackRun(cues[1..], supported, cueId, hasCancelAds, MarkSeen(seen, id));
          Run(CallsFor(data, id, cues[0].startTime, hasCancelAds) + rest.calls, rest.seen, rest.processed + 1)
  }

  /**
   * The run processes a prefix of the cues: each of them supported and not yet
   * seen when reached, with its `processCue` (and `cancelAds`) calls in order;
   * the cue after the prefix, if any, is unsupported or already seen; and the
   * recorded ids are those of the processed cues.
   */
  lemma {:induction false} AdTrackRunFacts<D>(cues: seq<Cue>, supported: Cue -> Option<D>, cueId: Cue -> Option<string>,
                                              hasCancelAds: bool, seen: set<string>)
    ensures var r := AdTrackRun(cues, supported, cueId, hasCancelAds, seen);
      && (forall j :: 0 <= j < r.processed ==> supported(cues[j]).Some?)
      && (forall j :: 0 <= j < r.processed ==> !AlreadySeen(MarkAll(seen, cues[..j], cueId), cueId(cues[j])))
      && (r.processed < |cues| ==>
            supported(cues[r.processed]).None? ||
            AlreadySeen(MarkAll(seen, cues[..r.processed], cueId), cueId(cues[r.processed])))
      && r.seen == MarkAll(seen, cues[..r.processed], cueId)
      && r.calls == Expected(cues[..r.processed], supported, cueId, hasCancelAds)
    decreases |cues|
  {
    var r := AdTrackRun(cues, supported, cueId, hasCancelAds, seen);
    if cues != [] && supported(cues[0]).Some? && !AlreadySeen(seen, cueId(cues[0])) {
      var seen1 := MarkSeen(seen, cueId(cues[0]));
      var rest := AdTrackRun(cues[1..], supported, cueId, hasCancelAds, seen1);
      AdTrackRunFacts(cues[1..], supported, cueId, hasCancelAds, seen1);
      assert r.processed == rest.processed + 1;
      forall j | 0 < j <= r.processed
        ensures MarkAll(seen, cues[..j], cueId) == MarkAll(seen1, cues[1..][..j - 1], cueId)
      {
        assert cues[..j][1..] == cues[1..][..j - 1];
      }
      forall j | 0 < j < r.processed
        ensures supported(cues[j]).Some? && !AlreadySeen(MarkAll(seen, cues[..j], cueId), cueId(cues[j]))
      {
        assert cues[1..][j - 1] == cues[j];
      }
      if r.processed < |cues| {
        assert cues[1..][rest.processed] == cues[r.processed];
      }
      assert cues[..r.processed][1..] == cues[1..][..rest.processed];
      assert MarkAll(seen, cues[..0], cueId) == seen;
    }
  }

  lemma {:induction false} MarkAllGrows(seen: set<string>, cs: seq<Cue>, cueId: Cue -> Option<string>)
    ensures seen <= MarkAll(seen, cs, cueId)
    ensures forall i :: 0 <= i < |cs| && cueId(cs[i]).Some? && cueId(cs[i]).value != "" ==> cueId(cs[i]).value in MarkAll(seen, cs, cueId)
    ensures forall x :: x in MarkAll(seen, cs, cueId) ==>
      x in seen || exists i :: 0 <= i < |cs| && cueId(cs[i]) == Some(x) && x != ""
    decreases |cs|
  {
    if cs != [] {
      var seen1 := MarkSeen(seen, cueId(cs[0]));
      MarkAllGrows(seen1, cs[1..], cueId);
      forall i | 0 < i < |cs| ensures cs[1..][i - 1] == cs[i] { }
      forall x | x in MarkAll(seen, cs, cueId)
        ensures x in seen || exists i :: 0 <= i < |cs| && cueId(cs[i]) == Some(x) && x != ""
      {
        if x !in seen1 {
          var i :| 0 <= i < |cs[1..]| && cueId(cs[1..][i]) == Some(x) && x != "";
          assert cs[1..][i] == cs[i + 1];
        }
      }
    }
  }

  /**
   * No two processed cues share a non-empty id, none of them has an id seen
   * before the run, and the run records no id other than those of its cues —
   * in particular never `''`.
   */
  lemma NoRepeatedIds<D>(cues: seq<Cue>, supported: Cue -> Option<D>, cueId: Cue -> Option<string>,
                         hasCancelAds: bool, seen: set<string>)
    ensures var r := AdTrackRun(cues, supported, cueId, hasCancelAds, seen);
      && (forall i, j :: 0 <= i < j < r.processed && cueId(cues[i]).Some? && cueId(cues[i]).value != "" ==>
            cueId(cues[i]) != cueId(cues[j]))
      && (forall j :: 0 <= j < r.processed && cueId(cues[j]).Some? ==>
            cueId(cues[j]).value !in seen && cueId(cues[j]).value !in ObjectMembers)
      && (forall x :: x in r.seen ==> x in seen || exists i :: 0 <= i < r.processed && cueId(cues[i]) == Some(x) && x != "")
      && ("" in r.seen ==> "" in seen)
  {
    var r := AdTrackRun(cues, supported, cueId, hasCancelAds, seen);
    AdTrackRunFacts(cues, supported, cueId, hasCancelAds, seen);
    forall i, j | 0 <= i < j < r.processed && cueId(cues[i]).Some? && cueId(cues[i]).value != ""
      ensures cueId(cues[i]) != cueId(cues[j])
    {
      MarkAllGrows(seen, cues[..j], cueId);
      assert cues[..j][i] == cues[i];
    }
    forall j | 0 <= j < r.processed && cueId(cues[j]).Some?
      ensures cueId(cues[j]).value !in seen && cueId(cues[j]).value !in ObjectMembers
    {
      MarkAllGrows(seen, cues[..j], cueId);
    }
    MarkAllGrows(seen, cues[..r.processed], cueId);
    forall x | x in r.seen
      ensures x in seen || exists i :: 0 <= i < r.processed && cueId(cues[i]) == Some(x) && x != ""
    {
      if x !in seen {
        var i :| 0 <= i < |cues[..r.processed]| && cueId(cues[..r.processed][i]) == Some(x) && x != "";
        assert cues[..r.processed][i] == cues[i];
      }
    }
  }

  /**
   * With the default hooks every cue is supported, so the run stops only at a
   * cue whose id was already recorded or is an inherited member's name; cues
   * with distinct ids, none of them such a name, are all processed.
   */
  lemma DefaultsStopOnlyAtRepeat(cues: seq<Cue>, hasCancelAds: bool)
    ensures var r := AdTrackRun(cues, DefaultSupportedAdCue, DefaultCueId, hasCancelAds, {});
      && (r.processed < |cues| ==>
            cues[r.processed].id.Some? &&
            (cues[r.processed].id.value in ObjectMembers ||
             exists i :: 0 <= i < r.processed && cues[i].id == cues[r.processed].id))
      && ((forall i, j :: 0 <= i < j < |cues| ==> cues[i].id != cues[j].id) &&
          (forall i :: 0 <= i < |cues| && cues[i].id.Some? ==> cues[i].id.value !in ObjectMembers) ==>
            r.processed == |cues|)
  {
    var r := AdTrackRun(cues, DefaultSupportedAdCue, DefaultCueId, hasCancelAds, {});
    AdTrackRunFacts(cues, DefaultSupportedAdCue, DefaultCueId, hasCancelAds, {});
    if r.processed < |cues| {
      var k := r.processed;
      var x := cues[k].id.value;
      if x !in ObjectMembers {
        MarkAllGrows({}, cues[..k], DefaultCueId);
        var i :| 0 <= i < |cues[..k]| && DefaultCueId(cues[..k][i]) == Some(x) && x != "";
        assert cues[..k][i] == cues[i];
      }
    }
  }

  /**
   * A cue whose id is an inherited member's name, `"constructor"` say, counts
   * as seen the first time: the walk stops there and records nothing.
   */
  lemma InheritedIdStops<D>(cue: Cue, rest: seq<Cue>, supported: Cue -> Option<D>, cueId: Cue -> Option<string>,
                            hasCancelAds: bool, seen: set<string>)
    requires cueId(cue).Some? && cueId(cue).value in ObjectMembers
    ensures var r := AdTrackRun([cue] + rest, supported, cueId, hasCancelAds, seen);
      r.processed == 0 && r.calls == [] && r.seen == seen
  {
    assert ([cue] + rest)[0] == cue;
  }

  /**
   * The loop body's outcome on one cue, with the ids recorded before and after:
   * stop at an unsupported or seen cue, else the cue's calls and its id recorded.
   */
  ghost predicate Considered<D>(cue: Cue, supported: Cue -> Option<D>, cueId: Cue -> Option<string>, hasCancelAds: bool,
                          seen: set<string>, seen': set<string>, stop: bool, out: seq<CueCall<D>>)
  {
    match supported(cue)
    case None => stop && out == [] && seen' == seen
    case Some(data) =>
      if AlreadySeen(seen, cueId(cue)) then stop && out == [] && seen' == seen
      else !stop && out == CallsFor(data, cueId(cue), cue.startTime, hasCancelAds) && seen' == MarkSeen(seen, cueId(cue))
  }

  /** Considering cue `i` is the first step of the run from `i`. */
  lemma AdTrackStep<D>(cues: seq<Cue>, i: nat, supported: Cue -> Option<D>, cueId: Cue -> Option<string>,
                       hasCancelAds: bool, seen: set<string>, seen': set<string>, stop: bool, out: seq<CueCall<D>>)
    requires i < |cues| && Considered(cues[i], supported, cueId, hasCancelAds, seen, seen', stop, out)
    ensures var r := AdTrackRun(cues[i..], supported, cueId, hasCancelAds, seen);
      && (stop ==> r.calls == [] && r.seen == seen)
      && (!stop ==> var rest := AdTrackRun(cues[i + 1..], supported, cueId, hasCancelAds, seen');
                    r.calls == out + rest.calls && r.seen == rest.seen)
  {
    assert cues[i..][0] == cues[i] && cues[i..][1..] == cues[i + 1..];
  }

  /** One pass of the loop body: stop at an unsupported or seen cue, else process it, record its id and cancel if asked. */
  method ConsiderCue<D>(p: Player, cue: Cue, getSupportedAdCue: Cue -> Option<D>,
                        getCueId: Cue -> Option<string>, hasCancelAds: bool)
    returns (stop: bool, out: seq<CueCall<D>>)
    modifies p`includedCues
    ensures Considered(cue, getSupportedAdCue, getCueId, hasCancelAds, old(p.includedCues), p.includedCues, stop, out)
  {
    var cueData := getSupportedAdCue(cue);
    if cueData.None? {
      return true, [];
    }
    var cueId := getCueId(cue);
    if cueId.Some? && (cueId.value in p.includedCues || cueId.value in ObjectMembers) {
      return true, [];
    }
    out := [ProcessCue(cueData.value, cueId, cue.startTime)];
    if cueId.Some? && cueId.value != "" {
      p.includedCues := p.includedCues + {cueId.value};
    }
    if hasCancelAds {
      out := out + [CancelAds(cueData.value)];
    }
    stop := false;
  }

  /**
   * `processAdTrack(player, cues, processCue, cancelAds)`: `includedCues` starts
   * empty; the loop returns at the first unsupported or already-seen cue.
   */
  method ProcessAdTrack<D>(p: Player, cues: seq<Cue>, getSupportedAdCue: Cue -> Option<D>,
                           getCueId: Cue -> Option<string>, hasCancelAds: bool)
    returns (calls: seq<CueCall<D>>)
    modifies p`includedCues
    ensures var r := AdTrackRun(cues, getSupportedAdCue, getCueId, hasCancelAds, {});
      calls == r.calls && p.includedCues == r.seen
  {
    ghost var goal := AdTrackRun(cues, getSupportedAdCue, getCueId, hasCancelAds, {});
    p.includedCues := {};
    calls := [];
    var i := 0;
    assert cues[0..] == cues;
    while i < |cues|
      invariant 0 <= i <= |cues|
      invariant calls + AdTrackRun(cues[i..], getSupportedAdCue, getCueId, hasCancelAds, p.includedCues).calls == goal.calls
      invariant AdTrackRun(cues[i..], getSupportedAdCue, getCueId, hasCancelAds, p.includedCues).seen == goal.seen
    {
      ghost var seen := p.includedCues;
      var stop, out := ConsiderCue(p, cues[i], getSupportedAdCue, getCueId, hasCancelAds);
      AdTrackStep(cues, i, getSupportedAdCue, getCueId, hasCancelAds, seen, p.includedCues, stop, out);
      if stop {
        assert calls + [] == calls;
        return;
      }
      calls := calls + out;
      i := i + 1;
    }
    assert cues[i..] == [];
  }

  /** The text tracks, among `ids`, of kind `metadata`, in order. */
  function MetadataOnly(tracks: seq<TextTrack>, ids: seq<nat>): (r: seq<nat>)
    requires IdsIn(ids, |tracks|)
    ensures forall t :: t in r ==> t in ids && tracks[t].kind == Metadata
    ensures forall k :: 0 <= k < |ids| && tracks[ids[k]].kind == Metadata ==> ids[k] in r
    decreases |ids|
  {
    if ids == [] then []
    else
      var rest := MetadataOnly(tracks, ids[1..]);
      assert forall k :: 0 < k < |ids| ==> ids[k] == ids[1..][k - 1];
      if tracks[ids[0]].kind == Metadata then [ids[0]] + rest else rest
  }

  /** The `addtrack` listener's filter: only a `metadata` track is handed on. */
  predicate HandsOnAddedTrack(track: TextTrack)
  {
    track.kind == Metadata
  }

  /**
   * `processMetadataTracks(player, processMetadataTrack)`: the tracks handed to
   * `processMetadataTrack`, in order, and whether an `addtrack` listener was
   * registered instead (exactly when there are no text tracks yet).
   */
  method ProcessMetadataTracks(p: Player) returns (handed: seq<nat>, listening: bool)
    requires p.Wf()
    ensures listening <==> |p.media.textTracks| == 0
    ensures listening ==> handed == []
    ensures handed == MetadataOnly(p.media.tracks, p.media.textTracks)
  {
    var tracks := p.media.textTracks;
    handed := [];
    if |tracks| > 0 {
      var i := 0;
      while i < |tracks|
        invariant 0 <= i <= |tracks|
        invariant handed + MetadataOnly(p.media.tracks, tracks[i..]) == MetadataOnly(p.media.tracks, tracks)
      {
        assert tracks[i..][0] == tracks[i] && tracks[i..][1..] == tracks[i + 1..];
        if p.media.tracks[tracks[i]].kind == Metadata {
          handed := handed + [tracks[i]];
        }
        i := i + 1;
      }
      assert tracks[i..] == [];
      assert handed + [] == handed;
      listening := false;
    } else {
      listening := true;
    }
  }
}
