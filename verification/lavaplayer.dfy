/**
 * What the bot assumes of the lavaplayer library, whose code is not part of this model.
 *
 * An `AudioPlayer` is reduced to one slot holding the active track and to the frames it has
 * decoded and not yet handed out. `startTrack(track, noInterrupt)` leaves a busy slot alone when
 * `noInterrupt` is set and otherwise puts `track` (or nothing, for null) in the slot. When the
 * active track ends, the player empties the slot and tells its listeners with a `TrackEndEvent`.
 */
module Lavaplayer {
  import opened Wrappers

  /** An audio track. The bot compares tracks by identity only; `id` stands for that identity. */
  datatype Track = Track(id: nat)

  /** One 20 ms frame of Opus audio, as the player hands it out. */
  datatype Frame = Frame(data: seq<bv8>)

  /** The library's reasons for a track to end. */
  datatype ReasonKind = Finished | LoadFailed | Stopped | Replaced | Cleanup

  /**
   * A reason together with the library's `mayStartNext` flag. The flag is left free: every
   * property in this model holds whichever reasons the library marks as allowing the next track.
   */
  datatype EndReason = EndReason(kind: ReasonKind, mayStartNext: bool)

  /** The events a player sends to its listeners. */
  datatype AudioEvent =
    | TrackStart(track: Track)
    | TrackEnd(track: Track, endReason: EndReason)
    | TrackException(track: Track)
    | TrackStuck(track: Track)
    | PlayerPause
    | PlayerResume

  /**
   * The slot and the answer after `startTrack(track, noInterrupt)` on a player whose slot holds
   * `active`. A busy player asked not to interrupt keeps its track and answers false; otherwise
   * the slot takes `track` and the answer is whether a track was given.
   */
  function StartTrackResult(active: Option<Track>, track: Option<Track>, noInterrupt: bool)
    : (r: (Option<Track>, bool))
    ensures noInterrupt && active.Some? ==> r == (active, false)
    ensures !(noInterrupt && active.Some?) ==> r.0 == track
    ensures r.1 <==> r.0 == track && track.Some? && (active.None? || !noInterrupt)
  {
    if noInterrupt && active.Some? then (active, false) else (track, track.Some?)
  }

  /**
   * The slot after the active track ends for `reason`, and the event the player then sends:
   * an ending empties the slot, and only a track that was playing can end.
   */
  function EndTrackResult(active: Option<Track>, reason: EndReason): (r: (Option<Track>, Option<AudioEvent>))
    ensures r.0 == None
    ensures r.1.Some? <==> active.Some?
    ensures r.1.Some? ==> r.1.value.TrackEnd? && r.1.value.endReason == reason
                          && Some(r.1.value.track) == active
  {
    match active
    case None => (None, None)
    case Some(t) => (None, Some(TrackEnd(t, reason)))
  }

  class AudioPlayer {
    /** The track being played, if any. */
    var active: Option<Track>
    /** The frames decoded and not yet handed out, in order; a `None` is a tick with no frame ready. */
    var output: seq<Option<Frame>>

    constructor ()
      ensures active == None && output == []
    {
      active := None;
      output := [];
    }

    method StartTrack(track: Option<Track>, noInterrupt: bool) returns (started: bool)
      modifies this
      ensures (active, started) == StartTrackResult(old(active), track, noInterrupt)
      ensures output == old(output)
    {
      if noInterrupt && active.Some? {
        started := false;
      } else {
        active := track;
        started := track.Some?;
      }
    }

    /**
     * The decoder adds `frames` behind those still waiting. The bot never calls this: it is how
     * the surroundings supply the frames that `provide()` later hands out.
     */
    method SupplyFrames(frames: seq<Option<Frame>>)
      modifies this
      ensures output == old(output) + frames
      ensures active == old(active)
    {
      output := output + frames;
    }

    /** `provide()`: hands out the next frame, or null when none is ready. */
    method Provide() returns (frame: Option<Frame>)
      modifies this
      ensures old(output) == [] ==> frame == None && output == []
      ensures old(output) != [] ==> [frame] + output == old(output)
      ensures active == old(active)
    {
      if output == [] {
        frame := None;
      } else {
        frame := output[0];
        output := output[1..];
      }
    }

    /** The active track ends for `reason`; the answer is the event the listeners receive. */
    method EndActive(reason: EndReason) returns (event: Option<AudioEvent>)
      modifies this
      ensures (active, event) == EndTrackResult(old(active), reason)
      ensures output == old(output)
    {
      event := if active.Some? then Some(TrackEnd(active.value, reason)) else None;
      active := None;
    }
  }
}
