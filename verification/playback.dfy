/**
 * The guild's playback objects: the scheduler that owns the pending queue and feeds the player,
 * the manager that wires a player to its scheduler, and the handler that the voice connection polls
 * for a 20 ms frame. The scheduler's methods and `GuildMusicManager.TrackEnds` are proved to
 * follow module Schedule; the send handler's methods are proved against the player's frames.
 */
module Playback {
  import opened Wrappers
  import opened Lavaplayer
  import Schedule

  /** Listens to one player and keeps the tracks waiting for it. */
  class TrackScheduler {
    const player: AudioPlayer
    var queue: seq<Track>

    /** The player's slot and the pending queue, as a value. */
    ghost function State(): Schedule.State
      reads this, player
    {
      Schedule.State(player.active, queue)
    }

    constructor (player: AudioPlayer)
      ensures this.player == player && queue == []
    {
      this.player := player;
      queue := [];
    }

    /** Start `track` now if the player is idle, otherwise offer it to the pending queue. */
    method Queue(track: Track)
      modifies this, player
      ensures State() == Schedule.Queue(old(State()), track)
      ensures player.output == old(player.output)
    {
      var started := player.StartTrack(Some(track), true);
      if !started {
        queue := queue + [track];
      }
    }

    /** Poll the head of the pending queue (null when empty) and start it, interrupting the player. */
    method NextTrack()
      modifies this, player
      ensures State() == Schedule.NextTrack(old(State()))
      ensures player.output == old(player.output)
    {
      var head: Option<Track> := None;
      if queue != [] {
        head := Some(queue[0]);
        queue := queue[1..];
      }
      var _ := player.StartTrack(head, false);
    }

    /** Called by the player for every event; only track ends are acted on. */
    method OnEvent(event: AudioEvent)
      modifies this, player
      ensures State() == Schedule.OnEvent(old(State()), event)
      ensures player.output == old(player.output)
    {
      if event.TrackEnd? {
        OnTrackEnd(event.track, event.endReason);
      }
    }

    /** Advance the queue when the reason the track ended allows the next one to start. */
    method OnTrackEnd(track: Track, endReason: EndReason)
      modifies this, player
      ensures State() == Schedule.OnTrackEnd(old(State()), track, endReason)
      ensures player.output == old(player.output)
    {
      if endReason.mayStartNext {
        NextTrack();
      }
    }
  }

  /** One guild's player and the scheduler registered as its listener. */
  class GuildMusicManager {
    const player: AudioPlayer
    const scheduler: TrackScheduler

    /** The scheduler drives this manager's own player. */
    predicate Valid()
    {
      scheduler.player == player
    }

    constructor ()
      ensures Valid() && fresh(player) && fresh(scheduler)
      ensures scheduler.State() == Schedule.Idle && player.output == []
    {
      var p := new AudioPlayer();
      player := p;
      scheduler := new TrackScheduler(p);
    }

    /**
     * The player's active track ends for `reason`: the player empties its slot and delivers the
     * track-end event to the scheduler it was given as listener.
     */
    method TrackEnds(reason: EndReason)
      requires Valid()
      modifies player, scheduler
      ensures scheduler.State() == Schedule.Step(old(scheduler.State()), Schedule.Finish(reason)).0
      ensures player.output == old(player.output)
    {
      var event := player.EndActive(reason);
      if event.Some? {
        scheduler.OnEvent(event.value);
      }
    }

    /** A new send handler reading from this manager's player, with no frame cached yet. */
    method GetSendHandler() returns (handler: AudioPlayerSendHandler)
      ensures fresh(handler) && handler.audioPlayer == player && handler.lastFrame == None
    {
      handler := new AudioPlayerSendHandler(player);
    }
  }

  /** What the voice connection polls every 20 ms; it caches the frame it last pulled. */
  class AudioPlayerSendHandler {
    const audioPlayer: AudioPlayer
    var lastFrame: Option<Frame>

    constructor (audioPlayer: AudioPlayer)
      ensures this.audioPlayer == audioPlayer && lastFrame == None
    {
      this.audioPlayer := audioPlayer;
      lastFrame := None;
    }

    /** Pull one frame from the player and cache it; true when a frame was there. */
    method CanProvide() returns (ready: bool)
      modifies this, audioPlayer
      ensures old(audioPlayer.output) == [] ==> lastFrame == None && audioPlayer.output == []
      ensures old(audioPlayer.output) != [] ==> [lastFrame] + audioPlayer.output == old(audioPlayer.output)
      ensures ready <==> lastFrame.Some?
      ensures audioPlayer.active == old(audioPlayer.active)
    {
      lastFrame := audioPlayer.Provide();
      ready := lastFrame.Some?;
    }

    /** The cached frame's bytes, or null; the player is not asked again. */
    method Provide20MsAudio() returns (audio: Option<seq<bv8>>)
      ensures audio.Some? <==> lastFrame.Some?
      ensures lastFrame.Some? ==> audio.value == lastFrame.value.data
    {
      if lastFrame.Some? {
        audio := Some(lastFrame.value.data);
      } else {
        audio := None;
      }
    }

    /** The payload is declared to be Opus already, so the connection sends it as it is. */
    method IsOpus() returns (opus: bool)
      ensures opus
    {
      opus := true;
    }

    /**
     * One 20 ms tick of the voice connection: it asks `canProvide()` and, on true, takes
     * `provide20MsAudio()`. The bytes sent are those of the frame the player handed out next.
     */
    method Tick() returns (audio: Option<seq<bv8>>)
      modifies this, audioPlayer
      ensures old(audioPlayer.output) == [] ==> audio == None && audioPlayer.output == [] && lastFrame == None
      ensures old(audioPlayer.output) != [] ==> lastFrame == old(audioPlayer.output)[0]
      ensures audioPlayer.active == old(audioPlayer.active)
      ensures old(audioPlayer.output) != [] ==>
                audioPlayer.output == old(audioPlayer.output)[1..]
                && audio == (if old(audioPlayer.output)[0].Some? then Some(old(audioPlayer.output)[0].value.data) else None)
    {
      var ready := CanProvide();
      audio := None;
      if ready {
        audio := Provide20MsAudio();
      }
    }
  }

  /**
   * Once a track is queued on a new guild, so that the player starts it, a frame supplied to the
   * player is exactly what the voice connection sends on its first poll of the guild's send
   * handler, and the track is still playing afterwards.
   */
  method SuppliedFrameIsSent(track: Track, frame: Frame) returns (audio: Option<seq<bv8>>, playing: Option<Track>)
    ensures audio == Some(frame.data)
    ensures playing == Some(track)
  {
    var manager := new GuildMusicManager();
    var handler := manager.GetSendHandler();
    manager.scheduler.Queue(track);
    manager.player.SupplyFrames([Some(frame)]);
    audio := handler.Tick();
    playing := manager.player.active;
  }
}
