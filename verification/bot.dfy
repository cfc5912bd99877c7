/**
 * The bot's listener: the registry that lazily gives each guild its music manager, the single
 * listening channel set by `!join` and cleared by `/leave`, and the checks that decide whether a
 * chat message is sent for speech synthesis. Synthesis itself, loading the clip and the voice
 * connection are outside the model; the load-result callbacks are modelled as queueing.
 */
module Bot {
  import opened Wrappers
  import opened Lavaplayer
  import Schedule
  import opened Playback

  type GuildId = int

  /** What the listener reads from a received chat message. */
  datatype Message = Message(
    guildId: GuildId,
    channelId: string,
    authorIsBot: bool,
    content: string,
    memberInVoice: bool)  // the author is a guild member currently in a voice channel

  /** How a slash command ended: normally, or by the exception for a user outside any voice channel. */
  datatype CommandResult = Done | NotInVoiceChannel

  /**
   * `computeIfAbsent(key) { value }`: the map with `key` bound, and the manager bound to it. An
   * existing binding is returned and kept; otherwise `value` is bound. No other key changes.
   */
  function ComputeIfAbsent<K, V>(m: map<K, V>, key: K, value: V): (r: (map<K, V>, V))
    ensures key in r.0 && r.0[key] == r.1
    ensures key in m ==> r.0 == m && r.1 == m[key]
    ensures key !in m ==> r.1 == value && r.0.Keys == m.Keys + {key}
    ensures forall k :: k in m && k != key ==> k in r.0 && r.0[k] == m[k]
  {
    if key in m then (m, m[key]) else (m[key := value], value)
  }

  /** Asking again for a key already asked for gives the same value and leaves the map alone. */
  lemma ComputeIfAbsentIsStable<K, V>(m: map<K, V>, key: K, first: V, second: V)
    ensures ComputeIfAbsent(ComputeIfAbsent(m, key, first).0, key, second) == ComputeIfAbsent(m, key, first)
  {
  }

  /** `after` is `before` once `guild` has been looked up through `ComputeIfAbsent`. */
  predicate Registers(before: map<GuildId, GuildMusicManager>, after: map<GuildId, GuildMusicManager>, guild: GuildId)
  {
    guild in after && after == ComputeIfAbsent(before, guild, after[guild]).0
  }

  /** `startsWith("!join")`: the message opens with the five characters of the command. */
  predicate IsJoinCommand(content: string)
    ensures IsJoinCommand(content) <==> |content| >= 5 && content[..5] == "!join"
  {
    "!join" <= content
  }

  /**
   * The listening channel after a message is seen: a `!join` message from a person makes its own
   * channel the listening channel; every other message leaves it as it was.
   */
  function JoinedAfter(joined: string, m: Message): (j: string)
    ensures m.authorIsBot || !IsJoinCommand(m.content) ==> j == joined
    ensures !m.authorIsBot && IsJoinCommand(m.content) ==> j == m.channelId
  {
    if !m.authorIsBot && IsJoinCommand(m.content) then m.channelId else joined
  }

  /**
   * Whether `m` goes to synthesis, `joined` being the listening channel once `m` has been seen:
   * never for a bot, never without a listening channel, never from another channel, never for an
   * author outside voice.
   */
  predicate Speaks(joined: string, m: Message)
    ensures Speaks(joined, m) ==> !m.authorIsBot && m.memberInVoice
    ensures Speaks(joined, m) ==> joined != "" && m.channelId == joined
    ensures !m.authorIsBot && m.memberInVoice && joined != "" && m.channelId == joined ==> Speaks(joined, m)
  {
    !m.authorIsBot && joined != "" && joined == m.channelId && m.memberInVoice
  }

  /**
   * The gate in full: a message is spoken exactly when a person in a voice channel wrote it in
   * the listening channel, or wrote `!join` (which makes its own channel the listening one).
   */
  lemma GateIsExact(joined: string, m: Message)
    ensures Speaks(JoinedAfter(joined, m), m) <==>
              !m.authorIsBot && m.memberInVoice && m.channelId != ""
              && (joined == m.channelId || IsJoinCommand(m.content))
  {
  }

  /** With no listening channel, as after `/leave`, only a `!join` message can be spoken. */
  lemma SilentAfterLeave(m: Message)
    ensures Speaks(JoinedAfter("", m), m) ==> IsJoinCommand(m.content) && !m.authorIsBot
  {
  }

  /** `trackLoaded`: the loaded clip is queued on the guild's scheduler. */
  method TrackLoaded(manager: GuildMusicManager, track: Track)
    requires manager.Valid()
    modifies manager.player, manager.scheduler
    ensures manager.scheduler.State() == Schedule.Queue(old(manager.scheduler.State()), track)
    ensures manager.player.output == old(manager.player.output)
  {
    manager.scheduler.Queue(track);
  }

  /** `playlistLoaded`: every track of the playlist is queued, in playlist order. */
  method PlaylistLoaded(manager: GuildMusicManager, tracks: seq<Track>)
    requires manager.Valid()
    modifies manager.player, manager.scheduler
    ensures manager.scheduler.State() == Schedule.QueueAll(old(manager.scheduler.State()), tracks)
    ensures manager.player.output == old(manager.player.output)
  {
    ghost var start := manager.scheduler.State();
    var i := 0;
    while i < |tracks|
      invariant 0 <= i <= |tracks|
      invariant manager.scheduler.State() == Schedule.QueueAll(start, tracks[..i])
      invariant manager.player.output == old(manager.player.output)
    {
      manager.scheduler.Queue(tracks[i]);
      Schedule.QueueAllOneMore(start, tracks, i);
      i := i + 1;
    }
    assert tracks[..|tracks|] == tracks;
  }

  class MyListener {
    var musicManagers: map<GuildId, GuildMusicManager>
    /** The one channel whose messages are read aloud, shared by all guilds; "" when none. */
    var joinedChannel: string

    ghost predicate Valid()
      reads this
    {
      forall g :: g in musicManagers ==> musicManagers[g].Valid()
    }

    constructor ()
      ensures Valid() && musicManagers == map[] && joinedChannel == ""
    {
      musicManagers := map[];
      joinedChannel := "";
    }

    /** The guild's manager, created idle on the guild's first use and the same one ever after. */
    method GetGuildAudioPlayer(guild: GuildId) returns (manager: GuildMusicManager)
      requires Valid()
      modifies this
      ensures Valid() && manager.Valid()
      ensures (musicManagers, manager) == ComputeIfAbsent(old(musicManagers), guild, manager)
      ensures guild !in old(musicManagers) ==>
                fresh(manager) && fresh(manager.player) && fresh(manager.scheduler)
                && manager.scheduler.State() == Schedule.Idle
      ensures joinedChannel == old(joinedChannel)
    {
      if guild in musicManagers {
        manager := musicManagers[guild];
      } else {
        manager := new GuildMusicManager();
        musicManagers := musicManagers[guild := manager];
      }
    }

    /**
     * `!join`: the guild's manager is looked up (created if needed) and its send handler is
     * installed on the guild's connection. The connection is not modelled; its failure is caught.
     */
    method HandleJoinMessage(m: Message)
      requires Valid()
      modifies this
      ensures Valid() && Registers(old(musicManagers), musicManagers, m.guildId)
      ensures m.guildId !in old(musicManagers) ==> fresh(musicManagers[m.guildId])
      ensures joinedChannel == old(joinedChannel)
    {
      var manager := GetGuildAudioPlayer(m.guildId);
      var _ := manager.GetSendHandler();
    }

    /**
     * A chat message: messages from bots are ignored; `!join` joins and makes this channel the
     * listening channel; the message is then sent for synthesis (the answer) only when it is in
     * the listening channel and its author is in a voice channel, and the guild's manager is
     * looked up for the clip to be queued on.
     */
    method OnMessageReceived(m: Message) returns (synthesize: bool)
      requires Valid()
      modifies this
      ensures Valid()
      ensures joinedChannel == JoinedAfter(old(joinedChannel), m)
      ensures synthesize == Speaks(joinedChannel, m)
      ensures synthesize || (!m.authorIsBot && IsJoinCommand(m.content)) ==>
                Registers(old(musicManagers), musicManagers, m.guildId)
                && (m.guildId !in old(musicManagers) ==> fresh(musicManagers[m.guildId]))
      ensures !(synthesize || (!m.authorIsBot && IsJoinCommand(m.content))) ==>
                musicManagers == old(musicManagers)
    {
      if m.authorIsBot {
        return false;
      }
      if IsJoinCommand(m.content) {
        HandleJoinMessage(m);
        joinedChannel := m.channelId;
      }
      if joinedChannel == "" || joinedChannel != m.channelId || !m.memberInVoice {
        return false;
      }
      ghost var before := musicManagers;
      var manager := GetGuildAudioPlayer(m.guildId);
      synthesize := true;
      if IsJoinCommand(m.content) {
        // The join already registered the guild, so this lookup changes nothing.
        assert musicManagers == before;
      }
    }

    /**
     * `/join`: a user outside any voice channel gets the exception; otherwise the guild's manager
     * is looked up for the connection. The listening channel is left as it was.
     */
    method HandleJoin(guild: Option<GuildId>, memberInVoice: bool) returns (result: CommandResult)
      requires Valid()
      modifies this
      ensures Valid()
      ensures result == (if memberInVoice then Done else NotInVoiceChannel)
      ensures memberInVoice && guild.Some? ==> Registers(old(musicManagers), musicManagers, guild.value)
      ensures !(memberInVoice && guild.Some?) ==> musicManagers == old(musicManagers)
      ensures joinedChannel == old(joinedChannel)
    {
      if !memberInVoice {
        return NotInVoiceChannel;
      }
      if guild.Some? {
        var manager := GetGuildAudioPlayer(guild.value);
        var _ := manager.GetSendHandler();
      }
      result := Done;
    }

    /**
     * `/leave`: a user outside any voice channel gets the exception and nothing changes; otherwise
     * the listening channel is cleared. The guild's scheduler and its queue are left untouched.
     */
    method HandleLeave(memberInVoice: bool) returns (result: CommandResult)
      modifies this
      ensures result == (if memberInVoice then Done else NotInVoiceChannel)
      ensures joinedChannel == (if memberInVoice then "" else old(joinedChannel))
      ensures musicManagers == old(musicManagers)
    {
      if !memberInVoice {
        return NotInVoiceChannel;
      }
      joinedChannel := "";
      result := Done;
    }

    /** Dispatch of the slash commands `join`, `leave` and `help`; other names are ignored. */
    method OnSlashCommandInteraction(name: string, guild: Option<GuildId>, memberInVoice: bool)
      returns (result: CommandResult)
      requires Valid()
      modifies this
      ensures Valid()
      ensures name == "leave" ==> joinedChannel == (if memberInVoice then "" else old(joinedChannel))
      ensures name != "leave" ==> joinedChannel == old(joinedChannel)
      ensures name != "join" ==> musicManagers == old(musicManagers)
      ensures name == "join" && memberInVoice && guild.Some? ==>
                Registers(old(musicManagers), musicManagers, guild.value)
      ensures name == "join" && !(memberInVoice && guild.Some?) ==> musicManagers == old(musicManagers)
      ensures name == "join" || name == "leave" ==> result == (if memberInVoice then Done else NotInVoiceChannel)
      ensures name != "join" && name != "leave" ==> result == Done
    {
      if name == "join" {
        result := HandleJoin(guild, memberInVoice);
      } else if name == "leave" {
        result := HandleLeave(memberInVoice);
      } else {
        result := Done;
      }
    }
  }
}
