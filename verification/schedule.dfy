/**
 * The guild scheduler's behaviour as values: the player's slot plus the pending queue, and what
 * `queue`, `nextTrack` and `onEvent` of `TrackScheduler` make of them. The classes in module
 * Playback are proved to follow these functions; the lemmas here say what playback order results.
 */
module Schedule {
  import opened Wrappers
  import opened Lavaplayer

  /** The player's active track and the tracks waiting behind it. */
  datatype State = State(active: Option<Track>, pending: seq<Track>)

  const Idle: State := State(None, [])

  /** Every track the guild still has: the active one first, then the pending ones in order. */
  function Lineup(s: State): seq<Track>
  {
    (if s.active.Some? then [s.active.value] else []) + s.pending
  }

  /** Nothing waits while the player is idle: the state in which the queue behaves as a FIFO. */
  predicate Settled(s: State)
  {
    s.active.None? ==> s.pending == []
  }

  /**
   * `queue(track)`: start the track if the player is idle, otherwise append it to the pending
   * queue. The active track is never replaced.
   */
  function Queue(s: State, track: Track): (r: State)
    ensures s.active.None? ==> r.active == Some(track) && r.pending == s.pending
    ensures s.active.Some? ==> r.active == s.active && r.pending == s.pending + [track]
  {
    var start := StartTrackResult(s.active, Some(track), true);
    if start.1 then State(start.0, s.pending) else State(start.0, s.pending + [track])
  }

  /** Exactly `track` joins the guild's tracks: none is lost and no other is added. */
  lemma QueueAddsExactlyOne(s: State, track: Track)
    ensures multiset(Lineup(Queue(s, track))) == multiset(Lineup(s)) + multiset{track}
  {
    var r := Queue(s, track);
    if s.active.None? {
      assert Lineup(r) == [track] + s.pending;
    } else {
      assert Lineup(r) == [s.active.value] + (s.pending + [track]);
    }
  }

  /** A track not yet in the guild is there exactly once after `queue`. */
  lemma QueuedOnce(s: State, track: Track)
    requires track !in Lineup(s)
    ensures multiset(Lineup(Queue(s, track)))[track] == 1
  {
    QueueAddsExactlyOne(s, track);
  }

  /** On a settled queue, `queue` appends the track behind every track the guild already has. */
  lemma QueueAppends(s: State, track: Track)
    requires Settled(s)
    ensures Settled(Queue(s, track)) && Lineup(Queue(s, track)) == Lineup(s) + [track]
  {
    var r := Queue(s, track);
    if s.active.Some? {
      assert Lineup(r) == [s.active.value] + (s.pending + [track]);
    }
  }

  /**
   * `nextTrack()`: poll the head of the pending queue and start it without regard for the slot;
   * an empty queue polls null, which leaves the player idle.
   */
  function NextTrack(s: State): (r: State)
    ensures s.pending == [] ==> r == Idle
    ensures s.pending != [] ==> r.active == Some(s.pending[0]) && r.pending == s.pending[1..]
    ensures Settled(r)
    ensures s.active.None? ==> Lineup(r) == Lineup(s)
  {
    var head := if s.pending == [] then None else Some(s.pending[0]);
    var rest := if s.pending == [] then [] else s.pending[1..];
    var start := StartTrackResult(s.active, head, false);
    assert s.pending != [] ==> [s.pending[0]] + rest == s.pending;
    State(start.0, rest)
  }

  /** `onTrackEnd`: advance only when the end reason allows the next track to start. */
  function OnTrackEnd(s: State, track: Track, endReason: EndReason): (r: State)
    ensures endReason.mayStartNext ==> r == NextTrack(s)
    ensures !endReason.mayStartNext ==> r == s
  {
    if endReason.mayStartNext then NextTrack(s) else s
  }

  /**
   * `onEvent`: only a track-end event whose reason allows it changes anything, and then by one
   * `nextTrack`. No event clears the pending queue: at most its head is taken.
   */
  function OnEvent(s: State, event: AudioEvent): (r: State)
    ensures r != s ==> event.TrackEnd? && event.endReason.mayStartNext
    ensures event.TrackEnd? && event.endReason.mayStartNext ==> r == NextTrack(s)
    ensures r.pending == s.pending || (s.pending != [] && r.pending == s.pending[1..])
  {
    match event
    case TrackEnd(track, endReason) => OnTrackEnd(s, track, endReason)
    case _ => s
  }

  /** `forEach { queue(it) }`: the tracks of a loaded playlist queued one after another. */
  function QueueAll(s: State, tracks: seq<Track>): (r: State)
    ensures tracks == [] ==> r == s
    ensures r.active.None? ==> s.active.None? && tracks == []
    decreases |tracks|
  {
    if tracks == [] then s
    else Queue(QueueAll(s, tracks[..|tracks| - 1]), tracks[|tracks| - 1])
  }

  /** Queueing a playlist adds exactly its tracks to the guild, whatever the state. */
  lemma {:induction false} QueueAllConserves(s: State, tracks: seq<Track>)
    ensures multiset(Lineup(QueueAll(s, tracks))) == multiset(Lineup(s)) + multiset(tracks)
    decreases |tracks|
  {
    if tracks != [] {
      var init, last := tracks[..|tracks| - 1], tracks[|tracks| - 1];
      assert tracks == init + [last];
      QueueAllConserves(s, init);
      QueueAddsExactlyOne(QueueAll(s, init), last);
    }
  }

  /** On a settled queue, a playlist's tracks line up behind the guild's tracks, in playlist order. */
  lemma {:induction false} QueueAllAppends(s: State, tracks: seq<Track>)
    requires Settled(s)
    ensures Settled(QueueAll(s, tracks)) && Lineup(QueueAll(s, tracks)) == Lineup(s) + tracks
    decreases |tracks|
  {
    if tracks != [] {
      var init, last := tracks[..|tracks| - 1], tracks[|tracks| - 1];
      assert tracks == init + [last];
      QueueAllAppends(s, init);
      QueueAppends(QueueAll(s, init), last);
      assert (Lineup(s) + init) + [last] == Lineup(s) + tracks;
    }
  }

  /** Queueing the first `i + 1` tracks is queueing the first `i`, then track `i`. */
  lemma QueueAllOneMore(s: State, tracks: seq<Track>, i: nat)
    requires i < |tracks|
    ensures QueueAll(s, tracks[..i + 1]) == Queue(QueueAll(s, tracks[..i]), tracks[i])
  {
    assert tracks[..i + 1][..i] == tracks[..i];
  }

  /**
   * What happens to a guild over time: a synthesized clip is queued, or the player ends its
   * active track and delivers the track-end event to the scheduler, its listener.
   */
  datatype Op = Enqueue(track: Track) | Finish(reason: EndReason)

  /** The tracks an operation hands to the scheduler. */
  function Arrivals(op: Op): seq<Track>
  {
    if op.Enqueue? then [op.track] else []
  }

  /** A track starts when it takes the slot of an idle player. */
  function Began(before: State, after: State): seq<Track>
  {
    if before.active.None? && after.active.Some? then [after.active.value] else []
  }

  /** One operation: the new state and the track it started, if any. */
  function Step(s: State, op: Op): (r: (State, seq<Track>))
    ensures |r.1| <= 1
    ensures r.1 != [] ==> s.active.None? || op.Finish?
    ensures r.1 != [] ==> r.0.active == Some(r.1[0])
    ensures r.1 == [] ==> r.0.active == s.active || r.0.active.None?
  {
    match op
    case Enqueue(track) =>
      var after := Queue(s, track);
      (after, Began(s, after))
    case Finish(reason) =>
      var ended := State(EndTrackResult(s.active, reason).0, s.pending);
      var event := EndTrackResult(s.active, reason).1;
      var after := if event.Some? then OnEvent(ended, event.value) else ended;
      (after, Began(ended, after))
  }

  /**
   * The tracks a step starts and the tracks it leaves pending account for exactly the old pending
   * tracks and the new arrival, whatever the end reason.
   */
  lemma StepConserves(s: State, op: Op)
    ensures multiset(Step(s, op).1) + multiset(Step(s, op).0.pending)
            == multiset(s.pending) + multiset(Arrivals(op))
  {
    var r := Step(s, op);
    match op
    case Enqueue(track) =>
      if s.active.None? {
        assert r == (State(Some(track), s.pending), [track]);
      } else {
        assert r == (State(s.active, s.pending + [track]), []);
      }
    case Finish(reason) =>
      var ended := State(None, s.pending);
      if s.active.Some? && reason.mayStartNext && s.pending != [] {
        assert r == (NextTrack(ended), [s.pending[0]]);
        assert s.pending == [s.pending[0]] + s.pending[1..];
      } else {
        assert r.1 == [] && r.0.pending == s.pending;
      }
  }

  /**
   * From a settled state, a step whose track end may start the next track starts the queued
   * tracks in arrival order and stays settled.
   */
  lemma StepKeepsOrder(s: State, op: Op)
    requires Settled(s)
    requires op.Finish? ==> op.reason.mayStartNext
    ensures Settled(Step(s, op).0)
    ensures Step(s, op).1 + Step(s, op).0.pending == s.pending + Arrivals(op)
  {
    var r := Step(s, op);
    match op
    case Enqueue(track) =>
      if s.active.None? {
        assert r == (State(Some(track), []), [track]);
      } else {
        assert r == (State(s.active, s.pending + [track]), []);
      }
    case Finish(reason) =>
      if s.active.Some? {
        assert r.0 == NextTrack(State(None, s.pending));
        if s.pending != [] {
          assert r.1 == [s.pending[0]];
          assert s.pending == [s.pending[0]] + s.pending[1..];
        }
      }
  }

  /** A track end that may not start the next track leaves the player idle and the queue as it was. */
  lemma StepStalls(s: State, reason: EndReason)
    requires !reason.mayStartNext
    ensures Step(s, Finish(reason)) == (State(None, s.pending), [])
  {
  }

  /** The state after `ops` and the tracks they started, in the order they started. */
  function Run(s: State, ops: seq<Op>): (r: (State, seq<Track>))
    decreases |ops|
  {
    if ops == [] then (s, [])
    else
      var prev := Run(s, ops[..|ops| - 1]);
      var step := Step(prev.0, ops[|ops| - 1]);
      (step.0, prev.1 + step.1)
  }

  /** The tracks handed to `queue` by `ops`, in call order. */
  function Enqueued(ops: seq<Op>): seq<Track>
    decreases |ops|
  {
    if ops == [] then [] else Enqueued(ops[..|ops| - 1]) + Arrivals(ops[|ops| - 1])
  }

  /** Every track end in `ops` has a reason that allows the next track to start. */
  predicate AllMayStartNext(ops: seq<Op>)
  {
    forall i :: 0 <= i < |ops| && ops[i].Finish? ==> ops[i].reason.mayStartNext
  }

  /**
   * Conservation, for any end reasons: every track ever queued has either started or is still
   * pending, once each, and no other track appears.
   */
  lemma {:induction false} Conservation(s: State, ops: seq<Op>)
    ensures multiset(Run(s, ops).1) + multiset(Run(s, ops).0.pending)
            == multiset(s.pending) + multiset(Enqueued(ops))
    decreases |ops|
  {
    if ops != [] {
      var init := ops[..|ops| - 1];
      var op := ops[|ops| - 1];
      var prev := Run(s, init);
      var step := Step(prev.0, op);
      Conservation(s, init);
      StepConserves(prev.0, op);
      calc {
        multiset(Run(s, ops).1) + multiset(Run(s, ops).0.pending);
        multiset(prev.1 + step.1) + multiset(step.0.pending);
        multiset(prev.1) + (multiset(step.1) + multiset(step.0.pending));
        (multiset(prev.1) + multiset(prev.0.pending)) + multiset(Arrivals(op));
        multiset(s.pending) + multiset(Enqueued(init)) + multiset(Arrivals(op));
        multiset(s.pending) + multiset(Enqueued(ops));
      }
    }
  }

  /**
   * FIFO playback: from a settled state, while every track end may start the next one, the tracks
   * start exactly in the order they were queued, and those not yet started wait in that order.
   */
  lemma {:induction false} FifoOrder(s: State, ops: seq<Op>)
    requires Settled(s)
    requires AllMayStartNext(ops)
    ensures Settled(Run(s, ops).0)
    ensures Run(s, ops).1 + Run(s, ops).0.pending == s.pending + Enqueued(ops)
    decreases |ops|
  {
    if ops != [] {
      var init := ops[..|ops| - 1];
      var op := ops[|ops| - 1];
      assert AllMayStartNext(init) by {
        forall i | 0 <= i < |init| && init[i].Finish? ensures init[i].reason.mayStartNext {
          assert init[i] == ops[i];
        }
      }
      var prev := Run(s, init);
      var step := Step(prev.0, op);
      FifoOrder(s, init);
      StepKeepsOrder(prev.0, op);
      assert Run(s, ops) == (step.0, prev.1 + step.1);
      assert Enqueued(ops) == Enqueued(init) + Arrivals(op);
      Splice(prev.1, step.1, step.0.pending, prev.0.pending, Arrivals(op), s.pending, Enqueued(init));
    }
  }

  /** Regrouping of the tracks started and pending across one more step. */
  lemma Splice(p: seq<Track>, t: seq<Track>, q: seq<Track>, m: seq<Track>, a: seq<Track>,
               x: seq<Track>, y: seq<Track>)
    requires t + q == m + a
    requires p + m == x + y
    ensures (p + t) + q == x + (y + a)
  {
    calc {
      (p + t) + q;
      p + (t + q);
      p + (m + a);
      (p + m) + a;
      (x + y) + a;
      x + (y + a);
    }
  }

  /**
   * From an idle guild, while every track end may start the next track, the tracks started so far
   * are the first ones queued, in queue order, and the track playing is the last of them. Without
   * that condition the order can break (see `StalledQueueIsOvertaken`).
   */
  lemma PlaybackFollowsQueueOrder(ops: seq<Op>)
    requires AllMayStartNext(ops)
    ensures Run(Idle, ops).1 <= Enqueued(ops)
    ensures Run(Idle, ops).0.active.Some? ==>
              Run(Idle, ops).1 != [] && Run(Idle, ops).0.active == Some(Run(Idle, ops).1[|Run(Idle, ops).1| - 1])
  {
    FifoOrder(Idle, ops);
    RunActiveWasStarted(ops);
    var r := Run(Idle, ops);
    assert Enqueued(ops)[..|r.1|] == (r.1 + r.0.pending)[..|r.1|] == r.1;
  }

  /** From an idle guild, the active track is always the last track started. */
  lemma {:induction false} RunActiveWasStarted(ops: seq<Op>)
    ensures Run(Idle, ops).0.active.Some? ==>
              Run(Idle, ops).1 != [] && Run(Idle, ops).0.active == Some(Run(Idle, ops).1[|Run(Idle, ops).1| - 1])
    decreases |ops|
  {
    if ops != [] {
      var init := ops[..|ops| - 1];
      RunActiveWasStarted(init);
      var mid := Run(Idle, init).0;
      var started := Run(Idle, init).1;
      var op := ops[|ops| - 1];
      var step := Step(mid, op);
      assert Run(Idle, ops) == (step.0, started + step.1);
      if step.1 == [] && step.0.active.Some? {
        // Neither operation changes a busy slot without starting a track.
        assert op.Enqueue? ==> step.0.active == mid.active;
        assert op.Finish? ==> step.0.active.None? || step.1 != [];
      }
    }
  }

  /** Two tracks queued on an idle guild: the first plays, the second waits. */
  lemma QueueTwo(a: Track, b: Track)
    ensures Run(Idle, [Enqueue(a), Enqueue(b)]) == (State(Some(a), [b]), [a])
  {
    var noOps: seq<Op>, noTracks: seq<Track> := [], [];
    RunAfter(Idle, noOps, Enqueue(a), Idle, noTracks);
    assert Step(Idle, Enqueue(a)) == (State(Some(a), []), [a]);
    assert noOps + [Enqueue(a)] == [Enqueue(a)] && noTracks + [a] == [a];
    RunAfter(Idle, [Enqueue(a)], Enqueue(b), State(Some(a), []), [a]);
    assert Queue(State(Some(a), []), b) == State(Some(a), [b]);
    assert [Enqueue(a)] + [Enqueue(b)] == [Enqueue(a), Enqueue(b)];
    assert [a] + [] == [a];
  }

  /**
   * The queue can stall: a track ending for a reason that does not allow the next track leaves
   * the player idle while tracks are still pending.
   */
  lemma QueueStalls(a: Track, b: Track, reason: EndReason)
    requires !reason.mayStartNext
    ensures Run(Idle, [Enqueue(a), Enqueue(b), Finish(reason)]) == (State(None, [b]), [a])
  {
    QueueTwo(a, b);
    RunAfter(Idle, [Enqueue(a), Enqueue(b)], Finish(reason), State(Some(a), [b]), [a]);
    StepStalls(State(Some(a), [b]), reason);
    assert [Enqueue(a), Enqueue(b)] + [Finish(reason)] == [Enqueue(a), Enqueue(b), Finish(reason)];
    assert [a] + [] == [a];
  }

  /** A track queued onto a stalled queue starts at once, ahead of the tracks already waiting. */
  lemma StalledQueueIsOvertaken(a: Track, b: Track, c: Track, reason: EndReason)
    requires !reason.mayStartNext
    ensures Run(Idle, [Enqueue(a), Enqueue(b), Finish(reason), Enqueue(c)]) == (State(Some(c), [b]), [a, c])
  {
    var ops := [Enqueue(a), Enqueue(b), Finish(reason)];
    QueueStalls(a, b, reason);
    RunAfter(Idle, ops, Enqueue(c), State(None, [b]), [a]);
    assert ops + [Enqueue(c)] == [Enqueue(a), Enqueue(b), Finish(reason), Enqueue(c)];
    assert Step(State(None, [b]), Enqueue(c)) == (State(Some(c), [b]), [c]);
    assert [a] + [c] == [a, c];
  }

  /**
   * `queue` checks the player and then offers the track, and a track end delivered on the audio
   * thread can fall between the two. The busy player refuses `t`; the active track then finishes
   * with nothing pending, so the player goes idle; and `t` is offered behind the idle player. The
   * queue is left unsettled although the end allowed the next track, and the next track queued
   * starts ahead of `t`.
   */
  lemma InterleavedQueueStalls(a: Track, t: Track, c: Track, reason: EndReason)
    requires reason.mayStartNext
    ensures StartTrackResult(Some(a), Some(t), true) == (Some(a), false)
    ensures Step(State(Some(a), []), Finish(reason)).0 == Idle
    ensures !Settled(State(Idle.active, Idle.pending + [t]))
    ensures Queue(State(Idle.active, Idle.pending + [t]), c) == State(Some(c), [t])
  {
  }

  /** Running one more operation from a known run is one more step. */
  lemma RunAfter(s: State, ops: seq<Op>, op: Op, mid: State, started: seq<Track>)
    requires Run(s, ops) == (mid, started)
    ensures Run(s, ops + [op]) == (Step(mid, op).0, started + Step(mid, op).1)
  {
    assert (ops + [op])[..|ops|] == ops;
  }
}
