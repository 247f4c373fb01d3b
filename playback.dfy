/** The playback scheduler of LiveSessionManager (services/gemini.ts), as pure
    functions over its two pieces of state: the cursor `nextStartTime` and the
    set `sources` of active buffer-source nodes. The class in live_session.dfy
    keeps its fields equal to these functions' results. */
module Playback {
  import opened Wrappers

  /** Seconds on the output context's clock. `currentTime` and a decoded
      buffer's `duration` are never negative. */
  type Time = r: real | 0.0 <= r

  /** Identity of one AudioBufferSourceNode. */
  type SourceId = nat

  /** What `decodeAudioData` did with an inbound chunk: it threw, or it
      produced a buffer of the given duration. */
  datatype Decode = DecodeFailed | Decoded(duration: Time)

  /** The effect `source.start(at)` on a fresh node holding `duration` seconds. */
  datatype Start = Start(source: SourceId, at: Time, duration: Time)
  {
    function End(): Time { at + duration }
  }

  /** Scheduler state: the cursor, the active sources, and the identity the
      next created source node will get. */
  datatype Player = Player(cursor: Time, sources: set<SourceId>, nextSource: SourceId)
  {
    /** Every active source is one that has been created. */
    ghost predicate Valid() { forall s :: s in sources ==> s < nextSource }
  }

  const Idle := Player(0.0, {}, 0)

  function Max(a: Time, b: Time): Time { if a < b then b else a }

  /** The audio branch of handleMessage: the cursor is first raised to the
      clock; then, if decoding succeeded, a fresh source is started at the
      cursor, the cursor advances by the buffer's duration and the source
      joins the active set. A failed decode keeps only the raise. */
  function Schedule(p: Player, now: Time, d: Decode): (r: (Player, Option<Start>))
    ensures r.1.Some? <==> d.Decoded?
    ensures r.1.Some? ==>
      var s := r.1.value;
      now <= s.at && p.cursor <= s.at && (s.at == now || s.at == p.cursor) &&
      s.duration == d.duration && r.0.cursor == s.End() &&
      s.source == p.nextSource && r.0.nextSource == p.nextSource + 1 &&
      r.0.sources == p.sources + {s.source}
    ensures r.1.None? ==>
      r.0.sources == p.sources && r.0.nextSource == p.nextSource &&
      now <= r.0.cursor && p.cursor <= r.0.cursor &&
      (r.0.cursor == now || r.0.cursor == p.cursor)
    ensures p.Valid() ==> r.0.Valid() && (r.1.Some? ==> r.1.value.source !in p.sources)
  {
    var raised := Max(p.cursor, now);
    match d
    case DecodeFailed => (p.(cursor := raised), None)
    case Decoded(duration) =>
      var s := Start(p.nextSource, raised, duration);
      (Player(s.End(), p.sources + {s.source}, p.nextSource + 1), Some(s))
  }

  /** The server's interruption signal: every active source is stopped (the
      second component), the set is cleared and the cursor goes back to zero. */
  function Interrupt(p: Player): (r: (Player, set<SourceId>))
    ensures r.0.sources == {} && r.0.cursor == 0.0 && r.0.nextSource == p.nextSource
    ensures r.1 == p.sources
    ensures r.0.Valid()
  {
    (p.(cursor := 0.0, sources := {}), p.sources)
  }

  /** A source's `ended` listener: it deletes that source and nothing else. */
  function Ended(p: Player, id: SourceId): (r: Player)
    ensures r.sources == p.sources - {id}
    ensures r.cursor == p.cursor && r.nextSource == p.nextSource
    ensures p.Valid() ==> r.Valid()
  {
    p.(sources := p.sources - {id})
  }

  /** What handling one server message did to playback. */
  datatype Outcome = Outcome(player: Player, started: Option<Start>, stopped: set<SourceId>)

  function StartedSources(st: Option<Start>): set<SourceId>
  {
    if st.Some? then {st.value.source} else {}
  }

  /** One server message: the audio branch runs when the message carries an
      audio payload and an output context exists (`audio`), and the
      interruption branch runs after it, in the same message. */
  function Receive(p: Player, audio: bool, interrupted: bool, now: Time, d: Decode): (r: Outcome)
    ensures interrupted ==>
      r.player.sources == {} && r.player.cursor == 0.0 &&
      r.stopped == p.sources + StartedSources(r.started)
    ensures !interrupted ==> r.stopped == {} && p.cursor <= r.player.cursor
    ensures !interrupted && r.started.Some? ==>
      r.player.cursor == r.started.value.End() &&
      r.player.sources == p.sources + {r.started.value.source}
    ensures r.started.Some? <==> audio && d.Decoded?
    ensures r.started.Some? ==> now <= r.started.value.at
    ensures r.started.Some? ==> r.started.value == Start(p.nextSource, Max(p.cursor, now), d.duration)
    ensures !interrupted ==> r.player == (if audio then Schedule(p, now, d).0 else p)
    ensures r.started.Some? && p.Valid() ==> r.started.value.source !in p.sources
    ensures !audio && !interrupted ==> r.player == p
    ensures audio && d.DecodeFailed? && !interrupted ==>
      r.player.sources == p.sources && r.player.cursor == Max(p.cursor, now)
    ensures p.Valid() ==> r.player.Valid()
  {
    var (p1, st) := if audio then Schedule(p, now, d) else (p, None);
    if interrupted then
      var (p2, stopped) := Interrupt(p1);
      Outcome(p2, st, stopped)
    else
      Outcome(p1, st, {})
  }

  // ---------------------------------------------------------------------
  // Traces between two interruptions

  /** Events that can reach the scheduler while no interruption arrives: a
      chunk that reaches the audio branch, or a source's `ended` event. */
  datatype Event = Chunk(now: Time, decode: Decode) | SourceEnded(source: SourceId)

  function StartsOf(st: Option<Start>): seq<Start>
  {
    if st.Some? then [st.value] else []
  }

  /** Applies the events in arrival order; returns the final state and every
      `start` effect, in order. */
  function Run(p: Player, evs: seq<Event>): (Player, seq<Start>)
    decreases |evs|
  {
    if evs == [] then (p, [])
    else
      match evs[0]
      case Chunk(now, d) =>
        var (p1, st) := Schedule(p, now, d);
        var (q, sts) := Run(p1, evs[1..]);
        (q, StartsOf(st) + sts)
      case SourceEnded(id) => Run(Ended(p, id), evs[1..])
  }

  /** Each start begins no earlier than the previous one ends: no overlap. */
  ghost predicate Sequential(sts: seq<Start>)
  {
    forall i :: 0 <= i < |sts| - 1 ==> sts[i].End() <= sts[i + 1].at
  }

  /** The starts tile the timeline from `c` on, each beginning exactly where
      the previous one ends: no gap and no overlap. */
  ghost predicate Contiguous(c: Time, sts: seq<Start>)
    decreases |sts|
  {
    sts == [] || (sts[0].at == c && Contiguous(sts[0].End(), sts[1..]))
  }

  function TotalDuration(sts: seq<Start>): Time
    decreases |sts|
  {
    if sts == [] then 0.0 else sts[0].duration + TotalDuration(sts[1..])
  }

  function DurationOf(d: Decode): Time
  {
    if d.Decoded? then d.duration else 0.0
  }

  /** Every chunk arrives while the clock still lags the cursor it meets,
      i.e. before the audio already queued has finished playing. */
  ghost predicate ClockLags(c: Time, evs: seq<Event>)
    decreases |evs|
  {
    evs == [] ||
    match evs[0]
    case Chunk(now, d) => now <= c && ClockLags(c + DurationOf(d), evs[1..])
    case SourceEnded(_) => ClockLags(c, evs[1..])
  }

  /** Between interruptions the cursor never moves backwards. */
  lemma {:induction false} RunCursorMonotone(p: Player, evs: seq<Event>)
    ensures p.cursor <= Run(p, evs).0.cursor
    decreases |evs|
  {
    if evs != [] {
      match evs[0]
      case Chunk(now, d) => RunCursorMonotone(Schedule(p, now, d).0, evs[1..]);
      case SourceEnded(id) => RunCursorMonotone(Ended(p, id), evs[1..]);
    }
  }

  /** Between interruptions no two scheduled chunks overlap, all of them lie
      between the initial and the final cursor. */
  lemma {:induction false} RunNoOverlap(p: Player, evs: seq<Event>)
    ensures var (q, sts) := Run(p, evs);
      Sequential(sts) &&
      (forall i :: 0 <= i < |sts| ==> p.cursor <= sts[i].at && sts[i].End() <= q.cursor)
    decreases |evs|
  {
    if evs != [] {
      match evs[0]
      case Chunk(now, d) =>
        var (p1, st) := Schedule(p, now, d);
        RunNoOverlap(p1, evs[1..]);
        RunCursorMonotone(p1, evs[1..]);
        var (q, sts) := Run(p1, evs[1..]);
        assert Run(p, evs).1 == StartsOf(st) + sts;
      case SourceEnded(id) => RunNoOverlap(Ended(p, id), evs[1..]);
    }
  }

  /** Each started chunk gets its own, freshly created source node, in order
      of arrival; none of them was active before. */
  lemma {:induction false} RunFreshSources(p: Player, evs: seq<Event>)
    requires p.Valid()
    ensures var (q, sts) := Run(p, evs);
      q.Valid() && q.nextSource == p.nextSource + |sts| &&
      (forall i :: 0 <= i < |sts| ==> sts[i].source == p.nextSource + i && sts[i].source !in p.sources)
    decreases |evs|
  {
    if evs != [] {
      match evs[0]
      case Chunk(now, d) =>
        var (p1, st) := Schedule(p, now, d);
        RunFreshSources(p1, evs[1..]);
        var (q, sts) := Run(p1, evs[1..]);
        assert Run(p, evs).1 == StartsOf(st) + sts;
      case SourceEnded(id) => RunFreshSources(Ended(p, id), evs[1..]);
    }
  }

  /** While the clock lags the cursor, chunks play back to back: the first
      starts at the old cursor, each next one where the previous ends, and the
      cursor ends up advanced by exactly the total scheduled duration. */
  lemma {:induction false} RunBackToBack(p: Player, evs: seq<Event>)
    requires ClockLags(p.cursor, evs)
    ensures var (q, sts) := Run(p, evs);
      Contiguous(p.cursor, sts) && q.cursor == p.cursor + TotalDuration(sts)
    decreases |evs|
  {
    if evs != [] {
      match evs[0]
      case Chunk(now, d) =>
        var (p1, st) := Schedule(p, now, d);
        assert p1.cursor == p.cursor + DurationOf(d);
        RunBackToBack(p1, evs[1..]);
        var (q, sts) := Run(p1, evs[1..]);
        assert Run(p, evs).1 == StartsOf(st) + sts;
        assert Run(p, evs) == (q, StartsOf(st) + sts);
        if st.Some? {
          var all := StartsOf(st) + sts;
          assert all[0] == st.value && all[1..] == sts;
          assert st.value.at == p.cursor && st.value.End() == p1.cursor;
          assert Contiguous(p.cursor, all);
          assert TotalDuration(all) == st.value.duration + TotalDuration(sts);
        } else {
          assert p1.cursor == p.cursor && StartsOf(st) + sts == sts;
        }
      case SourceEnded(id) => RunBackToBack(Ended(p, id), evs[1..]);
    }
  }

  /** Three half-second chunks arriving at clock 0 on an idle player play
      over [0, 1.5] with no gap and no overlap. */
  lemma ThreeChunksScenario()
    ensures var half := Chunk(0.0, Decoded(0.5));
      Run(Idle, [half, half, half]) ==
        (Player(1.5, {0, 1, 2}, 3), [Start(0, 0.0, 0.5), Start(1, 0.5, 0.5), Start(2, 1.0, 0.5)])
  {
    var half := Chunk(0.0, Decoded(0.5));
    var p1, p2, p3 := Player(0.5, {0}, 1), Player(1.0, {0, 1}, 2), Player(1.5, {0, 1, 2}, 3);
    var s1, s2, s3 := Start(0, 0.0, 0.5), Start(1, 0.5, 0.5), Start(2, 1.0, 0.5);
    var r1 := Schedule(Idle, 0.0, Decoded(0.5));
    assert r1.1 == Some(s1) && r1.0.sources == p1.sources && r1.0 == p1;
    var r2 := Schedule(p1, 0.0, Decoded(0.5));
    assert r2.1 == Some(s2) && r2.0.sources == p2.sources && r2.0 == p2;
    var r3 := Schedule(p2, 0.0, Decoded(0.5));
    assert r3.1 == Some(s3) && r3.0.sources == p3.sources && r3.0 == p3;
    assert [half][1..] == [] && [half, half][1..] == [half] && [half, half, half][1..] == [half, half];
    assert Run(p3, []) == (p3, []);
    assert StartsOf(Some(s3)) + [] == [s3];
    assert Run(p2, [half]) == (p3, [s3]);
    assert StartsOf(Some(s2)) + [s3] == [s2, s3];
    assert Run(p1, [half, half]) == (p3, [s2, s3]);
    assert StartsOf(Some(s1)) + [s2, s3] == [s1, s2, s3];
  }

  /** Raising the cursor before a decode that then fails has no effect on any
      later chunk, as long as the clock does not run backwards: the next
      chunk starts where it would have started anyway. */
  lemma RaiseBeforeFailedDecodeIsHarmless(p: Player, now: Time, later: Time, d: Decode)
    requires now <= later
    ensures Schedule(Schedule(p, now, DecodeFailed).0, later, d) == Schedule(p, later, d)
  {
  }

  /** An `ended` event never shifts the schedule: the next chunk starts at
      the same time and moves the cursor to the same place. */
  lemma EndedDoesNotShiftSchedule(p: Player, id: SourceId, now: Time, d: Decode)
    ensures Schedule(Ended(p, id), now, d).1 == Schedule(p, now, d).1
    ensures Schedule(Ended(p, id), now, d).0.cursor == Schedule(p, now, d).0.cursor
  {
  }
}
