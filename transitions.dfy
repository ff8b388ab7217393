/** The playback state machine of one room, on values.

    Every command of the room service (internal/service/room/room_service.go)
    does the same three things under the room's lock: look at the playback
    fields, either give up (an error or a silent no-op) or overwrite some of
    them, and broadcast a fresh snapshot when it overwrote them. This module
    states, for each command, which of these happens and what the new fields
    are; the `Room` class in module Rooms performs the same updates in place
    and is proved to agree with these functions. */
module Transitions {
  import opened Dto

  /** The fields of a room that commands read and write. `startedAt` is the
      clock reading at which `basePos` was last valid; it matters only while
      `playing`. */
  datatype Playback = Playback(
    queue: seq<Video>,
    current: Option<Video>,
    playing: bool,
    basePos: real,
    startedAt: Time)

  /** A newly created room: empty queue, nothing loaded, paused at zero. */
  const Fresh: Playback := Playback([], None, false, 0.0, 0.0)

  /** The room invariant: with nothing loaded, nothing plays and the stored
      position is zero. */
  predicate Consistent(p: Playback) {
    p.current.None? ==> !p.playing && p.basePos == 0.0
  }

  /** The playback position a snapshot taken at `now` reports. */
  function Position(p: Playback, now: Time): real {
    if p.playing then p.basePos + (now - p.startedAt) else p.basePos
  }

  /** The item that is loaded, as a multiset of zero or one items. */
  function Loaded(p: Playback): multiset<Video> {
    if p.current.Some? then multiset{p.current.value} else multiset{}
  }

  /** Every item the room holds: the queue and the loaded item. */
  function Items(p: Playback): multiset<Video> {
    multiset(p.queue) + Loaded(p)
  }

  /** What a command does: it changes the fields (and so broadcasts), returns
      without touching anything, or fails with an error. */
  datatype Step = Changed(after: Playback) | Skipped | Failed(error: Error)

  /** The value the service method returns for a step. */
  function OutcomeOf(s: Step): (r: Outcome)
    ensures r.Err? <==> s.Failed?
    ensures s.Failed? ==> r.error == s.error
  {
    if s.Failed? then Err(s.error) else Ok
  }

  /** Play: resume, or load the queue head first when nothing is loaded. */
  function Play(p: Playback, now: Time): (s: Step)
    ensures s.Skipped? <==> p.playing
    ensures s.Failed? <==> !p.playing && p.current.None? && p.queue == []
    ensures s.Failed? ==> s.error == EmptyQueue && Message(s.error) == "queue is empty"
    ensures s.Changed? ==> s.after.playing && s.after.startedAt == now && s.after.current.Some?
    ensures s.Changed? ==> Consistent(s.after) && Items(s.after) == Items(p)
    ensures s.Changed? && p.current.None? ==>
      s.after.current == Some(p.queue[0]) && s.after.queue == p.queue[1..] && Position(s.after, now) == 0.0
    ensures s.Changed? && p.current.Some? ==>
      s.after.current == p.current && s.after.queue == p.queue
    ensures s.Changed? && Consistent(p) ==> Position(s.after, now) == Position(p, now)
  {
    if p.playing then Skipped
    else if p.current.None? then
      if |p.queue| == 0 then Failed(EmptyQueue)
      else
        assert p.queue == [p.queue[0]] + p.queue[1..];
        Changed(p.(basePos := 0.0, current := Some(p.queue[0]), queue := p.queue[1..],
                   startedAt := now, playing := true))
    else Changed(p.(startedAt := now, playing := true))
  }

  /** Pause: freeze the position reached so far. */
  function Pause(p: Playback, now: Time): (s: Step)
    ensures !s.Failed?
    ensures s.Changed? <==> p.playing && p.current.Some?
    ensures s.Changed? ==>
      !s.after.playing && s.after.current == p.current && s.after.queue == p.queue && Consistent(s.after)
    ensures s.Changed? ==> forall t :: Position(s.after, t) == Position(p, now)
    ensures s.Changed? ==> Items(s.after) == Items(p)
  {
    if !p.playing then Skipped
    else if p.current.None? then Skipped
    else Changed(p.(basePos := p.basePos + (now - p.startedAt), startedAt := now, playing := false))
  }

  /** Next: drop the loaded item and start the queue head from zero, or stop
      when the queue is empty. It always broadcasts. */
  function Next(p: Playback, now: Time): (s: Step)
    ensures s.Changed? && Consistent(s.after)
    ensures p.queue == [] ==> s.after.current.None? && !s.after.playing && s.after.queue == []
    ensures p.queue != [] ==>
      s.after.current == Some(p.queue[0]) && s.after.queue == p.queue[1..]
      && s.after.playing && s.after.startedAt == now
    ensures Position(s.after, now) == 0.0
    ensures Items(s.after) + Loaded(p) == Items(p)
  {
    if |p.queue| == 0 then
      Changed(p.(basePos := 0.0, current := None, startedAt := now, playing := false))
    else
      assert p.queue == [p.queue[0]] + p.queue[1..];
      Changed(p.(basePos := 0.0, current := Some(p.queue[0]), queue := p.queue[1..],
                 startedAt := now, playing := true))
  }

  /** Add a video at the tail of the queue. It never fails. */
  function Enqueue(p: Playback, v: Video): (s: Step)
    ensures s.Changed?
    ensures |s.after.queue| == |p.queue| + 1
    ensures s.after.queue[..|p.queue|] == p.queue && s.after.queue[|p.queue|] == v
    ensures s.after.current == p.current && s.after.playing == p.playing
    ensures forall t :: Position(s.after, t) == Position(p, t)
    ensures Items(s.after) == Items(p) + multiset{v}
  {
    Changed(p.(queue := p.queue + [v]))
  }

  /** Remove the queued video at `idx`, shifting the later ones down. */
  function RemoveAt(p: Playback, idx: int): (s: Step)
    ensures !s.Skipped?
    ensures s.Failed? <==> !(0 <= idx < |p.queue|)
    ensures s.Failed? ==> s.error == IndexOutOfRange && Message(s.error) == "index out of range"
    ensures s.Changed? ==>
      |s.after.queue| == |p.queue| - 1
      && (forall i :: 0 <= i < idx ==> s.after.queue[i] == p.queue[i])
      && (forall i :: idx <= i < |s.after.queue| ==> s.after.queue[i] == p.queue[i + 1])
    ensures s.Changed? ==> Items(s.after) + multiset{p.queue[idx]} == Items(p)
    ensures s.Changed? ==>
      s.after.current == p.current && s.after.playing == p.playing
      && forall t :: Position(s.after, t) == Position(p, t)
  {
    if idx < 0 || idx >= |p.queue| then Failed(IndexOutOfRange)
    else
      assert p.queue == p.queue[..idx] + [p.queue[idx]] + p.queue[idx + 1..];
      Changed(p.(queue := p.queue[..idx] + p.queue[idx + 1..]))
  }

  /** The seek target, first raised to zero, then lowered to the duration. */
  function Clamp(pos: real, duration: int): (r: real)
    ensures 0 <= duration ==> 0.0 <= r <= duration as real
    ensures 0.0 <= pos <= duration as real ==> r == pos
    ensures pos > duration as real ==> r == duration as real
    ensures pos < 0.0 && 0 <= duration ==> r == 0.0
  {
    var raised := if pos < 0.0 then 0.0 else pos;
    if raised > duration as real then duration as real else raised
  }

  /** Seek: move the loaded item to the clamped position; a playing item goes
      on playing from there, a paused one stays paused there. */
  function Seek(p: Playback, pos: real, now: Time): (s: Step)
    ensures !s.Skipped?
    ensures s.Failed? <==> p.current.None?
    ensures s.Failed? ==> s.error == NoCurrentTrack && Message(s.error) == "no current track"
    ensures s.Changed? ==>
      s.after.current == p.current && s.after.queue == p.queue && s.after.playing == p.playing
      && Consistent(s.after)
    ensures s.Changed? ==> Position(s.after, now) == Clamp(pos, p.current.value.duration)
    ensures s.Changed? && 0 <= p.current.value.duration ==>
      0.0 <= Position(s.after, now) <= p.current.value.duration as real
    ensures s.Changed? && !p.playing ==>
      s.after.startedAt == p.startedAt && forall t :: Position(s.after, t) == Position(s.after, now)
  {
    if p.current.None? then Failed(NoCurrentTrack)
    else
      var target := Clamp(pos, p.current.value.duration);
      if p.playing then Changed(p.(basePos := target, startedAt := now))
      else Changed(p.(basePos := target))
  }

  /** A position read at a later time is never smaller, and while paused it
      is the same. */
  lemma PositionMonotone(p: Playback, earlier: Time, later: Time)
    requires earlier <= later
    ensures Position(p, earlier) <= Position(p, later)
    ensures !p.playing ==> Position(p, earlier) == Position(p, later)
  {
  }

  /** The commands a room accepts that touch its playback fields. */
  datatype Command =
    | PlayCmd
    | PauseCmd
    | NextCmd
    | EnqueueCmd(video: Video)
    | RemoveCmd(idx: int)
    | SeekCmd(pos: real)

  function Perform(p: Playback, c: Command, now: Time): Step {
    match c
    case PlayCmd => Play(p, now)
    case PauseCmd => Pause(p, now)
    case NextCmd => Next(p, now)
    case EnqueueCmd(v) => Enqueue(p, v)
    case RemoveCmd(idx) => RemoveAt(p, idx)
    case SeekCmd(pos) => Seek(p, pos, now)
  }

  /** The playback fields after `c`, whatever its outcome. */
  function Apply(p: Playback, c: Command, now: Time): Playback {
    match Perform(p, c, now)
    case Changed(after) => after
    case _ => p
  }

  /** A command and the clock reading at which it takes the room's lock. */
  datatype Event = Event(cmd: Command, at: Time)

  /** The playback fields after the events, one after the other. */
  function Run(p: Playback, events: seq<Event>): Playback
    decreases |events|
  {
    if events == [] then p else Run(Apply(p, events[0].cmd, events[0].at), events[1..])
  }

  /** Every command keeps the room invariant. */
  lemma ApplyConsistent(p: Playback, c: Command, now: Time)
    requires Consistent(p)
    ensures Consistent(Apply(p, c, now))
  {
  }

  /** Any sequence of commands keeps the room invariant. */
  lemma {:induction false} RunConsistent(p: Playback, events: seq<Event>)
    requires Consistent(p)
    ensures Consistent(Run(p, events))
    decreases |events|
  {
    if events != [] {
      ApplyConsistent(p, events[0].cmd, events[0].at);
      RunConsistent(Apply(p, events[0].cmd, events[0].at), events[1..]);
    }
  }

  lemma ApplyEnqueue(p: Playback, v: Video, now: Time)
    ensures Apply(p, EnqueueCmd(v), now) == p.(queue := p.queue + [v])
  {
  }

  predicate OnlyEnqueues(events: seq<Event>) {
    forall i :: 0 <= i < |events| ==> events[i].cmd.EnqueueCmd?
  }

  lemma OnlyEnqueuesTail(events: seq<Event>)
    requires events != [] && OnlyEnqueues(events)
    ensures OnlyEnqueues(events[1..])
  {
    forall i | 0 <= i < |events| - 1 ensures events[1..][i].cmd.EnqueueCmd? {
      assert events[1..][i] == events[i + 1];
    }
  }

  /** The videos the enqueue commands among `events` carry, in order. */
  function Enqueued(events: seq<Event>): seq<Video>
    decreases |events|
  {
    if events == [] then []
    else (if events[0].cmd.EnqueueCmd? then [events[0].cmd.video] else []) + Enqueued(events[1..])
  }

  /** However many enqueues run one after another on a room, every video
      lands at the tail in the order the enqueues took the lock, none lost or
      duplicated, and nothing else about the room changes. */
  lemma {:induction false} EnqueuesAppend(p: Playback, events: seq<Event>)
    requires OnlyEnqueues(events)
    ensures Run(p, events) == p.(queue := p.queue + Enqueued(events))
    decreases |events|
  {
    if events != [] {
      var v := events[0].cmd.video;
      var rest := events[1..];
      var q := p.(queue := p.queue + [v]);
      assert events[0].cmd == EnqueueCmd(v);
      ApplyEnqueue(p, v, events[0].at);
      assert Run(p, events) == Run(q, rest);
      OnlyEnqueuesTail(events);
      EnqueuesAppend(q, rest);
      var tail := Enqueued(rest);
      assert Enqueued(events) == [v] + tail;
      AppendAssoc(p.queue, [v], tail);
    } else {
      assert p.queue + Enqueued(events) == p.queue;
    }
  }

  lemma AppendAssoc<T>(a: seq<T>, b: seq<T>, c: seq<T>)
    ensures (a + b) + c == a + (b + c)
  {
  }

  predicate OnlyPlayPause(events: seq<Event>) {
    forall i :: 0 <= i < |events| ==> events[i].cmd == PlayCmd || events[i].cmd == PauseCmd
  }

  /** The events happen in clock order, no earlier than `from` and no later
      than `to`. */
  predicate InOrder(events: seq<Event>, from: Time, to: Time)
    decreases |events|
  {
    if events == [] then from <= to
    else from <= events[0].at && InOrder(events[1..], events[0].at, to)
  }

  /** Play and pause never move the reported position back: across any run
      of them, the position read at the end is at least the one read at the
      start. */
  lemma {:induction false} PositionNeverGoesBack(p: Playback, events: seq<Event>, from: Time, to: Time)
    requires Consistent(p) && OnlyPlayPause(events) && InOrder(events, from, to)
    ensures Position(p, from) <= Position(Run(p, events), to)
    decreases |events|
  {
    if events == [] {
      PositionMonotone(p, from, to);
    } else {
      var e := events[0];
      var q := Apply(p, e.cmd, e.at);
      PositionMonotone(p, from, e.at);
      assert Position(q, e.at) == Position(p, e.at);
      ApplyConsistent(p, e.cmd, e.at);
      assert OnlyPlayPause(events[1..]) by {
        forall i | 0 <= i < |events[1..]|
          ensures events[1..][i].cmd == PlayCmd || events[1..][i].cmd == PauseCmd
        {
          assert events[1..][i] == events[i + 1];
        }
      }
      PositionNeverGoesBack(q, events[1..], e.at, to);
    }
  }

  /** Pausing at `t1` and resuming at `t2` continues from where the pause
      left off: the position at any `t` is the one reached at `t1` plus the
      time played since `t2`. */
  lemma PauseThenPlay(p: Playback, t1: Time, t2: Time, t: Time)
    requires Consistent(p) && p.playing
    ensures Position(Apply(Apply(p, PauseCmd, t1), PlayCmd, t2), t) == Position(p, t1) + (t - t2)
  {
    var paused := Apply(p, PauseCmd, t1);
    assert paused == p.(basePos := Position(p, t1), startedAt := t1, playing := false);
  }

  /** A walk-through of one room: queue A (30 s) and B (45 s) and play; ten
      seconds later the position is 10; a seek to 200 s stops at A's end;
      next starts B from zero with an empty queue. */
  lemma ScenarioStart(a: Video, b: Video, t0: Time)
    ensures Run(Fresh, [Event(EnqueueCmd(a), t0), Event(EnqueueCmd(b), t0), Event(PlayCmd, t0)])
            == Playback([b], Some(a), true, 0.0, t0)
    ensures Position(Playback([b], Some(a), true, 0.0, t0), t0 + 10.0) == 10.0
  {
    var p1 := Apply(Fresh, EnqueueCmd(a), t0);
    assert p1 == Fresh.(queue := [a]) by { ApplyEnqueue(Fresh, a, t0); }
    var p2 := Apply(p1, EnqueueCmd(b), t0);
    assert p2 == Fresh.(queue := [a, b]) by { ApplyEnqueue(p1, b, t0); }
    var p3 := Apply(p2, PlayCmd, t0);
    assert p3 == Playback([b], Some(a), true, 0.0, t0) by {
      assert Perform(p2, PlayCmd, t0) == Play(p2, t0);
      assert p2.queue[1..] == [b];
    }
    var es := [Event(EnqueueCmd(a), t0), Event(EnqueueCmd(b), t0), Event(PlayCmd, t0)];
    assert es[1..] == [Event(EnqueueCmd(b), t0), Event(PlayCmd, t0)];
    assert es[1..][1..] == [Event(PlayCmd, t0)];
    assert Run(p3, es[1..][1..][1..]) == p3;
    assert Run(p2, es[1..][1..]) == p3;
    assert Run(p1, es[1..]) == p3;
  }

  /** The seek of the walk-through: 200 s is lowered to A's 30 s. */
  lemma ScenarioSeek(a: Video, b: Video, t0: Time)
    requires a.duration == 30
    ensures Apply(Playback([b], Some(a), true, 0.0, t0), SeekCmd(200.0), t0 + 10.0)
            == Playback([b], Some(a), true, 30.0, t0 + 10.0)
  {
  }

  /** The skip of the walk-through: B is loaded and plays from zero. */
  lemma ScenarioNext(a: Video, b: Video, t0: Time)
    ensures Apply(Playback([b], Some(a), true, 30.0, t0 + 10.0), NextCmd, t0 + 10.0)
            == Playback([], Some(b), true, 0.0, t0 + 10.0)
  {
  }
}
