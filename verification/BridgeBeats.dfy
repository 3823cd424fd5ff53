/**
 * Time and back-pressure, over whole runs: when a silent upstream is given up, that the client never waits
 * two beats without a frame, and that a step shows the client something and then waits to be pulled again.
 *
 * Everything is said of the actions so far. A beat counts while the stream is open and a step awaits the
 * upstream; the program ignores all others.
 */
module BridgeBeats {
  import opened Prelude
  import opened BridgeTypes
  import opened BridgeCore
  import opened BridgeFrames
  import opened BridgeProtocol

  /** A step awaits the upstream on an open stream. */
  predicate Awaiting(m: Machine) {
    !m.port.closed && m.stepping
  }

  // ---------------------------------------------------------------------------
  // The history
  // ---------------------------------------------------------------------------

  function Before(cfg: Config, room: nat, acts: seq<Act>): Machine
    requires acts != []
  {
    Reached(cfg, room, acts[..|acts| - 1])
  }

  /** An event, of any kind, has arrived. */
  predicate Arrived(cfg: Config, room: nat, acts: seq<Act>) {
    acts != [] &&
    (Arrived(cfg, room, acts[..|acts| - 1])
     || (Awaiting(Before(cfg, room, acts)) && acts[|acts| - 1].Arrive? && acts[|acts| - 1].input.Next?))
  }

  /** The beats since the last event, or since the start. */
  function BeatsSince(cfg: Config, room: nat, acts: seq<Act>): nat {
    if acts == [] then 0
    else
      var so, last := BeatsSince(cfg, room, acts[..|acts| - 1]), acts[|acts| - 1];
      if !Awaiting(Before(cfg, room, acts)) then so
      else if last.Beat? then so + 1
      else if last.Arrive? && last.input.Next? then 0
      else so
  }

  /** How many frames the client had after the last beat. */
  function FramesAtBeat(cfg: Config, room: nat, acts: seq<Act>): nat {
    if acts == [] then 0
    else if Awaiting(Before(cfg, room, acts)) && acts[|acts| - 1].Beat? then |Reached(cfg, room, acts).port.wire|
    else FramesAtBeat(cfg, room, acts[..|acts| - 1])
  }

  /** What the client had when the current or latest step began. */
  function WireAtPull(cfg: Config, room: nat, acts: seq<Act>): seq<WireFrame> {
    if acts == [] then []
    else
      var m := Before(cfg, room, acts);
      if acts[|acts| - 1].Pull? && !m.port.closed && !m.stepping then m.port.wire
      else WireAtPull(cfg, room, acts[..|acts| - 1])
  }

  // ---------------------------------------------------------------------------
  // The flags say what the history says
  // ---------------------------------------------------------------------------

  predicate Clocked(m: Machine, arrived: bool, beats: nat, atBeat: nat, atPull: seq<WireFrame>) {
    !m.port.closed ==>
      && m.beatArmed && !m.terminated && !m.upstreamDone && m.gated == !m.stepping
      && (m.upstreamActive ==> arrived && beats == 0 && m.stallTicks == 0)
      && (!m.upstreamActive && arrived ==> beats == m.stallTicks + 1)
      && (!arrived ==> beats == m.stallTicks)
      && m.port.emitted == |m.port.wire| && atBeat <= |m.port.wire|
      && (m.port.wireActive <==> |m.port.wire| > atBeat)
      && (m.stepping ==> m.atStart == |atPull| && atPull <= m.port.wire && Datas(m.port.wire) == Datas(atPull))
  }

  /** Sent frames extend the wire, one each, while the controller lives. */
  lemma {:induction false} SendAllGrows(p: Port, fs: seq<Frame>)
    ensures var q := SendAll(p, fs);
      && p.wire <= q.wire && q.emitted == p.emitted + |q.wire| - |p.wire|
      && (!q.closed ==> !p.closed && |q.wire| == |p.wire| + |fs| && q.wireActive == (p.wireActive || fs != []))
  {
    if fs != [] {
      SendAllGrows(p, fs[..|fs| - 1]);
    }
  }

  lemma ClosedIsClocked(m: Machine, arrived: bool, beats: nat, atBeat: nat, atPull: seq<WireFrame>)
    requires m.port.closed
    ensures Clocked(m, arrived, beats, atBeat, atPull)
  {
  }

  /** An accepted event: the step goes on if it showed the client nothing, and ends otherwise. */
  lemma EventClocked(cfg: Config, m: Machine, e: Event, arrived: bool, beats: nat, atBeat: nat, atPull: seq<WireFrame>)
    requires Clocked(m, arrived, beats, atBeat, atPull) && Awaiting(m)
    ensures var r := DoArrive(cfg, m, Next(e));
      && Clocked(r, true, 0, atBeat, atPull)
      && (!r.port.closed ==> (r.stepping <==> |r.port.wire| == |atPull|))
  {
    hide Advance, Datas, SendAll;
    var m0 := m.(upstreamActive := true, stallTicks := 0);
    var m1 := Absorb(cfg, m0, Next(e));
    var fs := Advance(cfg, m.core, Next(e)).log[|m.core.log|..];
    SendAllGrows(m.port, fs);
    if e.IsTerminal() {
      ClosedIsClocked(DoArrive(cfg, m, Next(e)), true, 0, atBeat, atPull);
    } else if !m1.port.closed {
      assert m1.port.wire == m.port.wire + m1.port.wire[|m.port.wire|..];
      if m1.port.emitted == m1.atStart {
        assert m1.port.wire == atPull;
      }
    }
  }

  lemma EndClocked(cfg: Config, m: Machine, i: Input, arrived: bool, beats: nat, atBeat: nat, atPull: seq<WireFrame>)
    requires Awaiting(m) && (i.Eof? || i.Throw?)
    ensures Clocked(DoArrive(cfg, m, i), arrived, beats, atBeat, atPull)
  {
    hide Absorb, Datas;
    assert DoArrive(cfg, m, i).port.closed;
  }

  lemma DatasOfKeepAlive(wire: seq<WireFrame>)
    ensures Datas(wire + [KeepAlive]) == Datas(wire)
  {
    DatasSnoc(wire, KeepAlive);
  }

  lemma WireBeatClocked(m: Machine, arrived: bool, beats: nat, atBeat: nat, atPull: seq<WireFrame>)
    requires Clocked(m, arrived, beats, atBeat, atPull)
    ensures var r := WireBeat(m);
      && Clocked(r, arrived, beats, |r.port.wire|, atPull)
      && (!m.port.closed ==> if |m.port.wire| > atBeat then r.port.wire == m.port.wire
                             else if m.port.room == 0 then r.port.torn else r.port.wire == m.port.wire + [KeepAlive])
  {
    hide Datas;
    DatasOfKeepAlive(m.port.wire);
  }

  /** The beat that gives up: the last `maxStallTicks` of them heard nothing. */
  predicate GivesUp(cfg: Config, arrived: bool, beats: nat) {
    if arrived then beats >= 1 && beats >= cfg.maxStallTicks else beats + 1 >= cfg.maxStallTicks
  }

  lemma BeatClocked(cfg: Config, m: Machine, arrived: bool, beats: nat, atBeat: nat, atPull: seq<WireFrame>)
    requires Clocked(m, arrived, beats, atBeat, atPull) && Awaiting(m)
    ensures var r := DoBeat(cfg, m);
      && Clocked(r, arrived, beats + 1, |r.port.wire|, atPull)
      && (GivesUp(cfg, arrived, beats) ==> r.port.closed && r.heard == m.heard + [Stall])
      && (!GivesUp(cfg, arrived, beats) ==> r.heard == m.heard)
      && (!GivesUp(cfg, arrived, beats) ==>
            if |m.port.wire| > atBeat then r.port.wire == m.port.wire
            else if m.port.room == 0 then r.port.torn else r.port.wire == m.port.wire + [KeepAlive])
  {
    hide Advance, Datas, WireBeat, SendAll;
    if m.upstreamActive {
      WireBeatClocked(m.(upstreamActive := false, stallTicks := 0), arrived, beats + 1, atBeat, atPull);
      assert !GivesUp(cfg, arrived, beats);
      WireBeatHears(m.(upstreamActive := false, stallTicks := 0));
    } else if m.stallTicks + 1 < cfg.maxStallTicks {
      WireBeatClocked(m.(stallTicks := m.stallTicks + 1), arrived, beats + 1, atBeat, atPull);
      WireBeatHears(m.(stallTicks := m.stallTicks + 1));
    }
  }

  lemma WireBeatHears(m: Machine)
    ensures WireBeat(m).heard == m.heard
  {
  }

  lemma PullClocked(cfg: Config, m: Machine, arrived: bool, beats: nat, atBeat: nat, atPull: seq<WireFrame>)
    requires Clocked(m, arrived, beats, atBeat, atPull) && !m.port.closed && !m.stepping
    ensures var r := DoPull(cfg, m);
      Clocked(r, arrived, beats, atBeat, m.port.wire) && r.stepping && r.port == m.port
  {
    hide Datas, Absorb;
  }

  /** Nothing but a cancellation moves a machine that does not await the upstream and is not pulled. */
  lemma IdleStays(cfg: Config, m: Machine, a: Act, arrived: bool, beats: nat, atBeat: nat, atPull: seq<WireFrame>)
    requires Clocked(m, arrived, beats, atBeat, atPull) && !m.port.closed
    requires if m.stepping then a.Pull? || (a.Arrive? && a.input.Stall?) else a.Beat? || a.Arrive?
    ensures Do(cfg, m, a) == m
  {
    hide Absorb, Datas;
  }

  // ---------------------------------------------------------------------------
  // Every run
  // ---------------------------------------------------------------------------

  /** The clauses of `Clocked`, with the history filled in. */
  predicate InTime(cfg: Config, room: nat, acts: seq<Act>) {
    Clocked(Reached(cfg, room, acts), Arrived(cfg, room, acts), BeatsSince(cfg, room, acts),
            FramesAtBeat(cfg, room, acts), WireAtPull(cfg, room, acts))
  }

  lemma StartsInTime(cfg: Config, room: nat)
    ensures InTime(cfg, room, [])
  {
  }

  lemma {:induction false} AlwaysInTime(cfg: Config, room: nat, acts: seq<Act>)
    ensures InTime(cfg, room, acts)
  {
    if acts == [] {
      StartsInTime(cfg, room);
    } else {
      var before := acts[..|acts| - 1];
      AlwaysInTime(cfg, room, before);
      StepInTime(cfg, room, before, acts[|acts| - 1]);
      assert before + [acts[|acts| - 1]] == acts;
    }
  }

  lemma ReachedStep(cfg: Config, room: nat, before: seq<Act>, a: Act)
    ensures Reached(cfg, room, before + [a]) == Do(cfg, Reached(cfg, room, before), a)
  {
    hide Do, Begin;
    assert (before + [a])[..|before|] == before;
  }

  lemma StepInTime(cfg: Config, room: nat, before: seq<Act>, a: Act)
    requires InTime(cfg, room, before)
    ensures InTime(cfg, room, before + [a])
  {
    var m := Reached(cfg, room, before);
    var arrived, beats := Arrived(cfg, room, before), BeatsSince(cfg, room, before);
    var atBeat, atPull := FramesAtBeat(cfg, room, before), WireAtPull(cfg, room, before);
    ReachedStep(cfg, room, before, a);
    assert (before + [a])[..|before|] == before;
    hide Do, Reached, Clocked;
    var r := Do(cfg, m, a);
    if m.port.closed || a.Cancel? {
      StaysClosed(cfg, m, a);
      ClosedIsClocked(r, Arrived(cfg, room, before + [a]), BeatsSince(cfg, room, before + [a]),
                      FramesAtBeat(cfg, room, before + [a]), WireAtPull(cfg, room, before + [a]));
    } else {
      OpenStep(cfg, m, a, arrived, beats, atBeat, atPull);
    }
  }

  lemma StaysClosed(cfg: Config, m: Machine, a: Act)
    requires m.port.closed || a.Cancel?
    ensures Do(cfg, m, a).port.closed
  {
    hide DoArrive, DoBeat, DoPull;
    if m.port.closed { ClosedIsFinal(cfg, m, a); }
  }

  /** One action on an open stream. */
  lemma OpenStep(cfg: Config, m: Machine, a: Act, arrived: bool, beats: nat, atBeat: nat, atPull: seq<WireFrame>)
    requires Clocked(m, arrived, beats, atBeat, atPull) && !m.port.closed && !a.Cancel?
    ensures var r, hears, beat := Do(cfg, m, a), m.stepping && a.Arrive? && a.input.Next?, m.stepping && a.Beat?;
      Clocked(r, arrived || hears, if beat then beats + 1 else if hears then 0 else beats,
              if beat then |r.port.wire| else atBeat, if a.Pull? && !m.stepping then m.port.wire else atPull)
  {
    hide Clocked, DoArrive, DoBeat, DoPull;
    if a.Pull? && !m.stepping {
      PullClocked(cfg, m, arrived, beats, atBeat, atPull);
    } else if m.stepping && a.Beat? {
      BeatClocked(cfg, m, arrived, beats, atBeat, atPull);
    } else if m.stepping && a.Arrive? && a.input.Next? {
      EventClocked(cfg, m, a.input.event, arrived, beats, atBeat, atPull);
    } else if m.stepping && a.Arrive? && !a.input.Stall? {
      EndClocked(cfg, m, a.input, arrived, beats, atBeat, atPull);
    } else {
      IdleStays(cfg, m, a, arrived, beats, atBeat, atPull);
    }
  }

  // ---------------------------------------------------------------------------
  // The results
  // ---------------------------------------------------------------------------

  /**
   * For every interleaving, a beat while a step awaits gives the upstream up exactly when it has been silent for
   * `maxStallTicks` beats: the first beat after an event does not count, as it may come right behind it.
   */
  lemma StallsExactlyInTime(cfg: Config, room: nat, acts: seq<Act>)
    requires Awaiting(Reached(cfg, room, acts))
    ensures var m, r := Reached(cfg, room, acts), Reached(cfg, room, acts + [Beat]);
      var stalls := GivesUp(cfg, Arrived(cfg, room, acts), BeatsSince(cfg, room, acts));
      r.heard == (if stalls then m.heard + [Stall] else m.heard) && (stalls ==> r.port.closed)
  {
    hide Do, Clocked, Reached, Arrived, BeatsSince, FramesAtBeat, WireAtPull;
    AlwaysInTime(cfg, room, acts);
    ReachedStep(cfg, room, acts, Beat);
    DoesBeat(cfg, Reached(cfg, room, acts));
    BeatClocked(cfg, Reached(cfg, room, acts), Arrived(cfg, room, acts), BeatsSince(cfg, room, acts),
                FramesAtBeat(cfg, room, acts), WireAtPull(cfg, room, acts));
  }

  lemma DoesBeat(cfg: Config, m: Machine)
    ensures Do(cfg, m, Beat) == DoBeat(cfg, m)
  {
  }

  /**
   * For every interleaving: between two beats the client gets at least one frame, unless its controller was torn
   * down. A keep-alive is sent exactly when nothing else was.
   */
  lemma NeverSilentForTwoBeats(cfg: Config, room: nat, acts: seq<Act>)
    requires Awaiting(Reached(cfg, room, acts))
    requires !GivesUp(cfg, Arrived(cfg, room, acts), BeatsSince(cfg, room, acts))
    ensures var m, r := Reached(cfg, room, acts), Reached(cfg, room, acts + [Beat]);
      var since := |m.port.wire| - FramesAtBeat(cfg, room, acts);
      && since >= 0
      && (since > 0 ==> r.port.wire == m.port.wire)
      && (since == 0 ==> r.port.torn || r.port.wire == m.port.wire + [KeepAlive])
  {
    hide Do, Reached, Arrived, BeatsSince, FramesAtBeat, WireAtPull, Datas;
    AlwaysInTime(cfg, room, acts);
    ReachedStep(cfg, room, acts, Beat);
    DoesBeat(cfg, Reached(cfg, room, acts));
    BeatClocked(cfg, Reached(cfg, room, acts), Arrived(cfg, room, acts), BeatsSince(cfg, room, acts),
                FramesAtBeat(cfg, room, acts), WireAtPull(cfg, room, acts));
  }

  /**
   * For every interleaving: an open stream that is pulled starts a step; while the step awaits, the client has
   * got nothing since the pull but keep-alives; and beats are gated between steps.
   */
  lemma StepsYield(cfg: Config, room: nat, acts: seq<Act>)
    requires !Reached(cfg, room, acts).port.closed
    ensures var m := Reached(cfg, room, acts);
      && m.gated == !m.stepping
      && (m.stepping ==> Datas(m.port.wire) == Datas(WireAtPull(cfg, room, acts)))
      && (!m.stepping ==> Reached(cfg, room, acts + [Pull]).stepping)
  {
    hide Do, Reached, Arrived, BeatsSince, FramesAtBeat, WireAtPull, Datas;
    AlwaysInTime(cfg, room, acts);
    ReachedStep(cfg, room, acts, Pull);
    var m := Reached(cfg, room, acts);
    if !m.stepping {
      DoesPull(cfg, m);
      PullClocked(cfg, m, Arrived(cfg, room, acts), BeatsSince(cfg, room, acts), FramesAtBeat(cfg, room, acts), WireAtPull(cfg, room, acts));
    }
  }

  lemma DoesPull(cfg: Config, m: Machine)
    ensures Do(cfg, m, Pull) == DoPull(cfg, m)
  {
  }
}
