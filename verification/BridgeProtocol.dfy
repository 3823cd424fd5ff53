/**
 * The terminal protocol of the bridge: pull steps, keep-alive beats, upstream arrivals and
 * cancellation, interleaved in any order. The only suspension point of a step is the await
 * on the next adapter event, so `Arrive` runs from there to the next suspension.
 */
module BridgeProtocol {
  import opened Prelude
  import opened BridgeTypes
  import opened BridgeCore
  import opened BridgeItems
  import opened BridgeFrames

  datatype WireFrame = Data(seqNo: nat, frame: Frame) | KeepAlive | DoneMarker

  /**
   * The response stream. `room` is how many more frames the controller accepts before it is
   * torn down and `enqueue` throws; it is an arbitrary choice of the environment.
   */
  datatype Port = Port(wire: seq<WireFrame>, seqNo: nat, emitted: nat, closed: bool, cancelled: bool,
                       reported: bool, reports: seq<Status>, wireActive: bool, room: nat, torn: bool)

  function Enqueue(p: Port, w: WireFrame): Port {
    if p.room == 0 then p.(closed := true, torn := true)
    else p.(wire := p.wire + [w], emitted := p.emitted + 1, room := p.room - 1)
  }

  function Send(p: Port, f: Frame): Port {
    if p.closed then p
    else Enqueue(p, Data(p.seqNo, f)).(seqNo := p.seqNo + 1, wireActive := true)
  }

  function SendDone(p: Port): Port {
    if p.closed then p else Enqueue(p, DoneMarker)
  }

  function Report(p: Port, status: Status): Port {
    if p.reported || p.cancelled || p.closed then p
    else p.(reported := true, reports := p.reports + [status])
  }

  /** `[DONE]`, then the stream is closed for good. */
  function Seal(p: Port): Port {
    SendDone(p).(closed := true)
  }

  function SendAll(p: Port, fs: seq<Frame>): Port {
    if fs == [] then p else Send(SendAll(p, fs[..|fs| - 1]), fs[|fs| - 1])
  }

  /** Everything the bookkeeping logged between two states goes to `emit`. */
  function Deliver(p: Port, before: Core, after: Core): Port
    requires before.log <= after.log
  {
    SendAll(p, after.log[|before.log|..])
  }

  /** `heard` lists, for the statements below, the inputs handled while the stream was open. */
  datatype Machine = Machine(core: Core, port: Port, heard: seq<Input>, stepping: bool, gated: bool,
                             terminated: bool, upstreamDone: bool, upstreamActive: bool, stallTicks: nat,
                             beatArmed: bool, atStart: nat)

  datatype Act = Pull | Arrive(input: Input) | Beat | Cancel

  function Begin(room: nat): Machine {
    var p := Send(Port([], 0, 0, false, false, false, [], false, room, false), Created);
    Machine(Init(), p, [], false, true, false, false, false, 0, true, 0)
  }

  /** The bookkeeping handles an input; its frames are emitted and an ending is reported. */
  function Absorb(cfg: Config, m: Machine, i: Input): (r: Machine)
    ensures r == m.(core := r.core, port := r.port, heard := r.heard)
  {
    var core := Advance(cfg, m.core, i);
    var port := Deliver(m.port, m.core, core);
    m.(core := core, port := if Ends(i) then Report(port, EndStatus(i)) else port,
       heard := if m.port.closed then m.heard else m.heard + [i])
  }

  /** The flags of the stepping protocol play no part in it. */
  lemma AbsorbIgnoresFlags(cfg: Config, m: Machine, d: Machine, i: Input)
    requires d.core == m.core && d.port == m.port && d.heard == m.heard
    ensures var a, b := Absorb(cfg, m, i), Absorb(cfg, d, i);
      b == d.(core := a.core, port := a.port, heard := a.heard)
  {
    hide Advance;
  }

  /** Leaving the loop of a step. */
  function Exit(cfg: Config, m: Machine): Machine {
    if !m.terminated && !m.upstreamDone then m.(gated := true, stepping := false)
    else
      var m1 := if m.terminated then m else Absorb(cfg, m, Eof).(terminated := true);
      m1.(beatArmed := false, port := Seal(m1.port), gated := true, stepping := false)
  }

  function LoopHead(cfg: Config, m: Machine): Machine {
    if !m.terminated && !m.port.closed && m.port.emitted == m.atStart then m else Exit(cfg, m)
  }

  function DoPull(cfg: Config, m: Machine): Machine {
    if m.stepping || m.port.closed then m
    else LoopHead(cfg, m.(stepping := true, gated := false, atStart := m.port.emitted))
  }

  /** The awaited `next()` settles: with an event, at the end, or by throwing. */
  function DoArrive(cfg: Config, m: Machine, i: Input): Machine {
    if !m.stepping || i.Stall? then m
    else
      match i
      case Eof => Exit(cfg, m.(upstreamDone := true))
      case Throw => Exit(cfg, if m.terminated then m else Absorb(cfg, m, Throw).(terminated := true))
      case Next(e) =>
        var m1 := Absorb(cfg, m.(upstreamActive := true, stallTicks := 0), i);
        if e.IsTerminal() then Exit(cfg, m1.(terminated := true)) else LoopHead(cfg, m1)
      case Stall => m
  }

  function DoBeat(cfg: Config, m: Machine): Machine {
    if !m.beatArmed || m.port.closed || m.gated then m
    else if m.upstreamActive then WireBeat(m.(upstreamActive := false, stallTicks := 0))
    else if m.stallTicks + 1 >= cfg.maxStallTicks then
      var m1 := Absorb(cfg, m, Stall);
      m1.(stallTicks := m.stallTicks + 1, terminated := true, beatArmed := false, port := Seal(m1.port))
    else WireBeat(m.(stallTicks := m.stallTicks + 1))
  }

  function WireBeat(m: Machine): Machine {
    if m.port.wireActive then m.(port := m.port.(wireActive := false))
    else m.(port := Enqueue(m.port, KeepAlive))
  }

  function DoCancel(m: Machine): Machine {
    m.(port := m.port.(cancelled := true, closed := true), beatArmed := false)
  }

  function Do(cfg: Config, m: Machine, a: Act): Machine {
    match a
    case Pull => DoPull(cfg, m)
    case Arrive(i) => DoArrive(cfg, m, i)
    case Beat => DoBeat(cfg, m)
    case Cancel => DoCancel(m)
  }

  function DoAll(cfg: Config, m: Machine, acts: seq<Act>): Machine {
    if acts == [] then m else Do(cfg, DoAll(cfg, m, acts[..|acts| - 1]), acts[|acts| - 1])
  }

  // ---------------------------------------------------------------------------
  // What the client has received
  // ---------------------------------------------------------------------------

  /** The numbered frames of a wire, without keep-alives and the end marker. */
  function Datas(wire: seq<WireFrame>): seq<Frame> {
    if wire == [] then []
    else
      var last := wire[|wire| - 1];
      Datas(wire[..|wire| - 1]) + (if last.Data? then [last.frame] else [])
  }

  /** Sequence numbers run 0, 1, 2, ... without gap or repetition. */
  predicate Numbered(wire: seq<WireFrame>) {
    wire == [] ||
    (var before, last := wire[..|wire| - 1], wire[|wire| - 1];
     Numbered(before) && (last.Data? ==> last.seqNo == |Datas(before)|))
  }

  predicate IsTerminalFrame(w: WireFrame) {
    w.Data? && w.frame.Terminal?
  }

  predicate NoEnd(wire: seq<WireFrame>) {
    forall k :: 0 <= k < |wire| ==> !wire[k].DoneMarker? && !IsTerminalFrame(wire[k])
  }

  /** The wire closed with this terminal frame and the end marker right behind it. */
  predicate Completed(wire: seq<WireFrame>, status: Status) {
    && |wire| >= 2 && wire[|wire| - 1].DoneMarker?
    && IsTerminalFrame(wire[|wire| - 2]) && wire[|wire| - 2].frame.status == status
    && NoEnd(wire[..|wire| - 2])
  }

  /** Only a controller torn down between the two can keep the end marker from the client. */
  predicate CutShort(wire: seq<WireFrame>, status: Status) {
    && wire != [] && IsTerminalFrame(wire[|wire| - 1]) && wire[|wire| - 1].frame.status == status
    && NoEnd(wire[..|wire| - 1])
  }

  predicate Protocol(p: Port) {
    && Numbered(p.wire)
    && (p.reported <==> p.reports != [])
    && (p.cancelled || p.torn || p.reported ==> p.closed)
    && (if p.reports == [] then NoEnd(p.wire)
        else |p.reports| == 1 && (Completed(p.wire, p.reports[0]) || (p.torn && CutShort(p.wire, p.reports[0]))))
  }

  /** While the stream is open it has carried every logged frame and nothing has ended. */
  predicate PortOpen(p: Port, log: seq<Frame>) {
    Protocol(p) && !p.closed && !p.torn && !p.reported && Datas(p.wire) == log && p.seqNo == |log|
  }

  predicate PortShut(p: Port, log: seq<Frame>) {
    Protocol(p) && p.closed && Datas(p.wire) <= log && (!p.torn ==> Datas(p.wire) == log)
  }

  predicate PortFits(p: Port, log: seq<Frame>) {
    PortOpen(p, log) || PortShut(p, log)
  }

  lemma DatasSnoc(wire: seq<WireFrame>, w: WireFrame)
    ensures Datas(wire + [w]) == Datas(wire) + (if w.Data? then [w.frame] else [])
    ensures Numbered(wire + [w]) <==> Numbered(wire) && (w.Data? ==> w.seqNo == |Datas(wire)|)
  {
    assert (wire + [w])[..|wire|] == wire;
  }

  /** One more ordinary frame. */
  lemma SendFits(p: Port, f: Frame, log: seq<Frame>)
    requires PortFits(p, log) && (p.closed ==> p.torn) && !f.Terminal?
    ensures PortFits(Send(p, f), log + [f]) && (Send(p, f).closed ==> Send(p, f).torn)
    ensures Send(p, f).reports == p.reports
  {
    if !p.closed && p.room > 0 {
      DatasSnoc(p.wire, Data(p.seqNo, f));
    }
  }

  lemma {:induction false} SendAllFits(p: Port, fs: seq<Frame>, log: seq<Frame>)
    requires PortFits(p, log) && (p.closed ==> p.torn) && EndFree(fs, 0)
    ensures var q := SendAll(p, fs);
      PortFits(q, log + fs) && (q.closed ==> q.torn) && q.reports == p.reports && (p.torn ==> q.torn)
  {
    hide PortFits;
    if fs == [] {
      assert log + fs == log;
    } else {
      var n := |fs| - 1;
      SendAllFits(p, fs[..n], log);
      SendFits(SendAll(p, fs[..n]), fs[n], log + fs[..n]);
      assert log + fs[..n] + [fs[n]] == log + fs;
    }
  }

  lemma SendAllSnoc(p: Port, fs: seq<Frame>, f: Frame)
    ensures SendAll(p, fs + [f]) == Send(SendAll(p, fs), f)
  {
    assert (fs + [f])[..|fs|] == fs;
  }

  lemma {:induction false} ClosedSendAll(p: Port, fs: seq<Frame>)
    requires p.closed
    ensures SendAll(p, fs) == p
  {
    if fs != [] {
      ClosedSendAll(p, fs[..|fs| - 1]);
    }
  }

  /** The terminal frame, its report and the end marker. */
  lemma EndFits(p: Port, f: Frame, log: seq<Frame>)
    requires PortFits(p, log) && (p.closed ==> p.torn) && f.Terminal? && p.reports == []
    ensures var q := Seal(Report(Send(p, f), f.status));
      PortShut(q, log + [f]) && (q.torn || (Completed(q.wire, f.status) && q.reports == [f.status]))
  {
    hide Datas, Numbered;
    if !p.closed && p.room > 0 {
      DatasSnoc(p.wire, Data(p.seqNo, f));
      var w1 := p.wire + [Data(p.seqNo, f)];
      assert w1[..|w1| - 1] == p.wire;
      if p.room > 1 {
        DatasSnoc(w1, DoneMarker);
        var w2 := w1 + [DoneMarker];
        assert w2[..|w2| - 2] == p.wire;
      }
    }
  }

  // ---------------------------------------------------------------------------
  // The invariant of the machine
  // ---------------------------------------------------------------------------

  predicate Undecided(heard: seq<Input>) {
    forall k :: 0 <= k < |heard| ==> !Ends(heard[k])
  }

  predicate Decided(heard: seq<Input>) {
    heard != [] && Ends(heard[|heard| - 1]) && Undecided(heard[..|heard| - 1])
  }

  predicate Inv(cfg: Config, m: Machine) {
    && PortFits(m.port, Run(cfg, m.heard).log)
    && (m.terminated ==> m.port.closed)
    && (m.upstreamDone ==> m.port.closed)
    && (!m.port.closed ==> m.core == Run(cfg, m.heard) && Undecided(m.heard))
    && (Undecided(m.heard) || Decided(m.heard))
    && (m.port.closed && !m.port.torn && !m.port.cancelled ==> Decided(m.heard) && m.port.reported)
    && (m.port.reported ==> Decided(m.heard) && m.port.reports == [EndStatus(m.heard[|m.heard| - 1])])
  }

  lemma RunMore(cfg: Config, heard: seq<Input>, i: Input)
    ensures Run(cfg, heard + [i]) == Advance(cfg, Run(cfg, heard), i)
  {
    assert (heard + [i])[..|heard|] == heard;
  }

  /** A closed stream stays as it is, whatever the bookkeeping still does. */
  lemma AbsorbClosed(cfg: Config, m: Machine, i: Input)
    requires m.port.closed
    ensures var r := Absorb(cfg, m, i); r.port == m.port && r.heard == m.heard
  {
    hide Advance;
    ClosedSendAll(m.port, Advance(cfg, m.core, i).log[|m.core.log|..]);
  }

  /** An event that ends nothing: its frames go out, or the controller was torn down among them. */
  lemma AbsorbOpen(cfg: Config, m: Machine, i: Input)
    requires Inv(cfg, m) && !m.port.closed && !Ends(i)
    ensures Inv(cfg, Absorb(cfg, m, i)) && (Absorb(cfg, m, i).port.closed ==> Absorb(cfg, m, i).port.torn)
    ensures !Absorb(cfg, m, i).port.closed ==> !m.terminated && !m.upstreamDone
  {
    hide Handle, Run, PortFits, Protocol;
    var core := Advance(cfg, m.core, i);
    var fs := core.log[|m.core.log|..];
    RunMore(cfg, m.heard, i);
    NothingAfter(m.core.log);
    EventEndFree(cfg, m.core, i.event, |m.core.log|);
    SendAllFits(m.port, fs, m.core.log);
    assert m.core.log + fs == core.log;
    PortFitsFacts(SendAll(m.port, fs), core.log);
    PortFitsFacts(m.port, m.core.log);
  }

  lemma PortFitsFacts(p: Port, log: seq<Frame>)
    requires PortFits(p, log)
    ensures p.reported <==> p.reports != []
    ensures p.cancelled || p.torn || p.reported ==> p.closed
    ensures !p.closed ==> p.reports == [] && !p.torn && !p.cancelled
  {
  }

  /** An ending on an open stream: afterwards the terminal frame and the marker are on the wire. */
  lemma AbsorbEnding(cfg: Config, m: Machine, i: Input)
    requires Inv(cfg, m) && !m.port.closed && Ends(i)
    ensures var r := Absorb(cfg, m, i);
      var q := Seal(r.port);
      && PortShut(q, Run(cfg, r.heard).log) && Decided(r.heard) && r.heard == m.heard + [i]
      && (q.torn || (Completed(q.wire, EndStatus(i)) && q.reports == [EndStatus(i)]))
      && (q.reports == [] || q.reports == [EndStatus(i)])
  {
    hide Advance, Run, PortFits, PortShut, Completed;
    var core := Advance(cfg, m.core, i);
    var fs := core.log[|m.core.log|..];
    RunMore(cfg, m.heard, i);
    EndingFrames(cfg, m.core, i);
    assert (m.heard + [i])[..|m.heard|] == m.heard;
    var n := |fs| - 1;
    var f := fs[n];
    assert core.log[..|core.log| - 1] == m.core.log + fs[..n];
    assert f == core.log[|core.log| - 1];
    assert EndFree(fs[..n], 0) by { SuffixEndFree(core.log, m.core.log, fs); }
    assert fs == fs[..n] + [f];
    SendAllSnoc(m.port, fs[..n], f);
    PortFitsFacts(m.port, m.core.log);
    SendAllFits(m.port, fs[..n], m.core.log);
    EndFits(SendAll(m.port, fs[..n]), f, m.core.log + fs[..n]);
    assert m.core.log + fs[..n] + [f] == core.log;
    SealReports(SendAll(m.port, fs[..n]), f);
  }

  lemma SealReports(p: Port, f: Frame)
    requires f.Terminal? && p.reports == []
    ensures var q := Seal(Report(Send(p, f), f.status)); q.reports == [] || q.reports == [f.status]
  {
  }

  lemma SuffixEndFree(log: seq<Frame>, before: seq<Frame>, fs: seq<Frame>)
    requires log == before + fs && fs != [] && EndFree(log[..|log| - 1], |before|)
    ensures EndFree(fs[..|fs| - 1], 0)
  {
    forall k | 0 <= k < |fs| - 1 ensures !fs[k].Terminal? {
      assert log[..|log| - 1][|before| + k] == fs[k];
    }
  }

  // ---------------------------------------------------------------------------
  // Every action keeps it
  // ---------------------------------------------------------------------------

  /** Sealing after an ending that was just absorbed. */
  lemma SealedInv(cfg: Config, m: Machine, i: Input, r: Machine)
    requires Inv(cfg, m) && !m.port.closed && Ends(i)
    requires var a := Absorb(cfg, m, i); r.port == Seal(a.port) && r.heard == a.heard
    ensures Inv(cfg, r) && r.port.closed
    ensures r.port.torn || (Completed(r.port.wire, EndStatus(i)) && r.port.reports == [EndStatus(i)])
  {
    hide Advance, Run, Absorb, Completed, PortOpen;
    AbsorbEnding(cfg, m, i);
  }

  /** Once closed, only flags that nobody can see still change. */
  lemma ClosedInv(cfg: Config, m: Machine, r: Machine)
    requires Inv(cfg, m) && m.port.closed
    requires r.port == m.port && r.heard == m.heard
    ensures Inv(cfg, r)
  {
    hide Run, PortFits;
  }

  lemma SealClosed(p: Port)
    requires p.closed
    ensures Seal(p) == p
  {
  }

  lemma ExitClosed(cfg: Config, m: Machine)
    requires m.port.closed
    ensures Exit(cfg, m).port == m.port && Exit(cfg, m).heard == m.heard
  {
    hide Absorb;
    AbsorbClosed(cfg, m, Eof);
    SealClosed(m.port);
  }

  /** Whatever arrives at a closed stream is handled without a trace. */
  lemma ArriveClosed(cfg: Config, m: Machine, i: Input)
    requires m.port.closed
    ensures DoArrive(cfg, m, i).port == m.port && DoArrive(cfg, m, i).heard == m.heard
  {
    hide Absorb, Exit;
    match i {
      case Eof => ExitClosed(cfg, m.(upstreamDone := true));
      case Stall =>
      case Throw =>
        AbsorbClosed(cfg, m, Throw);
        ExitClosed(cfg, if m.terminated then m else Absorb(cfg, m, Throw).(terminated := true));
      case Next(e) =>
        AbsorbClosed(cfg, m.(upstreamActive := true, stallTicks := 0), i);
        var m1 := Absorb(cfg, m.(upstreamActive := true, stallTicks := 0), i);
        ExitClosed(cfg, m1);
        ExitClosed(cfg, m1.(terminated := true));
    }
  }

  /** For every action: a closed stream is final; wire, reports and sequence number never change again. */
  lemma ClosedIsFinal(cfg: Config, m: Machine, a: Act)
    requires m.port.closed
    ensures var r := Do(cfg, m, a);
      r.heard == m.heard && r.port == m.port.(cancelled := r.port.cancelled)
      && (!a.Cancel? ==> r.port == m.port)
  {
    hide DoArrive, Absorb;
    if a.Arrive? { ArriveClosed(cfg, m, a.input); }
  }

  lemma CancelInv(cfg: Config, m: Machine)
    requires Inv(cfg, m)
    ensures Inv(cfg, DoCancel(m))
  {
    hide Run, Datas, Numbered, NoEnd, Completed, CutShort;
  }

  lemma KeepAliveFits(p: Port, log: seq<Frame>)
    requires PortOpen(p, log)
    ensures PortFits(Enqueue(p, KeepAlive), log)
    ensures var q := Enqueue(p, KeepAlive);
      q.reports == p.reports && q.reported == p.reported && q.cancelled == p.cancelled && (q.closed ==> q.torn)
  {
    if p.room > 0 {
      DatasSnoc(p.wire, KeepAlive);
    }
  }

  lemma QuietFits(p: Port, log: seq<Frame>)
    requires PortOpen(p, log)
    ensures PortOpen(p.(wireActive := false), log)
  {
    hide Datas, Numbered, NoEnd;
  }

  lemma WireBeatInv(cfg: Config, m: Machine)
    requires Inv(cfg, m) && !m.port.closed
    ensures Inv(cfg, WireBeat(m))
  {
    hide Run, Protocol, Datas, Enqueue;
    KeepAliveFits(m.port, Run(cfg, m.heard).log);
    QuietFits(m.port, Run(cfg, m.heard).log);
  }

  lemma BeatInv(cfg: Config, m: Machine)
    requires Inv(cfg, m) && !m.port.closed
    ensures Inv(cfg, DoBeat(cfg, m))
  {
    hide Run, Absorb, PortFits, WireBeat, Completed;
    if m.beatArmed && !m.gated {
      if m.upstreamActive {
        WireBeatInv(cfg, m.(upstreamActive := false, stallTicks := 0));
      } else if m.stallTicks + 1 >= cfg.maxStallTicks {
        SealedInv(cfg, m, Stall, DoBeat(cfg, m));
      } else {
        WireBeatInv(cfg, m.(stallTicks := m.stallTicks + 1));
      }
    }
  }

  lemma PullInv(cfg: Config, m: Machine)
    requires Inv(cfg, m) && !m.port.closed
    ensures Inv(cfg, DoPull(cfg, m))
  {
    hide Run, Absorb, PortFits;
  }

  /**
   * An arrival on an open, awaiting stream keeps the invariant; and when it is a terminal event,
   * the end of the events or a throw, the client has the terminal frame and the end marker
   * (unless the controller itself was torn down).
   */
  lemma ArriveInv(cfg: Config, m: Machine, i: Input)
    requires Inv(cfg, m) && !m.port.closed && m.stepping && !i.Stall?
    ensures Inv(cfg, DoArrive(cfg, m, i))
    ensures var p := DoArrive(cfg, m, i).port;
      Ends(i) ==> p.closed && (p.torn || (Completed(p.wire, EndStatus(i)) && p.reports == [EndStatus(i)]))
  {
    hide Run, Absorb, PortFits, Completed;
    var r := DoArrive(cfg, m, i);
    match i {
      case Eof =>
        AbsorbIgnoresFlags(cfg, m, m.(upstreamDone := true), Eof);
        SealedInv(cfg, m, Eof, r);
      case Throw => SealedInv(cfg, m, Throw, r);
      case Next(e) =>
        var m0 := m.(upstreamActive := true, stallTicks := 0);
        if e.IsTerminal() {
          SealedInv(cfg, m0, i, r);
        } else {
          AbsorbOpen(cfg, m0, i);
          var m1 := Absorb(cfg, m0, i);
          if m1.port.closed {
            ExitClosed(cfg, m1);
            ClosedInv(cfg, m1, r);
          }
        }
    }
  }

  lemma DoInv(cfg: Config, m: Machine, a: Act)
    requires Inv(cfg, m)
    ensures Inv(cfg, Do(cfg, m, a))
  {
    hide Run, Absorb, PortFits, DoArrive, DoBeat, DoPull;
    if a.Cancel? {
      CancelInv(cfg, m);
    } else if m.port.closed {
      ClosedIsFinal(cfg, m, a);
      ClosedInv(cfg, m, Do(cfg, m, a));
    } else {
      match a {
        case Pull => PullInv(cfg, m);
        case Beat => BeatInv(cfg, m);
        case Arrive(i) =>
          if m.stepping && !i.Stall? {
            ArriveInv(cfg, m, i);
          } else {
            NoArrival(cfg, m, i);
          }
      }
    }
  }

  lemma NoArrival(cfg: Config, m: Machine, i: Input)
    requires !m.stepping || i.Stall?
    ensures DoArrive(cfg, m, i) == m
  {
  }

  lemma BeginInv(cfg: Config, room: nat)
    ensures Inv(cfg, Begin(room))
  {
    hide Run, PortOpen, PortShut;
    var p := Port([], 0, 0, false, false, false, [], false, room, false);
    EmptyPort(p);
    SendFits(p, Created, []);
    assert [] + [Created] == [Created];
    assert Run(cfg, []) == Init() by { RunNothing(cfg); }
    PortFitsFacts(Begin(room).port, [Created]);
  }

  lemma RunNothing(cfg: Config)
    ensures Run(cfg, []) == Init()
  {
  }

  lemma EmptyPort(p: Port)
    requires p.wire == [] && p.seqNo == 0 && !p.closed && !p.cancelled && !p.reported && p.reports == [] && !p.torn
    ensures PortOpen(p, [])
  {
  }

  lemma {:induction false} AlwaysInv(cfg: Config, room: nat, acts: seq<Act>)
    ensures Inv(cfg, DoAll(cfg, Begin(room), acts))
  {
    hide Inv, Do;
    if acts == [] {
      BeginInv(cfg, room);
    } else {
      AlwaysInv(cfg, room, acts[..|acts| - 1]);
      DoInv(cfg, DoAll(cfg, Begin(room), acts[..|acts| - 1]), acts[|acts| - 1]);
    }
  }

  // ---------------------------------------------------------------------------
  // The results
  // ---------------------------------------------------------------------------

  function Reached(cfg: Config, room: nat, acts: seq<Act>): Machine {
    DoAll(cfg, Begin(room), acts)
  }

  /**
   * For every interleaving: sequence numbers are 0, 1, 2, ...; there is at most one terminal frame,
   * `[DONE]` comes directly after it and nothing comes after `[DONE]`; `onTerminal` was called at most
   * once, with the status on the wire, and exactly when a terminal frame is on the wire.
   */
  lemma TerminalProtocol(cfg: Config, room: nat, acts: seq<Act>)
    ensures var p := Reached(cfg, room, acts).port;
      && Numbered(p.wire)
      && |p.reports| <= 1
      && (p.reports == [] ==> NoEnd(p.wire))
      && (p.reports != [] ==> Completed(p.wire, p.reports[0]) || (p.torn && CutShort(p.wire, p.reports[0])))
      && (p.closed && !p.cancelled && !p.torn ==> p.reports != [])
  {
    hide Numbered, NoEnd, Completed, CutShort, Datas, Run;
    AlwaysInv(cfg, room, acts);
  }

  /** After a cancellation nothing more is sent and nothing more is reported, whatever happens. */
  lemma {:induction false} SilentAfterCancel(cfg: Config, m: Machine, later: seq<Act>)
    ensures var cut := Do(cfg, m, Cancel);
      var r := DoAll(cfg, cut, later);
      r.port.wire == m.port.wire && r.port.reports == m.port.reports && r.port.closed && r.port.cancelled
  {
    if later != [] {
      SilentAfterCancel(cfg, m, later[..|later| - 1]);
      hide Do;
      ClosedIsFinal(cfg, DoAll(cfg, Do(cfg, m, Cancel), later[..|later| - 1]), later[|later| - 1]);
    } else {
      assert DoAll(cfg, Do(cfg, m, Cancel), later) == Do(cfg, m, Cancel);
    }
  }

  /**
   * An open stream that awaits the upstream and sees a terminal event, the end of the events or a
   * throw leaves its terminal frame, with the right status, and the end marker on the wire.
   */
  lemma EndingReachesTheWire(cfg: Config, room: nat, acts: seq<Act>, i: Input)
    requires var m := Reached(cfg, room, acts); m.stepping && !m.port.closed
    requires Ends(i) && !i.Stall?
    ensures var p := Reached(cfg, room, acts + [Arrive(i)]).port;
      p.torn || (Completed(p.wire, EndStatus(i)) && p.reports == [EndStatus(i)])
  {
    hide DoArrive, Inv, Completed, Begin;
    AlwaysInv(cfg, room, acts);
    ArriveInv(cfg, Reached(cfg, room, acts), i);
    assert (acts + [Arrive(i)])[..|acts|] == acts;
    OpenIsUncancelled(cfg, Reached(cfg, room, acts));
  }

  lemma OpenIsUncancelled(cfg: Config, m: Machine)
    requires Inv(cfg, m) && !m.port.closed
    ensures !m.port.cancelled && !m.port.torn
  {
  }

  /**
   * End to end: in every interleaving that ran to its end uncancelled and with a live controller,
   * the client received exactly the log of the inputs the bridge handled. If those inputs were tame
   * the client accepts the stream and holds the items of the terminal frame.
   */
  lemma ClientHoldsTheResponse(cfg: Config, room: nat, acts: seq<Act>)
    requires var m := Reached(cfg, room, acts);
      && m.port.closed && !m.port.cancelled && !m.port.torn
      && (forall k :: 0 <= k < |m.heard| ==> PlausibleEvent(m.heard[k]))
    ensures var m := Reached(cfg, room, acts);
      var view := Replay(Datas(m.port.wire));
      && (AllTame(cfg, m.heard) <==> !view.Broken?)
      && (AllTame(cfg, m.heard) ==> view == View(Run(cfg, m.heard).finished, None, true))
  {
    hide Replay, Run, AllTame, Reached;
    assert Reached(cfg, room, acts) == DoAll(cfg, Begin(room), acts) by { IsReached(cfg, room, acts); }
    AlwaysInv(cfg, room, acts);
    var m := Reached(cfg, room, acts);
    forall k | 0 <= k < |m.heard| - 1 ensures !Ends(m.heard[k]) {
      assert m.heard[k] == m.heard[..|m.heard| - 1][k];
    }
    BracketedIffTame(cfg, m.heard);
  }

  /**
   * A client cut off at any point, by its own cancellation or by a torn-down controller, holds a
   * prefix of the log of the inputs handled so far, the whole of it unless the controller tore; and
   * if those inputs were tame it can make sense of what it holds.
   */
  lemma ClientHoldsAPrefix(cfg: Config, room: nat, acts: seq<Act>)
    ensures var m := Reached(cfg, room, acts);
      && Datas(m.port.wire) <= Run(cfg, m.heard).log
      && (!m.port.torn ==> Datas(m.port.wire) == Run(cfg, m.heard).log)
      && ((forall k :: 0 <= k < |m.heard| ==> PlausibleEvent(m.heard[k])) && AllTame(cfg, m.heard) ==>
            !Replay(Datas(m.port.wire)).Broken?)
  {
    hide Replay, Run, AllTame, Reached, Protocol, Datas, Observe;
    assert Reached(cfg, room, acts) == DoAll(cfg, Begin(room), acts) by { IsReached(cfg, room, acts); }
    AlwaysInv(cfg, room, acts);
    var m := Reached(cfg, room, acts);
    if (forall k :: 0 <= k < |m.heard| ==> PlausibleEvent(m.heard[k])) && AllTame(cfg, m.heard) {
      TameIsUnbroken(cfg, m.heard);
      if Replay(Datas(m.port.wire)).Broken? {
        BrokenStays(Datas(m.port.wire), Run(cfg, m.heard).log);
      }
    }
  }

  lemma TameIsUnbroken(cfg: Config, heard: seq<Input>)
    requires (forall k :: 0 <= k < |heard| ==> PlausibleEvent(heard[k])) && AllTame(cfg, heard)
    requires Undecided(heard) || Decided(heard)
    ensures !Replay(Run(cfg, heard).log).Broken?
  {
    hide Replay, Run, AllTame, SlotsAgree;
    if Undecided(heard) {
      OpenRun(cfg, heard);
    } else {
      forall k | 0 <= k < |heard| - 1 ensures !Ends(heard[k]) {
        assert heard[k] == heard[..|heard| - 1][k];
      }
      BracketedIffTame(cfg, heard);
    }
  }

  lemma IsReached(cfg: Config, room: nat, acts: seq<Act>)
    ensures Reached(cfg, room, acts) == DoAll(cfg, Begin(room), acts)
  {
  }
}
