/**
 * Atomic file replacement (`renameAtomicFile` and `atomicWriteFile` in src/config.ts): write a
 * temporary file, harden it, rename it over the destination; on any failure scrub and remove it.
 * Every I/O call may fail, and any number of writers interleave between calls.
 */
module AtomicWrite {
  import opened Prelude

  type Bytes = seq<nat>

  /** Why a call failed: the path is missing, Windows has it locked, or anything else. */
  datatype Code = Missing | Locked | OtherCode

  /** How one I/O call ends; a failed write leaves the temporary file in some state. */
  datatype Outcome = Done | Failed(code: Code, left: Option<Bytes>)

  datatype Result = Returned | Rethrown | Residual(hardened: bool) | SecretResidual

  /** The I/O call a writer makes next. */
  datatype Pc =
    | Writing
    | Hardening
    | Renaming(attempt: nat)
    | Truncating
    | Blanking
    | Removing
    | RemovingAgain
    | Rehardening
    | Finished(result: Result)

  datatype Writer = Writer(content: Bytes, pc: Pc, hardened: bool, scrubbed: bool)

  const RENAME_RETRIES: nat := 2

  /** A writer and its temporary file after one I/O call. */
  datatype Local = Local(w: Writer, temp: Option<Bytes>)

  /** Failing puts the writer on the cleanup path. */
  function Advance(win32: bool, s: Local, o: Outcome): Local {
    var w := s.w;
    match w.pc
    case Writing =>
      if o.Done? then Local(w.(pc := Hardening), Some(w.content)) else Local(w.(pc := Truncating), o.left)
    case Hardening =>
      if o.Done? then Local(w.(pc := Renaming(0), hardened := true), s.temp) else Local(w.(pc := Truncating), s.temp)
    case Renaming(attempt) =>
      if o.Done? then Local(w.(pc := Finished(Returned)), None)
      else if win32 && o.code.Locked? && attempt < RENAME_RETRIES then Local(w.(pc := Renaming(attempt + 1)), s.temp)
      else Local(w.(pc := Truncating), s.temp)
    case Truncating =>
      if o.Done? then Local(w.(pc := Removing, scrubbed := true), Some([]))
      else if o.code.Missing? then Local(w.(pc := Removing, scrubbed := true), s.temp)
      else Local(w.(pc := Blanking), s.temp)
    case Blanking =>
      if o.Done? then Local(w.(pc := Removing, scrubbed := true), Some([])) else Local(w.(pc := Removing), o.left)
    case Removing =>
      if o.Done? then Local(w.(pc := Finished(Rethrown)), None)
      else if o.code.Missing? then Local(w.(pc := Finished(Rethrown)), s.temp)
      else Local(w.(pc := RemovingAgain), s.temp)
    case RemovingAgain =>
      if o.Done? then Local(w.(pc := Finished(Rethrown)), None)
      else if o.code.Missing? then Local(w.(pc := Finished(Rethrown)), s.temp)
      else if !w.scrubbed then Local(w.(pc := Finished(SecretResidual)), s.temp)
      else if !w.hardened then Local(w.(pc := Rehardening), s.temp)
      else Local(w.(pc := Finished(Residual(true))), s.temp)
    case Rehardening => Local(w.(pc := Finished(Residual(o.Done?))), s.temp)
    case Finished(_) => s
  }

  /** A call reports success or a missing path truthfully, and a failed write leaves what a write can leave. */
  predicate Honest(s: Local, o: Outcome) {
    match s.w.pc
    case Writing => o.Failed? ==> o.left == s.temp || o.left.None? || o.left.value <= s.w.content
    case Blanking => o.Failed? ==> o.left == s.temp || o.left == Some([])
    case Hardening => true
    case Rehardening => true
    case Finished(_) => true
    case _ => if o.Done? then s.temp.Some? else o.code.Missing? ==> s.temp.None?
  }

  /** Calls still possible. */
  function Rank(pc: Pc): nat {
    match pc
    case Writing => 10
    case Hardening => 9
    case Renaming(attempt) => if attempt <= RENAME_RETRIES then 8 - attempt else 6
    case Truncating => 5
    case Blanking => 4
    case Removing => 3
    case RemovingAgain => 2
    case Rehardening => 1
    case Finished(_) => 0
  }

  /** A write ends after at most ten calls. */
  lemma EveryCallProgresses(win32: bool, s: Local, o: Outcome)
    requires !s.w.pc.Finished?
    ensures Rank(Advance(win32, s, o).w.pc) < Rank(s.w.pc) <= 10
  {
  }

  predicate Blank(temp: Option<Bytes>) {
    temp.None? || temp.value == []
  }

  /** What a writer knows of its own temporary file. */
  predicate LocalInv(s: Local) {
    && (s.w.scrubbed ==> Blank(s.temp))
    && match s.w.pc
       case Writing => !s.w.hardened && !s.w.scrubbed
       case Hardening => s.temp == Some(s.w.content) && !s.w.hardened && !s.w.scrubbed
       case Renaming(_) => s.temp == Some(s.w.content) && s.w.hardened && !s.w.scrubbed
       case Truncating => !s.w.scrubbed
       case Blanking => !s.w.scrubbed
       case Removing => true
       case RemovingAgain => true
       case Rehardening => s.w.scrubbed && !s.w.hardened
       case Finished(r) =>
         match r
         case Returned => s.temp.None? && !s.w.scrubbed
         case Rethrown => s.temp.None?
         case Residual(h) => s.w.scrubbed && (s.w.hardened ==> h)
         case SecretResidual => !s.w.scrubbed
  }

  lemma AdvanceKeeps(win32: bool, s: Local, o: Outcome)
    requires LocalInv(s) && Honest(s, o)
    ensures LocalInv(Advance(win32, s, o))
  {
  }

  // ---------------------------------------------------------------------------
  // The writer as the source runs it
  // ---------------------------------------------------------------------------

  /** All the I/O calls of one write, one after the other, with these outcomes. */
  function Drive(win32: bool, s: Local, script: nat -> Outcome, at: nat): Local
    decreases Rank(s.w.pc)
  {
    if s.w.pc.Finished? then s
    else
      EveryCallProgresses(win32, s, script(at));
      Drive(win32, Advance(win32, s, script(at)), script, at + 1)
  }

  function Fresh(content: Bytes): Writer {
    Writer(content, Writing, false, false)
  }

  /** The path is no longer there: removed by this call, or missing. */
  predicate Gone(o: Outcome) {
    o.Done? || o.code.Missing?
  }

  predicate Retried(win32: bool, o: Outcome) {
    win32 && o.Failed? && o.code.Locked?
  }

  /** How many renames are tried when the first is call `at`: one, and two more while Windows holds a lock. */
  function Renames(win32: bool, script: nat -> Outcome, at: nat): nat {
    if !Retried(win32, script(at)) then 1 else if !Retried(win32, script(at + 1)) then 2 else 3
  }

  /** The write and the hardening succeed, and so does the last rename that is tried. */
  predicate Succeeds(win32: bool, script: nat -> Outcome) {
    script(0).Done? && script(1).Done? && script(1 + Renames(win32, script, 2)).Done?
  }

  /** The first call after the failure. */
  function CleanupAt(win32: bool, script: nat -> Outcome): nat {
    if !script(0).Done? then 1 else if !script(1).Done? then 2 else 2 + Renames(win32, script, 2)
  }

  /** How a failed write reports, from the calls of its cleanup. */
  function Reported(script: nat -> Outcome, at: nat, hardened: bool): Result {
    var truncated := Gone(script(at));
    var scrubbed := truncated || script(at + 1).Done?;
    var unlink := if truncated then at + 1 else at + 2;
    if Gone(script(unlink)) || Gone(script(unlink + 1)) then Rethrown
    else if !scrubbed then SecretResidual
    else Residual(hardened || script(unlink + 2).Done?)
  }

  lemma DriveStep(win32: bool, s: Local, script: nat -> Outcome, at: nat)
    requires !s.w.pc.Finished?
    ensures Drive(win32, s, script, at) == Drive(win32, Advance(win32, s, script(at)), script, at + 1)
  {
    hide Advance;
  }

  lemma FinishedStays(win32: bool, s: Local, script: nat -> Outcome, at: nat)
    requires s.w.pc.Finished?
    ensures Drive(win32, s, script, at) == s
  {
  }

  /** From the unlinking on. */
  lemma RemovingReports(win32: bool, s: Local, script: nat -> Outcome, at: nat)
    requires s.w.pc.Removing?
    ensures Drive(win32, s, script, at).w.pc == Finished(
      if Gone(script(at)) || Gone(script(at + 1)) then Rethrown
      else if !s.w.scrubbed then SecretResidual
      else Residual(s.w.hardened || script(at + 2).Done?))
  {
    hide Drive;
    var s1 := Advance(win32, s, script(at));
    DriveStep(win32, s, script, at);
    if s1.w.pc.Finished? {
      FinishedStays(win32, s1, script, at + 1);
    } else {
      var s2 := Advance(win32, s1, script(at + 1));
      DriveStep(win32, s1, script, at + 1);
      if s2.w.pc.Finished? {
        FinishedStays(win32, s2, script, at + 2);
      } else {
        DriveStep(win32, s2, script, at + 2);
        FinishedStays(win32, Advance(win32, s2, script(at + 2)), script, at + 3);
      }
    }
  }

  /** From the truncation on. */
  lemma CleanupReports(win32: bool, s: Local, script: nat -> Outcome, at: nat)
    requires s.w.pc.Truncating? && !s.w.scrubbed
    ensures Drive(win32, s, script, at).w.pc == Finished(Reported(script, at, s.w.hardened))
  {
    hide Drive;
    var s1 := Advance(win32, s, script(at));
    DriveStep(win32, s, script, at);
    if s1.w.pc.Removing? {
      RemovingReports(win32, s1, script, at + 1);
    } else {
      DriveStep(win32, s1, script, at + 1);
      RemovingReports(win32, Advance(win32, s1, script(at + 1)), script, at + 2);
    }
  }

  /** The renames: the last one tried decides. */
  lemma RenamingDecides(win32: bool, s: Local, script: nat -> Outcome, at: nat)
    requires s.w.pc == Renaming(0)
    ensures var n := Renames(win32, script, at);
      var pc := if script(at + n - 1).Done? then Finished(Returned) else Truncating;
      exists t: Local :: t.w == s.w.(pc := pc) && Drive(win32, s, script, at) == Drive(win32, t, script, at + n)
  {
    hide Drive;
    var s1 := Advance(win32, s, script(at));
    DriveStep(win32, s, script, at);
    if Retried(win32, script(at)) {
      var s2 := Advance(win32, s1, script(at + 1));
      DriveStep(win32, s1, script, at + 1);
      if Retried(win32, script(at + 1)) {
        DriveStep(win32, s2, script, at + 2);
      }
    }
  }

  /**
   * For every sequence of call outcomes: a write returns normally if and only if writing, hardening and the last
   * rename tried succeed; otherwise its report follows from how the cleanup calls end.
   */
  lemma WriteReportsExactly(win32: bool, content: Bytes, temp: Option<Bytes>, script: nat -> Outcome)
    ensures Drive(win32, Local(Fresh(content), temp), script, 0).w.pc == Finished(
      if Succeeds(win32, script) then Returned
      else Reported(script, CleanupAt(win32, script), script(0).Done? && script(1).Done?))
  {
    hide Drive, Reported, Renames;
    var s := Local(Fresh(content), temp);
    var s1 := Advance(win32, s, script(0));
    DriveStep(win32, s, script, 0);
    if !script(0).Done? {
      CleanupReports(win32, s1, script, 1);
    } else {
      var s2 := Advance(win32, s1, script(1));
      DriveStep(win32, s1, script, 1);
      if !script(1).Done? {
        CleanupReports(win32, s2, script, 2);
      } else {
        var n := Renames(win32, script, 2);
        RenamingDecides(win32, s2, script, 2);
        var pc := if script(1 + n).Done? then Finished(Returned) else Truncating;
        var t: Local :| t.w == s2.w.(pc := pc) && Drive(win32, s2, script, 2) == Drive(win32, t, script, 2 + n);
        if script(1 + n).Done? {
          FinishedStays(win32, t, script, 2 + n);
        } else {
          CleanupReports(win32, t, script, 2 + n);
        }
      }
    }
  }

  /** The file calls a write makes; each takes its outcome from the script. */
  class FileIO {
    const win32: bool
    const script: nat -> Outcome
    var at: nat
    var temp: Option<Bytes>

    constructor (win32: bool, script: nat -> Outcome, temp: Option<Bytes>)
      ensures this.win32 == win32 && this.script == script && this.temp == temp && at == 0
    {
      this.win32, this.script, this.temp, at := win32, script, temp, 0;
    }

    method Write(content: Bytes) returns (o: Outcome)
      modifies this
      ensures o == script(old(at)) && at == old(at) + 1
      ensures temp == if o.Done? then Some(content) else o.left
    {
      o := script(at);
      at := at + 1;
      temp := if o.Done? then Some(content) else o.left;
    }

    method Harden() returns (o: Outcome)
      modifies this
      ensures o == script(old(at)) && at == old(at) + 1 && temp == old(temp)
    {
      o := script(at);
      at := at + 1;
    }

    method Truncate() returns (o: Outcome)
      modifies this
      ensures o == script(old(at)) && at == old(at) + 1
      ensures temp == if o.Done? then Some([]) else old(temp)
    {
      o := script(at);
      at := at + 1;
      if o.Done? { temp := Some([]); }
    }

    /** Removes the temporary name, by unlinking it or by renaming it away. */
    method Detach() returns (o: Outcome)
      modifies this
      ensures o == script(old(at)) && at == old(at) + 1
      ensures temp == if o.Done? then None else old(temp)
    {
      o := script(at);
      at := at + 1;
      if o.Done? { temp := None; }
    }

    /** Renames with up to two retries while Windows holds a lock. */
    method RenameAtomicFile(ghost s: Local) returns (done: bool)
      requires s.w.pc == Renaming(0) && s.temp == temp
      modifies this
      ensures var pc := if done then Finished(Returned) else Truncating;
        && Drive(win32, s, script, old(at)) == Drive(win32, Local(s.w.(pc := pc), temp), script, at)
    {
      var attempt: nat := 0;
      while true
        invariant attempt <= RENAME_RETRIES
        invariant temp == s.temp
        invariant Drive(win32, s, script, old(at)) == Drive(win32, Local(s.w.(pc := Renaming(attempt)), temp), script, at)
        decreases RENAME_RETRIES - attempt
      {
        var o := Detach();
        if o.Done? { return true; }
        if !(win32 && o.code.Locked?) || attempt >= RENAME_RETRIES { return false; }
        attempt := attempt + 1;
      }
    }

    /** Truncates the temporary file, or failing that overwrites it with nothing. */
    method Scrub(ghost s: Local) returns (scrubbed: bool)
      requires s.w.pc == Truncating && s.temp == temp && !s.w.scrubbed
      modifies this
      ensures Drive(win32, s, script, old(at))
           == Drive(win32, Local(s.w.(pc := Removing, scrubbed := scrubbed), temp), script, at)
    {
      scrubbed := false;
      var o := Truncate();
      if o.Done? || o.code.Missing? {
        scrubbed := true;
      } else {
        var again := Write([]);
        if again.Done? { scrubbed := true; }
      }
    }

    /** The guarded part: write, harden, rename. */
    method Replace(content: Bytes) returns (done: bool, hardened: bool)
      modifies this
      ensures Drive(win32, Local(Fresh(content), old(temp)), script, old(at))
           == Drive(win32, Local(Writer(content, if done then Finished(Returned) else Truncating, hardened, false), temp), script, at)
    {
      ghost var s := Local(Fresh(content), temp);
      hardened, done := false, false;
      var o := Write(content);
      s := Advance(win32, s, o);
      if o.Done? {
        o := Harden();
        s := Advance(win32, s, o);
        if o.Done? {
          hardened := true;
          done := RenameAtomicFile(s);
        }
      }
    }

    /** Removes the scrubbed file, or reports what is left of it. */
    method Remove(ghost s: Local, scrubbed: bool, hardened: bool) returns (result: Result)
      requires s.w.pc == Removing && s.temp == temp && s.w.scrubbed == scrubbed && s.w.hardened == hardened
      modifies this
      ensures var end := Drive(win32, s, script, old(at)); end.w.pc == Finished(result) && end.temp == temp
    {
      var o := Detach();
      ghost var t := Advance(win32, s, o);
      assert Drive(win32, s, script, old(at)) == Drive(win32, t, script, at);
      if o.Done? || o.code.Missing? { return Rethrown; }
      o := Detach();
      t := Advance(win32, t, o);
      assert Drive(win32, s, script, old(at)) == Drive(win32, t, script, at);
      if o.Done? || o.code.Missing? { return Rethrown; }
      if !scrubbed { return SecretResidual; }
      if !hardened {
        o := Harden();
        t := Advance(win32, t, o);
        assert Drive(win32, s, script, old(at)) == Drive(win32, t, script, at);
        return Residual(o.Done?);
      }
      return Residual(true);
    }

    method AtomicWriteFile(content: Bytes) returns (result: Result)
      modifies this
      ensures var end := Drive(win32, Local(Fresh(content), old(temp)), script, old(at));
        end.w.pc == Finished(result) && end.temp == temp
    {
      var done, hardened := Replace(content);
      if done { return Returned; }
      hide Drive;
      var scrubbed := Scrub(Local(Writer(content, Truncating, hardened, false), temp));
      result := Remove(Local(Writer(content, Removing, hardened, scrubbed), temp), scrubbed, hardened);
    }
  }

  // ---------------------------------------------------------------------------
  // Many writers, one destination
  // ---------------------------------------------------------------------------

  /** All writers with their own temporary files; `renamed` lists the successful ones in order. */
  datatype System = System(win32: bool, dst: Option<Bytes>, locals: seq<Local>, ghost renamed: seq<nat>)

  datatype Move = Move(writer: nat, outcome: Outcome)

  ghost predicate Legal(sys: System, m: Move) {
    m.writer < |sys.locals| && Honest(sys.locals[m.writer], m.outcome)
  }

  /** One I/O call of one writer; a rename that succeeds replaces the destination. */
  ghost function Act(sys: System, m: Move): System
    requires m.writer < |sys.locals|
  {
    var s := sys.locals[m.writer];
    var moved := sys.(locals := sys.locals[m.writer := Advance(sys.win32, s, m.outcome)]);
    if s.w.pc.Renaming? && m.outcome.Done?
    then moved.(dst := s.temp, renamed := sys.renamed + [m.writer]) else moved
  }

  ghost predicate Start(sys: System) {
    && sys.renamed == []
    && forall i :: 0 <= i < |sys.locals| ==>
         var w := sys.locals[i].w; w.pc.Writing? && !w.hardened && !w.scrubbed
  }

  /** The run of a schedule is legal from a state. */
  ghost predicate LegalRun(sys: System, moves: seq<Move>)
    decreases moves
  {
    moves == [] || (Legal(sys, moves[0]) && LegalRun(Act(sys, moves[0]), moves[1..]))
  }

  ghost function RunAll(sys: System, moves: seq<Move>): System
    requires LegalRun(sys, moves)
    decreases moves
  {
    if moves == [] then sys else RunAll(Act(sys, moves[0]), moves[1..])
  }

  ghost predicate Inv(initial: Option<Bytes>, sys: System) {
    && (forall i :: 0 <= i < |sys.locals| ==> LocalInv(sys.locals[i]))
    && Distinct(sys.renamed)
    && (forall i :: i in sys.renamed <==> 0 <= i < |sys.locals| && sys.locals[i].w.pc == Finished(Returned))
    && sys.dst == if sys.renamed == [] then initial else Some(LastContent(sys))
  }

  ghost function LastContent(sys: System): Bytes
    requires sys.renamed != []
  {
    var last := sys.renamed[|sys.renamed| - 1];
    if last < |sys.locals| then sys.locals[last].w.content else []
  }

  lemma ActKeeps(initial: Option<Bytes>, sys: System, m: Move)
    requires Inv(initial, sys) && Legal(sys, m)
    ensures Inv(initial, Act(sys, m))
    ensures forall i :: 0 <= i < |sys.locals| ==> Act(sys, m).locals[i].w.content == sys.locals[i].w.content
  {
    var s, next := sys.locals[m.writer], Act(sys, m);
    AdvanceKeeps(sys.win32, s, m.outcome);
    Finishing(sys.win32, s, m.outcome);
    hide LocalInv, Advance, Honest;
    if s.w.pc.Renaming? && m.outcome.Done? {
      assert next.renamed == sys.renamed + [m.writer];
      assert m.writer !in sys.renamed;
    }
  }

  /** Only a successful rename finishes a write normally, and it renames the whole content. */
  lemma Finishing(win32: bool, s: Local, o: Outcome)
    requires LocalInv(s)
    ensures var next := Advance(win32, s, o);
      && next.w.content == s.w.content
      && (s.w.pc.Renaming? ==> s.temp == Some(s.w.content) && s.w.pc != Finished(Returned))
      && (next.w.pc == Finished(Returned) <==> s.w.pc == Finished(Returned) || (s.w.pc.Renaming? && o.Done?))
  {
  }

  /** Each successful write replaced the destination once, atomically, in the order of `renamed`. */
  ghost predicate Atomic(initial: Option<Bytes>, before: System, after: System) {
    && |after.locals| == |before.locals|
    && (after.dst == initial || exists i :: 0 <= i < |after.locals| && after.dst == Some(before.locals[i].w.content))
    && forall i :: 0 <= i < |after.locals| ==> Outcomes(before.locals[i], after.locals[i])
  }

  /** What a caller may conclude from how its call ended. */
  ghost predicate Outcomes(before: Local, after: Local) {
    && after.w.content == before.w.content
    && (after.w.pc == Finished(Returned) ==> after.temp.None?)
    && (after.w.pc == Finished(Rethrown) ==> after.temp.None?)
    && (after.w.pc.Finished? && after.w.pc.result.Residual? ==> Blank(after.temp))
    && (after.w.pc == Finished(SecretResidual) ==> !after.w.scrubbed)
  }

  /**
   * At every moment of every interleaving the destination holds its old bytes or one writer's
   * full content; a write that returned was renamed, a rethrown cause means the temporary file
   * is gone, and a residual one is absent or empty.
   */
  lemma {:induction false} WritesAreAtomic(sys: System, moves: seq<Move>)
    requires Start(sys) && LegalRun(sys, moves)
    ensures Inv(sys.dst, RunAll(sys, moves)) && Atomic(sys.dst, sys, RunAll(sys, moves))
  {
    StartHolds(sys);
    RunKeeps(sys.dst, sys, moves);
    hide LocalInv;
    InvIsAtomic(sys.dst, sys, RunAll(sys, moves));
  }

  lemma StartHolds(sys: System)
    requires Start(sys)
    ensures Inv(sys.dst, sys)
  {
  }

  lemma {:induction false} RunKeeps(initial: Option<Bytes>, sys: System, moves: seq<Move>)
    requires Inv(initial, sys) && LegalRun(sys, moves)
    ensures var after := RunAll(sys, moves);
      && Inv(initial, after) && |after.locals| == |sys.locals|
      && forall i :: 0 <= i < |sys.locals| ==> after.locals[i].w.content == sys.locals[i].w.content
    decreases moves
  {
    hide Inv, Honest, Act;
    if moves != [] {
      ActKeeps(initial, sys, moves[0]);
      SameCount(sys, moves[0]);
      RunKeeps(initial, Act(sys, moves[0]), moves[1..]);
    }
  }

  lemma SameCount(sys: System, m: Move)
    requires Legal(sys, m)
    ensures |Act(sys, m).locals| == |sys.locals|
  {
  }

  lemma InvIsAtomic(initial: Option<Bytes>, before: System, after: System)
    requires Inv(initial, after) && |after.locals| == |before.locals|
    requires forall i :: 0 <= i < |before.locals| ==> after.locals[i].w.content == before.locals[i].w.content
    ensures Atomic(initial, before, after)
  {
    forall i | 0 <= i < |after.locals| ensures Outcomes(before.locals[i], after.locals[i]) {
      assert LocalInv(after.locals[i]);
    }
    hide LocalInv, Outcomes;
    if after.renamed != [] {
      var last := after.renamed[|after.renamed| - 1];
      assert last in after.renamed;
      assert after.dst == Some(before.locals[last].w.content);
    }
  }
}
