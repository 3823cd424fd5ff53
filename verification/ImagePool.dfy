/**
 * The first pass of `normalizeImageTargets`: up to four workers share an index queue, the cache
 * and the targets. Between any two awaits of one worker the others may run, and other requests
 * may change the module-level cache.
 */
module ImagePool {
  import opened Prelude
  import opened ImageCache
  import opened ImageLadder

  const CONCURRENCY: nat := 4
  const MAX_INPUT_BASE64_LENGTH: nat := 64 * 1024 * 1024
  const MAX_INPUT_PIXELS: nat := 100_000_000
  const TIER0_COUNT: nat := 6
  const TIER1_COUNT: nat := 14

  datatype Source = Source(base64: Option<Str>, media: Str)
  datatype Note = Undecodable | Bomb | Overflow
  datatype Wire = Untouched | Replaced(image: Encoded) | Dropped(note: Note)
  datatype Entry = Entry(b64: Str, media: Str, pos: nat, size: nat, done: bool)

  /** One call: its codec, its targets (oldest first), the bias, the limit and which `replace` callbacks throw. */
  datatype Job = Job(env: Codec, sources: seq<Source>, bias: int, limit: Option<nat>, throws: nat -> bool)

  function InitialPosition(newestFirst: nat, bias: int): (pos: nat)
    ensures pos <= TERMINAL_POS
  {
    var base := if newestFirst < TIER0_COUNT then 0 else if newestFirst < TIER0_COUNT + TIER1_COUNT then 1 else 2;
    var shifted := base + (if bias > 0 then bias else 0);
    if shifted < TERMINAL_POS then shifted else TERMINAL_POS
  }

  function Payload(job: Job, i: nat): Str
    requires i < |job.sources|
  {
    if job.sources[i].base64.Some? then job.sources[i].base64.value else []
  }

  function StartPos(job: Job, i: nat): (pos: nat)
    requires i < |job.sources|
    ensures pos <= TERMINAL_POS
  {
    InitialPosition(|job.sources| - 1 - i, job.bias)
  }

  predicate Skipped(job: Job, i: nat)
    requires i < |job.sources|
  {
    Payload(job, i) == [] || (job.limit.Some? && |job.sources| - 1 - i >= job.limit.value)
  }

  predicate IsBomb(job: Job, i: nat)
    requires i < |job.sources|
  {
    var d := job.env.dims(Payload(job, i));
    |Payload(job, i)| > MAX_INPUT_BASE64_LENGTH || (d.Some? && d.value.width * d.value.height > MAX_INPUT_PIXELS)
  }

  /** Neither untouched by rule nor refused: the image goes down the ladder. */
  predicate Eligible(job: Job, i: nat)
    requires i < |job.sources|
  {
    !Skipped(job, i) && !IsBomb(job, i)
  }

  function ResultFor(job: Job, i: nat): Processed
    requires i < |job.sources|
  {
    ProcessAt(job.env, Payload(job, i), job.sources[i].media, StartPos(job, i))
  }

  /** The `replace` callback of target i is called and throws. */
  predicate Throws(job: Job, i: nat)
    requires i < |job.sources|
  {
    Eligible(job, i) && ResultFor(job, i).result.Reencoded? && job.throws(i)
  }

  function EntryOf(job: Job, i: nat, r: Processed): Option<Entry>
    requires i < |job.sources|
  {
    match r.result
    case Failed => None
    case PassThrough(n) => Some(Entry(Payload(job, i), job.sources[i].media, r.pos, |Payload(job, i)|, r.pos >= TERMINAL_POS))
    case Reencoded(image) =>
      if job.throws(i) then None
      else Some(Entry(Payload(job, i), job.sources[i].media, r.pos, |image.data|, r.pos >= TERMINAL_POS))
  }

  function WireOf(job: Job, i: nat, r: Processed): Wire {
    match r.result
    case Failed => Dropped(Undecodable)
    case PassThrough(_) => Untouched
    case Reencoded(image) => if job.throws(i) then Untouched else Replaced(image)
  }

  /** What a sequential pass with an empty cache leaves for target i. */
  function FinalEntry(job: Job, i: nat): Option<Entry>
    requires i < |job.sources|
  {
    if Eligible(job, i) then EntryOf(job, i, ResultFor(job, i)) else None
  }

  function FinalWire(job: Job, i: nat): Wire
    requires i < |job.sources|
  {
    if Eligible(job, i) then WireOf(job, i, ResultFor(job, i))
    else if Skipped(job, i) then Untouched else Dropped(Bomb)
  }

  // ---------------------------------------------------------------------------
  // Workers
  // ---------------------------------------------------------------------------

  datatype Worker =
    | Idle
    | Stopped
    | Looking(i: nat, pos: nat)
    | Validating(i: nat, pos: nat)
    | Encoding(i: nat, pos: nat, q: nat, last: Option<Encoded>)
    | Delivering(i: nat, r: Processed)

  datatype Pool = Pool(slots: seq<Slot>, next: nat, failed: bool, workers: seq<Worker>,
                       entries: seq<Option<Entry>>, wires: seq<Wire>)

  datatype Act = Work(w: nat) | Interfere(slots: seq<Slot>)

  function Begin(job: Job, slots: seq<Slot>): Pool {
    var n := |job.sources|;
    Pool(slots, 0, false, seq(if n < CONCURRENCY then n else CONCURRENCY, _ => Idle),
         seq(n, _ => None), seq(n, _ => Untouched))
  }

  function SetWorker(s: Pool, w: nat, k: Worker): Pool
    requires w < |s.workers|
  {
    s.(workers := s.workers[w := k])
  }

  predicate Shaped(job: Job, s: Pool) {
    |s.entries| == |s.wires| == |job.sources|
  }

  predicate InRange(job: Job, k: Worker) {
    match k
    case Idle => true
    case Stopped => true
    case Looking(i, pos) => i < |job.sources|
    case Validating(i, pos) => i < |job.sources|
    case Encoding(i, pos, q, _) => i < |job.sources| && pos <= TERMINAL_POS && q <= |TIERS[pos].qualities|
    case Delivering(i, _) => i < |job.sources|
  }

  /** The top of the worker loop: claim the next index, or stop. */
  function Claim(job: Job, s: Pool, w: nat): Pool
    requires Shaped(job, s) && w < |s.workers|
  {
    if s.failed then SetWorker(s, w, Stopped)
    else
      var i := s.next;
      var s1 := s.(next := s.next + 1);
      if i >= |job.sources| then SetWorker(s1, w, Stopped)
      else if Skipped(job, i) then s1
      else if IsBomb(job, i) then s1.(wires := s1.wires[i := Dropped(Bomb)])
      else if !job.env.decodable(Payload(job, i)) then
        SetWorker(s1, w, Delivering(i, Processed(Failed, StartPos(job, i))))
      else SetWorker(s1, w, Looking(i, StartPos(job, i)))
  }

  /** What a busy worker does next to the cache and to itself, up to its next await. */
  datatype Move = Move(slots: seq<Slot>, worker: Worker)

  /** One cache lookup. */
  function Look(job: Job, slots: seq<Slot>, i: nat, pos: nat): Move
    requires i < |job.sources|
  {
    if pos > TERMINAL_POS then Move(slots, Delivering(i, Processed(Failed, TERMINAL_POS)))
    else
      var b64, media := Payload(job, i), job.sources[i].media;
      var key := KeyFor(job.env, b64, media, pos);
      Move(Touch(slots, key), AfterLook(job, Find(slots, key), i, pos))
  }

  function AfterLook(job: Job, hit: Option<Value>, i: nat, pos: nat): Worker
    requires i < |job.sources| && pos <= TERMINAL_POS
  {
    match hit
    case Some(Pass) => Delivering(i, Processed(PassThrough(|Payload(job, i)|), pos))
    case Some(Miss) => Looking(i, pos + 1)
    case Some(Picture(data, kind)) => Delivering(i, Processed(Reencoded(Encoded(data, kind)), pos))
    case None =>
      if PassesThrough(job.env, Payload(job, i), job.sources[i].media, pos) then Validating(i, pos)
      else Encoding(i, pos, 0, None)
  }

  function Store(job: Job, slots: seq<Slot>, i: nat, pos: nat, value: Value): seq<Slot>
    requires i < |job.sources|
  {
    Put(slots, KeyFor(job.env, Payload(job, i), job.sources[i].media, pos), value)
  }

  function Validate(job: Job, slots: seq<Slot>, i: nat, pos: nat): Move
    requires i < |job.sources|
  {
    if !job.env.validate(Payload(job, i)) then Move(slots, Delivering(i, Processed(Failed, pos)))
    else Move(Store(job, slots, i, pos, Pass), Delivering(i, Processed(PassThrough(|Payload(job, i)|), pos)))
  }

  /** One `await encode`, or what follows the last of them. */
  function Encode(job: Job, slots: seq<Slot>, i: nat, pos: nat, q: nat, last: Option<Encoded>): Move
    requires i < |job.sources| && pos <= TERMINAL_POS && q <= |TIERS[pos].qualities|
  {
    if q == |TIERS[pos].qualities| then
      if pos == TERMINAL_POS && last.Some? then
        Move(Store(job, slots, i, pos, Picture(last.value.data, last.value.media)),
             Delivering(i, Processed(Reencoded(last.value), pos)))
      else Move(Store(job, slots, i, pos, Miss), Looking(i, pos + 1))
    else
      var made := job.env.encode(Payload(job, i), pos, TIERS[pos].qualities[q]);
      if made.None? then Move(slots, Delivering(i, Processed(Failed, pos)))
      else if Within(|made.value.data|, TIERS[pos].hardCap) then
        Move(Store(job, slots, i, pos, Picture(made.value.data, made.value.media)),
             Delivering(i, Processed(Reencoded(made.value), pos)))
      else Move(slots, Encoding(i, pos, q + 1, made))
  }

  /** The awaited result reaches the target and its entry; a throwing `replace` fails the pool. */
  function Deliver(job: Job, s: Pool, w: nat, i: nat, r: Processed): Pool
    requires Shaped(job, s) && w < |s.workers| && i < |job.sources|
  {
    var s1 := s.(entries := s.entries[i := EntryOf(job, i, r)], wires := s.wires[i := WireOf(job, i, r)]);
    if r.result.Reencoded? && job.throws(i) then SetWorker(s1.(failed := true), w, Stopped)
    else SetWorker(s1, w, Idle)
  }

  // ---------------------------------------------------------------------------
  // The invariant
  // ---------------------------------------------------------------------------

  predicate Busy(k: Worker) { !k.Idle? && !k.Stopped? }

  predicate InFlight(s: Pool, i: nat) {
    exists w :: 0 <= w < |s.workers| && Busy(s.workers[w]) && s.workers[w].i == i
  }

  function WalkOf(job: Job, i: nat, pos: nat): Processed
    requires i < |job.sources| && pos <= TERMINAL_POS + 1
  {
    Walk(job.env, Payload(job, i), job.sources[i].media, pos)
  }

  /** A busy worker holds a claimed, eligible image and has not strayed from the cacheless walk. */
  predicate OnTrack(job: Job, k: Worker) {
    match k
    case Idle => true
    case Stopped => true
    case Looking(i, pos) => i < |job.sources| && Eligible(job, i) && pos <= TERMINAL_POS + 1 && ResultFor(job, i) == WalkOf(job, i, pos)
    case Validating(i, pos) =>
      i < |job.sources| && Eligible(job, i) && pos <= TERMINAL_POS && ResultFor(job, i) == WalkOf(job, i, pos) &&
      PassesThrough(job.env, Payload(job, i), job.sources[i].media, pos)
    case Encoding(i, pos, q, last) =>
      i < |job.sources| && Eligible(job, i) && pos <= TERMINAL_POS && ResultFor(job, i) == WalkOf(job, i, pos) &&
      !PassesThrough(job.env, Payload(job, i), job.sources[i].media, pos) && q <= |TIERS[pos].qualities| &&
      Attempt(job.env, Payload(job, i), pos, 0, None) == Attempt(job.env, Payload(job, i), pos, q, last)
    case Delivering(i, r) => i < |job.sources| && Eligible(job, i) && r == ResultFor(job, i)
  }

  ghost predicate CacheOk(job: Job, slots: seq<Slot>) {
    UniqueKeys(slots) && Truthful(job.env, slots)
  }

  predicate WorkersOk(job: Job, s: Pool) {
    && (forall w :: 0 <= w < |s.workers| ==> OnTrack(job, s.workers[w]))
    && (forall w :: 0 <= w < |s.workers| && Busy(s.workers[w]) ==> s.workers[w].i < s.next)
    && (forall v, w :: 0 <= v < w < |s.workers| && Busy(s.workers[v]) && Busy(s.workers[w]) ==> s.workers[v].i != s.workers[w].i)
    && (forall w :: 0 <= w < |s.workers| && s.workers[w].Stopped? ==> s.failed || s.next >= |job.sources|)
  }

  /** Unclaimed and in-flight targets are untouched; every other one is exactly as a sequential pass leaves it. */
  predicate TargetsOk(job: Job, s: Pool) {
    Shaped(job, s) &&
    forall i :: 0 <= i < |job.sources| ==>
      if i >= s.next || InFlight(s, i) then s.entries[i].None? && s.wires[i] == Untouched
      else s.entries[i] == FinalEntry(job, i) && s.wires[i] == FinalWire(job, i) && (Throws(job, i) ==> s.failed)
  }

  ghost predicate Inv(job: Job, s: Pool) {
    CacheOk(job, s.slots) && WorkersOk(job, s) && TargetsOk(job, s)
  }

  /** The next move of a worker that is looking, validating or encoding. */
  function Advance(job: Job, slots: seq<Slot>, k: Worker): Move
    requires InRange(job, k) && Busy(k) && !k.Delivering?
  {
    match k
    case Looking(i, pos) => Look(job, slots, i, pos)
    case Validating(i, pos) => Validate(job, slots, i, pos)
    case Encoding(i, pos, q, last) => Encode(job, slots, i, pos, q, last)
  }

  /** One step of worker w, whatever it is doing. */
  function WorkStep(job: Job, s: Pool, w: nat): Pool {
    if !Shaped(job, s) || w >= |s.workers| || !InRange(job, s.workers[w]) then s
    else
      match s.workers[w]
      case Idle => Claim(job, s, w)
      case Stopped => s
      case Delivering(i, r) => Deliver(job, s, w, i, r)
      case _ =>
        var move := Advance(job, s.slots, s.workers[w]);
        SetWorker(s.(slots := move.slots), w, move.worker)
  }

  /** What may happen next: a worker runs, or another request leaves the cache in some truthful state. */
  ghost predicate Enabled(job: Job, s: Pool, a: Act) {
    match a
    case Work(w) => w < |s.workers|
    case Interfere(slots) => CacheOk(job, slots)
  }

  function Step(job: Job, s: Pool, a: Act): Pool {
    match a
    case Work(w) => WorkStep(job, s, w)
    case Interfere(slots) => s.(slots := slots)
  }

  lemma OnTrackInRange(job: Job, k: Worker)
    requires OnTrack(job, k)
    ensures InRange(job, k)
  {
  }

  /** Only what worker w holds, before or after, can change which indices are in flight. */
  lemma FlightFrame(s: Pool, r: Pool, w: nat, i: nat)
    requires |r.workers| == |s.workers| && w < |s.workers|
    requires forall v :: 0 <= v < |s.workers| && v != w ==> r.workers[v] == s.workers[v]
    requires (Busy(s.workers[w]) ==> s.workers[w].i == i) && (Busy(r.workers[w]) ==> r.workers[w].i == i)
    ensures forall x :: x != i ==> (InFlight(r, x) <==> InFlight(s, x))
  {
    forall x: nat | x != i ensures InFlight(r, x) <==> InFlight(s, x) {
      if InFlight(s, x) {
        var v :| 0 <= v < |s.workers| && Busy(s.workers[v]) && s.workers[v].i == x;
        assert Busy(r.workers[v]) && r.workers[v].i == x;
      }
      if InFlight(r, x) {
        var v :| 0 <= v < |r.workers| && Busy(r.workers[v]) && r.workers[v].i == x;
        assert Busy(s.workers[v]) && s.workers[v].i == x;
      }
    }
  }

  lemma BeginInv(job: Job, slots: seq<Slot>)
    requires CacheOk(job, slots)
    ensures Inv(job, Begin(job, slots))
  {
  }

  lemma StoreOk(job: Job, slots: seq<Slot>, i: nat, pos: nat, value: Value)
    requires CollisionFree(job.env) && CacheOk(job, slots) && i < |job.sources| && pos <= TERMINAL_POS
    requires Remembered(AtPosition(job.env, Payload(job, i), job.sources[i].media, pos)) == Some(value)
    ensures CacheOk(job, Store(job, slots, i, pos, value))
  {
    hide AtPosition;
    var key := KeyFor(job.env, Payload(job, i), job.sources[i].media, pos);
    PutTruthful(job.env, slots, Payload(job, i), job.sources[i].media, pos, value);
    PutFits(slots, key, value);
  }

  lemma AfterLookOk(job: Job, hit: Option<Value>, i: nat, pos: nat)
    requires OnTrack(job, Looking(i, pos)) && pos <= TERMINAL_POS
    requires hit.Some? ==> Remembered(AtPosition(job.env, Payload(job, i), job.sources[i].media, pos)) == hit
    ensures var k := AfterLook(job, hit, i, pos);
      OnTrack(job, k) && Busy(k) && k.i == i
  {
    hide PassesThrough, Attempt, Eligible;
  }

  lemma LookOk(job: Job, slots: seq<Slot>, i: nat, pos: nat)
    requires CacheOk(job, slots) && OnTrack(job, Looking(i, pos))
    ensures var m := Look(job, slots, i, pos);
      CacheOk(job, m.slots) && OnTrack(job, m.worker) && Busy(m.worker) && m.worker.i == i
  {
    hide Touch, Truthful, UniqueKeys, Find, AtPosition, AfterLook, Walk;
    if pos <= TERMINAL_POS {
      var b64, media := Payload(job, i), job.sources[i].media;
      var key := KeyFor(job.env, b64, media, pos);
      TouchKeeps(slots, key);
      TouchTruthful(job.env, slots, key);
      HitIsTrue(job.env, slots, b64, media, pos);
      AfterLookOk(job, Find(slots, key), i, pos);
    } else {
      WalkBelow(job, i);
    }
  }

  lemma WalkBelow(job: Job, i: nat)
    requires i < |job.sources|
    ensures WalkOf(job, i, TERMINAL_POS + 1) == Processed(Failed, TERMINAL_POS)
  {
  }

  lemma ValidateOk(job: Job, slots: seq<Slot>, i: nat, pos: nat)
    requires CollisionFree(job.env) && CacheOk(job, slots) && OnTrack(job, Validating(i, pos))
    ensures var m := Validate(job, slots, i, pos);
      CacheOk(job, m.slots) && OnTrack(job, m.worker) && Busy(m.worker) && m.worker.i == i
  {
    hide CacheOk, Store, PassesThrough, Attempt, CollisionFree;
    if job.env.validate(Payload(job, i)) {
      StoreOk(job, slots, i, pos, Pass);
    }
  }

  lemma EncodeOk(job: Job, slots: seq<Slot>, k: Worker)
    requires CollisionFree(job.env) && CacheOk(job, slots) && k.Encoding? && OnTrack(job, k)
    ensures var m := Encode(job, slots, k.i, k.pos, k.q, k.last);
      CacheOk(job, m.slots) && OnTrack(job, m.worker) && Busy(m.worker) && m.worker.i == k.i
  {
    hide CacheOk, Store, PassesThrough, CollisionFree;
    var i, pos, q := k.i, k.pos, k.q;
    var b64 := Payload(job, i);
    var o := AtPosition(job.env, b64, job.sources[i].media, pos);
    assert o == Attempt(job.env, b64, pos, q, k.last);
    if q == |TIERS[pos].qualities| {
      if pos == TERMINAL_POS && k.last.Some? {
        StoreOk(job, slots, i, pos, Picture(k.last.value.data, k.last.value.media));
      } else {
        StoreOk(job, slots, i, pos, Miss);
      }
    } else {
      var made := job.env.encode(b64, pos, TIERS[pos].qualities[q]);
      if made.Some? && Within(|made.value.data|, TIERS[pos].hardCap) {
        StoreOk(job, slots, i, pos, Picture(made.value.data, made.value.media));
      }
    }
  }

  lemma AdvanceOk(job: Job, slots: seq<Slot>, k: Worker)
    requires CollisionFree(job.env) && CacheOk(job, slots) && OnTrack(job, k) && Busy(k) && !k.Delivering?
    ensures var m := Advance(job, slots, k);
      CacheOk(job, m.slots) && OnTrack(job, m.worker) && Busy(m.worker) && m.worker.i == k.i
  {
    hide CacheOk, Look, Validate, Encode, CollisionFree, PassesThrough, Attempt, Eligible, ResultFor, WalkOf;
    match k {
      case Looking(i, pos) => LookOk(job, slots, i, pos);
      case Validating(i, pos) => ValidateOk(job, slots, i, pos);
      case Encoding(i, pos, q, last) => EncodeOk(job, slots, k);
    }
  }

  /** A worker that keeps its image and changes nothing but the cache. */
  lemma MovesOn(job: Job, s: Pool, w: nat, k: Worker, slots: seq<Slot>)
    requires Inv(job, s) && w < |s.workers| && Busy(s.workers[w])
    requires Busy(k) && k.i == s.workers[w].i && OnTrack(job, k) && CacheOk(job, slots)
    ensures Inv(job, SetWorker(s.(slots := slots), w, k))
  {
    hide OnTrack, FinalEntry, FinalWire, Throws, CacheOk;
    var r := SetWorker(s.(slots := slots), w, k);
    FlightFrame(s, r, w, k.i);
    assert InFlight(s, k.i) by { assert Busy(s.workers[w]); }
    assert InFlight(r, k.i) by { assert Busy(r.workers[w]); }
  }

  /** The workers after one of them claimed index i or stopped. */
  lemma ClaimWorkers(job: Job, s: Pool, w: nat)
    requires Inv(job, s) && w < |s.workers| && s.workers[w].Idle?
    ensures WorkersOk(job, Claim(job, s, w))
  {
    hide CacheOk, PassesThrough, Attempt, Walk, IsBomb, Skipped, TargetsOk, InFlight;
    assert Shaped(job, s) by { ShapeOf(job, s); }
    var r := Claim(job, s, w);
    assert OnTrack(job, r.workers[w]);
    hide OnTrack;
  }

  lemma ShapeOf(job: Job, s: Pool)
    requires TargetsOk(job, s)
    ensures Shaped(job, s)
  {
  }

  lemma NotYetInFlight(job: Job, s: Pool)
    requires WorkersOk(job, s)
    ensures !InFlight(s, s.next)
  {
    hide OnTrack;
  }

  /** A claimed target is settled by rule at once or taken up by exactly this worker. */
  lemma ClaimInv(job: Job, s: Pool, w: nat)
    requires Inv(job, s) && w < |s.workers| && s.workers[w].Idle?
    ensures Inv(job, Claim(job, s, w))
  {
    ClaimWorkers(job, s, w);
    var r := Claim(job, s, w);
    var i := s.next;
    hide CacheOk, WorkersOk, OnTrack, PassesThrough, ResultFor, EntryOf, WireOf, IsBomb;
    FlightFrame(s, r, w, i);
    if !s.failed && i < |job.sources| {
      NotYetInFlight(job, s);
      if Busy(r.workers[w]) {
        assert InFlight(r, i);
      } else {
        assert !InFlight(r, i);
      }
    } else {
      assert InFlight(r, i) <==> InFlight(s, i);
    }
  }

  lemma DeliverInv(job: Job, s: Pool, w: nat)
    requires Inv(job, s) && w < |s.workers| && s.workers[w].Delivering?
    requires OnTrack(job, s.workers[w])
    ensures Inv(job, Deliver(job, s, w, s.workers[w].i, s.workers[w].r))
  {
    hide CacheOk, PassesThrough, Attempt, Walk, IsBomb, Skipped, ProcessAt;
    var i := s.workers[w].i;
    var r := Deliver(job, s, w, i, s.workers[w].r);
    FlightFrame(s, r, w, i);
    assert InFlight(s, i);
    assert !InFlight(r, i);
  }

  lemma InterfereInv(job: Job, s: Pool, slots: seq<Slot>)
    requires Inv(job, s) && CacheOk(job, slots)
    ensures Inv(job, s.(slots := slots))
  {
    hide CacheOk, OnTrack, FinalEntry, FinalWire;
    assert forall i :: InFlight(s.(slots := slots), i) <==> InFlight(s, i);
  }

  lemma StepInv(job: Job, s: Pool, a: Act)
    requires CollisionFree(job.env) && Inv(job, s) && Enabled(job, s, a)
    ensures Inv(job, Step(job, s, a))
  {
    hide CacheOk, OnTrack, InRange, Claim, Deliver, Advance, InFlight, FinalEntry, FinalWire, CollisionFree;
    match a {
      case Interfere(slots) => InterfereInv(job, s, slots);
      case Work(w) =>
        assert OnTrack(job, s.workers[w]);
        OnTrackInRange(job, s.workers[w]);
        match s.workers[w] {
          case Idle => ClaimInv(job, s, w);
          case Stopped =>
          case Delivering(_, _) => DeliverInv(job, s, w);
          case _ =>
            AdvanceOk(job, s.slots, s.workers[w]);
            var move := Advance(job, s.slots, s.workers[w]);
            MovesOn(job, s, w, move.worker, move.slots);
        }
    }
  }

  // ---------------------------------------------------------------------------
  // The results
  // ---------------------------------------------------------------------------

  /** A run: states and actions, each enabled where it happens. */
  ghost predicate IsRun(job: Job, states: seq<Pool>, acts: seq<Act>) {
    && |states| == |acts| + 1
    && (exists slots :: CacheOk(job, slots) && states[0] == Begin(job, slots))
    && forall k :: 0 <= k < |acts| ==> Enabled(job, states[k], acts[k]) && states[k + 1] == Step(job, states[k], acts[k])
  }

  lemma {:induction false} RunInv(job: Job, states: seq<Pool>, acts: seq<Act>, k: nat)
    requires CollisionFree(job.env) && IsRun(job, states, acts) && k <= |acts|
    ensures Inv(job, states[k])
  {
    hide Inv, CollisionFree, CacheOk, Begin, Step, Enabled;
    if k == 0 {
      var slots :| CacheOk(job, slots) && states[0] == Begin(job, slots);
      BeginInv(job, slots);
    } else {
      RunInv(job, states, acts, k - 1);
      StepInv(job, states[k - 1], acts[k - 1]);
    }
  }

  /** The pool never grows or shrinks, so at most four images are in flight at any time. */
  lemma {:induction false} FixedPool(job: Job, states: seq<Pool>, acts: seq<Act>, k: nat)
    requires CollisionFree(job.env) && IsRun(job, states, acts) && k <= |acts|
    ensures |states[k].workers| == if |job.sources| < CONCURRENCY then |job.sources| else CONCURRENCY
  {
    hide CollisionFree, CacheOk, OnTrack, FinalEntry, FinalWire, Advance, Step, Inv, Enabled;
    if k > 0 {
      FixedPool(job, states, acts, k - 1);
      RunInv(job, states, acts, k - 1);
      ClaimsAreExclusive(job, states[k - 1], acts[k - 1]);
    }
  }

  /**
   * Confluence: whenever all workers have stopped without a failure, every target and every entry is
   * exactly what a sequential pass over an empty cache leaves, for every interleaving, every
   * eviction and every interference with the cache.
   */
  lemma PoolIsConfluent(job: Job, states: seq<Pool>, acts: seq<Act>, k: nat)
    requires CollisionFree(job.env) && IsRun(job, states, acts) && k <= |acts|
    requires job.sources != [] && (forall w :: 0 <= w < |states[k].workers| ==> states[k].workers[w].Stopped?)
    requires !states[k].failed
    ensures |states[k].entries| == |states[k].wires| == |job.sources|
    ensures forall i :: 0 <= i < |job.sources| ==>
      states[k].entries[i] == FinalEntry(job, i) && states[k].wires[i] == FinalWire(job, i) && !Throws(job, i)
  {
    hide CollisionFree, FinalEntry, FinalWire, CacheOk, OnTrack, Step, Enabled;
    RunInv(job, states, acts, k);
    FixedPool(job, states, acts, k);
    var s := states[k];
    assert s.workers[0].Stopped?;
    assert forall i :: !InFlight(s, i);
  }

  /**
   * Claims: a step takes at most one index, always the next one, for a worker that held none; two
   * workers never hold the same index; and once a `replace` has thrown no index is claimed at all.
   */
  lemma ClaimsAreExclusive(job: Job, s: Pool, a: Act)
    requires CollisionFree(job.env) && Inv(job, s) && Enabled(job, s, a)
    ensures var r := Step(job, s, a);
      && |r.workers| == |s.workers|
      && (s.failed ==> r.failed && r.next == s.next)
      && s.next <= r.next <= s.next + 1
      && (r.next == s.next + 1 ==> a.Work? && s.workers[a.w].Idle? && !InFlight(s, s.next))
      && (forall v, w :: 0 <= v < w < |r.workers| && Busy(r.workers[v]) && Busy(r.workers[w]) ==> r.workers[v].i != r.workers[w].i)
  {
    hide CollisionFree, CacheOk, OnTrack, FinalEntry, FinalWire, Advance;
    StepInv(job, s, a);
  }

  // ---------------------------------------------------------------------------
  // Progress
  // ---------------------------------------------------------------------------

  /** An upper bound of the steps one worker takes before it is idle again. */
  function Rank(k: Worker): nat {
    match k
    case Stopped => 0
    case Idle => 1
    case Delivering(_, _) => 2
    case Looking(_, pos) => if pos <= TERMINAL_POS then 10 + 8 * (TERMINAL_POS + 1 - pos) else 10
    case Validating(_, pos) => if pos <= TERMINAL_POS then 9 + 8 * (TERMINAL_POS + 1 - pos) else 10
    case Encoding(_, pos, q, _) => if pos <= TERMINAL_POS && q <= 4 then 7 + 8 * (TERMINAL_POS + 1 - pos) - q else 10
  }

  const MOST_STEPS: nat := 58

  function Ranks(workers: seq<Worker>): nat {
    if workers == [] then 0 else Rank(workers[0]) + Ranks(workers[1..])
  }

  function Unclaimed(job: Job, s: Pool): nat {
    if s.next < |job.sources| then |job.sources| - s.next else 0
  }

  /** What is left to do: the unclaimed images, and what the workers have in hand. */
  function Remaining(job: Job, s: Pool): nat {
    MOST_STEPS * Unclaimed(job, s) + Ranks(s.workers)
  }

  lemma {:induction false} RanksUpdate(workers: seq<Worker>, w: nat, k: Worker)
    requires w < |workers|
    ensures Ranks(workers[w := k]) + Rank(workers[w]) == Ranks(workers) + Rank(k)
  {
    hide Rank;
    if w == 0 {
      assert workers[0 := k][1..] == workers[1..];
    } else {
      assert workers[w := k][1..] == workers[1..][w - 1 := k];
      RanksUpdate(workers[1..], w - 1, k);
    }
  }

  /** A busy worker that moves has less left of its image. */
  lemma AdvanceRanks(job: Job, slots: seq<Slot>, k: Worker)
    requires OnTrack(job, k) && InRange(job, k) && Busy(k) && !k.Delivering?
    ensures Rank(Advance(job, slots, k).worker) < Rank(k)
  {
    hide Eligible, ProcessAt, Walk, Attempt, PassesThrough, Find, Touch, Store;
    assert forall pos :: 0 <= pos <= TERMINAL_POS ==> |TIERS[pos].qualities| <= 4;
  }

  lemma ClaimRanks(job: Job, s: Pool, w: nat)
    requires Shaped(job, s) && w < |s.workers| && s.workers[w].Idle?
    ensures Remaining(job, Claim(job, s, w)) < Remaining(job, s)
  {
    hide Skipped, IsBomb, Ranks;
    var r := Claim(job, s, w);
    RanksUpdate(s.workers, w, r.workers[w]);
    assert r.workers == s.workers[w := r.workers[w]];
    assert Rank(r.workers[w]) <= MOST_STEPS;
  }

  /** Every step of a worker that has not stopped leaves less to do; interference changes nothing. */
  lemma StepRanks(job: Job, s: Pool, a: Act)
    requires Inv(job, s) && Enabled(job, s, a)
    ensures Remaining(job, Step(job, s, a)) <= Remaining(job, s)
    ensures a.Work? && !s.workers[a.w].Stopped? ==> Remaining(job, Step(job, s, a)) < Remaining(job, s)
  {
    hide CacheOk, OnTrack, InRange, Claim, Advance, InFlight, FinalEntry, FinalWire, Ranks, Rank;
    if a.Work? && !s.workers[a.w].Stopped? {
      var k := s.workers[a.w];
      assert OnTrack(job, k);
      OnTrackInRange(job, k);
      if k.Idle? {
        ClaimRanks(job, s, a.w);
      } else if k.Delivering? {
        DeliveringInRange(job, k);
        var after := Deliver(job, s, a.w, k.i, k.r);
        RanksUpdate(s.workers, a.w, after.workers[a.w]);
        DeliveredRank(k, after.workers[a.w]);
      } else {
        AdvanceRanks(job, s.slots, k);
        RanksUpdate(s.workers, a.w, Advance(job, s.slots, k).worker);
      }
    }
  }

  lemma DeliveringInRange(job: Job, k: Worker)
    requires InRange(job, k) && k.Delivering?
    ensures k.i < |job.sources|
  {
  }

  lemma DeliveredRank(k: Worker, after: Worker)
    requires k.Delivering? && (after.Idle? || after.Stopped?)
    ensures Rank(after) < Rank(k)
  {
  }

  /** How many of the first `k` actions let a worker run that had not stopped. */
  function WorkDone(states: seq<Pool>, acts: seq<Act>, k: nat): nat
    requires k <= |acts| && |states| == |acts| + 1
  {
    if k == 0 then 0
    else
      var s, a := states[k - 1], acts[k - 1];
      WorkDone(states, acts, k - 1) + (if a.Work? && a.w < |s.workers| && !s.workers[a.w].Stopped? then 1 else 0)
  }

  /**
   * Progress: in every run the workers together take at most 58 steps an image and one more each,
   * whatever the interleaving and the interference; so a schedule that keeps running workers stops
   * them all.
   */
  lemma {:induction false} WorkIsBounded(job: Job, states: seq<Pool>, acts: seq<Act>, k: nat)
    requires CollisionFree(job.env) && IsRun(job, states, acts) && k <= |acts|
    ensures WorkDone(states, acts, k) + Remaining(job, states[k]) <= MOST_STEPS * |job.sources| + CONCURRENCY
    ensures WorkDone(states, acts, k) == MOST_STEPS * |job.sources| + CONCURRENCY ==>
      forall w :: 0 <= w < |states[k].workers| ==> states[k].workers[w].Stopped?
  {
    hide CollisionFree, CacheOk, Begin, Step, Enabled, Inv, Rank;
    if k == 0 {
      var slots :| CacheOk(job, slots) && states[0] == Begin(job, slots);
      BeginRanks(job, slots);
    } else {
      WorkIsBounded(job, states, acts, k - 1);
      RunInv(job, states, acts, k - 1);
      StepRanks(job, states[k - 1], acts[k - 1]);
    }
    NothingLeft(states[k].workers);
  }

  lemma BeginRanks(job: Job, slots: seq<Slot>)
    ensures Remaining(job, Begin(job, slots)) <= MOST_STEPS * |job.sources| + CONCURRENCY
  {
    IdleRanks(Begin(job, slots).workers);
  }

  lemma {:induction false} IdleRanks(workers: seq<Worker>)
    requires forall w :: 0 <= w < |workers| ==> workers[w].Idle?
    ensures Ranks(workers) == |workers|
  {
    if workers != [] { IdleRanks(workers[1..]); }
  }

  lemma {:induction false} NothingLeft(workers: seq<Worker>)
    ensures Ranks(workers) == 0 ==> forall w :: 0 <= w < |workers| ==> workers[w].Stopped?
  {
    if workers != [] {
      NothingLeft(workers[1..]);
      assert Rank(workers[0]) == 0 <==> workers[0].Stopped? by { OnlyStoppedIsZero(workers[0]); }
      if Ranks(workers) == 0 {
        forall w | 0 <= w < |workers| ensures workers[w].Stopped? {
          if w > 0 { assert workers[w] == workers[1..][w - 1]; }
        }
      }
    }
  }

  lemma OnlyStoppedIsZero(k: Worker)
    ensures Rank(k) == 0 <==> k.Stopped?
  {
  }
}
