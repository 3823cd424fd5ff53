/**
 * The aggregate budget of `normalizeImageTargets`: the demotion loop and the overflow drop.
 * Re-encoding may enlarge an image, so the tracked sum need not fall; the ladder positions do rise.
 */
module ImageBudget {
  import opened Prelude
  import opened ImageCache
  import opened ImageLadder
  import opened ImagePool

  function SizeOf(e: Option<Entry>): nat {
    if e.Some? then e.value.size else 0
  }

  /** How many ladder steps an entry can still be demoted. */
  function StepsLeft(e: Option<Entry>): nat {
    if e.Some? && !e.value.done && e.value.pos < TERMINAL_POS then TERMINAL_POS - e.value.pos else 0
  }

  function Sum(f: Option<Entry> -> nat, s: seq<Option<Entry>>): nat {
    if s == [] then 0 else f(s[0]) + Sum(f, s[1..])
  }

  function Total(s: seq<Option<Entry>>): nat {
    Sum(SizeOf, s)
  }

  lemma {:induction false} SumUpdate(f: Option<Entry> -> nat, s: seq<Option<Entry>>, k: nat, x: Option<Entry>)
    requires k < |s|
    ensures Sum(f, s[k := x]) + f(s[k]) == Sum(f, s) + f(x)
  {
    if k == 0 {
      assert s[0 := x][1..] == s[1..];
    } else {
      assert s[k := x][1..] == s[1..][k - 1 := x];
      SumUpdate(f, s[1..], k - 1, x);
    }
  }

  lemma {:induction false} SumOfNothing(s: seq<Option<Entry>>)
    requires forall i :: 0 <= i < |s| ==> s[i].None?
    ensures Total(s) == 0
  {
    if s != [] {
      SumOfNothing(s[1..]);
    }
  }

  /** The base64 bytes this target really carries. */
  function WireSize(e: Entry, w: Wire): nat {
    match w
    case Untouched => |e.b64|
    case Replaced(image) => |image.data|
    case Dropped(_) => 0
  }

  /** The replacement came from the ladder, at this position or above it. */
  ghost predicate CameFrom(env: Codec, e: Entry, image: Encoded) {
    exists q: nat :: q <= e.pos && q <= TERMINAL_POS && AtPosition(env, e.b64, e.media, q) == Made(image)
  }

  /** The last look let the source pass, but an earlier replacement is still on the wire. */
  predicate Overstated(env: Codec, e: Entry, w: Wire)
    requires e.pos <= TERMINAL_POS
  {
    w.Replaced? && PassesThrough(env, e.b64, e.media, e.pos)
  }

  /** An entry knows its position, and its tracked size is what its target carries unless it is overstated. */
  ghost predicate Tracked(env: Codec, e: Option<Entry>, w: Wire) {
    e.Some? ==>
      && e.value.pos <= TERMINAL_POS && e.value.done == (e.value.pos >= TERMINAL_POS)
      && !w.Dropped?
      && (if Overstated(env, e.value, w) then WireSize(e.value, w) < e.value.size else WireSize(e.value, w) == e.value.size)
      && (w.Replaced? ==> CameFrom(env, e.value, w.image))
  }

  // ---------------------------------------------------------------------------
  // Facts about the ladder
  // ---------------------------------------------------------------------------

  lemma {:induction false} WalkMade(env: Codec, b64: Str, media: Str, pos: nat)
    requires pos <= TERMINAL_POS + 1
    ensures var r := Walk(env, b64, media, pos);
      && (r.result.Reencoded? ==> AtPosition(env, b64, media, r.pos) == Made(r.result.image) && !PassesThrough(env, b64, media, r.pos))
      && (r.result.PassThrough? ==> PassesThrough(env, b64, media, r.pos) && r.result.b64Length == |b64|)
    decreases TERMINAL_POS + 1 - pos
  {
    hide PassesThrough, Attempt;
    if pos <= TERMINAL_POS && AtPosition(env, b64, media, pos).TooBig? {
      WalkMade(env, b64, media, pos + 1);
    }
  }

  /** Above the terminal position an encoding is only accepted under the hard cap. */
  lemma {:induction false} MadeFits(env: Codec, b64: Str, pos: nat, q: nat, last: Option<Encoded>)
    requires pos < TERMINAL_POS && q <= |TIERS[pos].qualities|
    ensures var o := Attempt(env, b64, pos, q, last);
      o.Made? ==> Within(|o.image.data|, TIERS[pos].hardCap)
    decreases |TIERS[pos].qualities| - q
  {
    if q < |TIERS[pos].qualities| {
      MadeFits(env, b64, pos, q + 1, env.encode(b64, pos, TIERS[pos].qualities[q]));
    }
  }

  /**
   * An image that was re-encoded at `q` and passes through at a later position (only the uncapped
   * terminal one can do that) was replaced by something smaller than its source.
   */
  lemma PassAfterEncode(env: Codec, b64: Str, media: Str, q: nat, p: nat, image: Encoded)
    requires q < p <= TERMINAL_POS && AtPosition(env, b64, media, q) == Made(image) && PassesThrough(env, b64, media, p)
    ensures |image.data| < |b64|
  {
    MadeFits(env, b64, q, 0, None);
    assert TIERS[q].maxEdge >= TIERS[p].maxEdge && TIERS[q].hardCap.Some?;
  }

  /** The result of demoting an entry one position or more. */
  function Demoted(e: Entry, r: Processed): Option<Entry> {
    match r.result
    case Failed => None
    case Reencoded(image) => Some(e.(size := |image.data|, pos := r.pos, done := r.pos >= TERMINAL_POS))
    case PassThrough(n) => Some(e.(size := n, pos := r.pos, done := r.pos >= TERMINAL_POS))
  }

  function DemotedWire(w: Wire, r: Processed): Wire {
    match r.result
    case Failed => Dropped(Undecodable)
    case Reencoded(image) => Replaced(image)
    case PassThrough(_) => w
  }

  lemma DemoteTracked(env: Codec, e: Entry, w: Wire)
    requires Tracked(env, Some(e), w) && !e.done
    ensures var r := ProcessAt(env, e.b64, e.media, e.pos + 1);
      Tracked(env, Demoted(e, r), DemotedWire(w, r)) && StepsLeft(Demoted(e, r)) < StepsLeft(Some(e))
  {
    hide AtPosition, PassesThrough;
    var r := ProcessAt(env, e.b64, e.media, e.pos + 1);
    WalkMade(env, e.b64, e.media, e.pos + 1);
    hide Walk;
    if r.result.Reencoded? {
      assert CameFrom(env, e.(size := |r.result.image.data|, pos := r.pos, done := r.pos >= TERMINAL_POS), r.result.image);
    } else if r.result.PassThrough? && w.Replaced? {
      var q: nat :| q <= e.pos && q <= TERMINAL_POS && AtPosition(env, e.b64, e.media, q) == Made(w.image);
      PassAfterEncode(env, e.b64, e.media, q, r.pos, w.image);
    }
  }

  /** What the first pass leaves is tracked. */
  lemma FirstPassTracked(job: Job, i: nat)
    requires i < |job.sources| && !Throws(job, i)
    ensures Tracked(job.env, FinalEntry(job, i), FinalWire(job, i))
  {
    hide AtPosition, PassesThrough;
    var r := ResultFor(job, i);
    WalkMade(job.env, Payload(job, i), job.sources[i].media, StartPos(job, i));
    hide Walk;
    if Eligible(job, i) && r.result.Reencoded? {
      var e := FinalEntry(job, i).value;
      assert CameFrom(job.env, e, r.result.image);
    }
  }

  /** Whatever interleaving the worker pool took, the demotion loop starts from tracked entries. */
  lemma PoolLeavesTracked(job: Job, states: seq<Pool>, acts: seq<ImagePool.Act>, k: nat)
    requires CollisionFree(job.env) && IsRun(job, states, acts) && k <= |acts| && job.sources != []
    requires (forall w :: 0 <= w < |states[k].workers| ==> states[k].workers[w].Stopped?) && !states[k].failed
    ensures AllTracked(job.env, states[k].entries, states[k].wires)
  {
    hide CollisionFree, Tracked, FinalEntry, FinalWire, Throws, Step, Enabled, CacheOk;
    PoolIsConfluent(job, states, acts, k);
    forall i | 0 <= i < |job.sources| ensures Tracked(job.env, states[k].entries[i], states[k].wires[i]) {
      FirstPassTracked(job, i);
    }
  }

  // ---------------------------------------------------------------------------
  // The loops
  // ---------------------------------------------------------------------------

  predicate Finished(e: Option<Entry>) {
    e.None? || e.value.done
  }

  /** Demotion works oldest first: before `f` everything is finished, after `f` nothing was touched. */
  predicate OldestFirst(before: seq<Option<Entry>>, beforeWires: seq<Wire>, after: seq<Option<Entry>>, wires: seq<Wire>, f: nat) {
    && |before| == |beforeWires| == |after| == |wires|
    && (forall i :: 0 <= i < f && i < |after| ==> Finished(after[i]))
    && (forall i :: f < i < |after| ==> after[i] == before[i] && wires[i] == beforeWires[i])
  }

  /** Entries and targets at one moment. */
  datatype Images = Images(entries: seq<Option<Entry>>, wires: seq<Wire>)

  /** Image k may be demoted: it can be, and every older one is finished. */
  predicate Due(s: Images, k: nat) {
    && k < |s.entries| && k < |s.wires| && !Finished(s.entries[k]) && s.entries[k].value.pos <= TERMINAL_POS
    && forall i :: 0 <= i < k ==> Finished(s.entries[i])
  }

  /** The demotion of image k. */
  function DemotedAt(env: Codec, s: Images, k: nat): Images
    requires Due(s, k)
  {
    var e := s.entries[k].value;
    var r := ProcessAt(env, e.b64, e.media, e.pos + 1);
    Images(s.entries[k := Demoted(e, r)], s.wires[k := DemotedWire(s.wires[k], r)])
  }

  /** Demoting the images of this list one after the other, each due at its turn, leads from one state to the other. */
  predicate DemotesTo(env: Codec, before: Images, order: seq<nat>, after: Images)
    decreases |order|
  {
    if order == [] then after == before
    else Due(before, order[0]) && DemotesTo(env, DemotedAt(env, before, order[0]), order[1..], after)
  }

  lemma NothingDemoted(env: Codec, s: Images)
    ensures DemotesTo(env, s, [], s)
  {
  }

  lemma {:induction false} DemotesOnce(env: Codec, before: Images, order: seq<nat>, mid: Images, k: nat)
    requires DemotesTo(env, before, order, mid) && Due(mid, k)
    ensures DemotesTo(env, before, order + [k], DemotedAt(env, mid, k))
    decreases |order|
  {
    hide Due, DemotedAt;
    if order == [] {
      assert order + [k] == [k] && [k][1..] == [];
    } else {
      assert (order + [k])[1..] == order[1..] + [k] && (order + [k])[0] == order[0];
      DemotesOnce(env, DemotedAt(env, before, order[0]), order[1..], mid, k);
    }
  }

  ghost predicate AllTracked(env: Codec, entries: seq<Option<Entry>>, wires: seq<Wire>) {
    |entries| == |wires| && forall i :: 0 <= i < |entries| ==> Tracked(env, entries[i], wires[i])
  }

  /** The overflow drop takes an oldest run, no longer than needed. */
  predicate DroppedOldest(before: seq<Option<Entry>>, beforeWires: seq<Wire>, after: seq<Option<Entry>>, wires: seq<Wire>,
                          budget: nat, p: nat) {
    && |before| == |beforeWires| == |after| == |wires| && p <= |before|
    && (forall i :: 0 <= i < p ==> after[i].None?)
    && (forall i :: 0 <= i < p ==> wires[i] == if before[i].Some? then Dropped(Overflow) else beforeWires[i])
    && (forall i :: 0 <= i < p ==> Total(before[i..]) > budget)
    && (forall i :: p <= i < |after| ==> after[i] == before[i] && wires[i] == beforeWires[i])
    && Total(before[p..]) <= budget
  }

  lemma {:induction false} NonePrefix(s: seq<Option<Entry>>, p: nat)
    requires p <= |s| && forall i :: 0 <= i < p ==> s[i].None?
    ensures Total(s) == Total(s[p..])
  {
    if p > 0 {
      NonePrefix(s[1..], p - 1);
      assert s[1..][p - 1..] == s[p..];
    } else {
      assert s[0..] == s;
    }
  }

  class Normalizer {
    const ladder: Ladder
    const entries: array<Option<Entry>>
    const wires: array<Wire>
    var sum: nat

    ghost predicate Valid()
      reads this, entries, wires, ladder, ladder.cache
    {
      && entries.Length == wires.Length
      && ladder.Valid() && CollisionFree(ladder.env)
      && AllTracked(ladder.env, entries[..], wires[..])
      && sum == Total(entries[..])
    }

    constructor (ladder: Ladder, entries: array<Option<Entry>>, wires: array<Wire>, sum: nat)
      ensures this.ladder == ladder && this.entries == entries && this.wires == wires && this.sum == sum
    {
      this.ladder, this.entries, this.wires, this.sum := ladder, entries, wires, sum;
    }

    ghost function Now(): Images
      reads entries, wires
    {
      Images(entries[..], wires[..])
    }

    lemma TrackedPosition(k: nat)
      requires Valid() && k < entries.Length && entries[k].Some?
      ensures entries[k].value.pos <= TERMINAL_POS
    {
      assert Tracked(ladder.env, entries[..][k], wires[..][k]);
    }

    /** `entries.find(e => e !== null && !e.done)` */
    method FindOldest() returns (k: nat)
      ensures k <= entries.Length
      ensures forall i :: 0 <= i < k ==> Finished(entries[i])
      ensures k < entries.Length ==> !Finished(entries[k])
    {
      k := 0;
      while k < entries.Length && Finished(entries[k])
        invariant 0 <= k <= entries.Length
        invariant forall i :: 0 <= i < k ==> Finished(entries[i])
      {
        k := k + 1;
      }
    }

    /** One demotion of entry k, allowed only when every older one is finished. */
    method DemoteAt(k: nat)
      requires Valid() && k < entries.Length && !Finished(entries[k])
      requires forall i :: 0 <= i < k ==> Finished(entries[i])
      modifies this, entries, wires, ladder.cache
      ensures Valid()
      ensures var r := ProcessAt(ladder.env, old(entries[k]).value.b64, old(entries[k]).value.media, old(entries[k]).value.pos + 1);
        && entries[..] == old(entries[..])[k := Demoted(old(entries[k]).value, r)]
        && wires[..] == old(wires[..])[k := DemotedWire(old(wires[k]), r)]
      ensures Sum(StepsLeft, entries[..]) < Sum(StepsLeft, old(entries[..]))
    {
      hide ProcessAt, Sum, CollisionFree, CameFrom;
      var e := entries[k].value;
      ghost var before := entries[..];
      assert Tracked(ladder.env, before[k], wires[..][k]);
      DemoteTracked(ladder.env, e, wires[k]);
      hide Tracked, StepsLeft;
      var r := ladder.Process(e.b64, e.pos + 1, e.media);
      SumUpdate(SizeOf, before, k, Demoted(e, r));
      SumUpdate(StepsLeft, before, k, Demoted(e, r));
      sum := sum - e.size + SizeOf(Demoted(e, r));
      entries[k] := Demoted(e, r);
      wires[k] := DemotedWire(wires[k], r);
      assert entries[..] == before[k := Demoted(e, r)];
    }

    /**
     * The demotion loop. It terminates whatever the encoder does to the sizes; the tracked sum is
     * the sum of the entries throughout; and it works strictly oldest first.
     */
    method Demote(budget: nat) returns (ghost f: nat, ghost order: seq<nat>)
      requires Valid()
      modifies this, entries, wires, ladder.cache
      ensures Valid() && OldestFirst(old(entries[..]), old(wires[..]), entries[..], wires[..], f)
      ensures DemotesTo(ladder.env, old(Now()), order, Now())
      ensures sum <= budget || forall i :: 0 <= i < entries.Length ==> Finished(entries[i])
    {
      hide AllTracked, Sum, CollisionFree, Demoted, DemotedWire, ProcessAt, DemotesTo;
      f, order := 0, [];
      assert DemotesTo(ladder.env, Now(), [], Now()) by { NothingDemoted(ladder.env, Now()); }
      while sum > budget
        invariant Valid()
        invariant OldestFirst(old(entries[..]), old(wires[..]), entries[..], wires[..], f)
        invariant DemotesTo(ladder.env, old(Now()), order, Now())
        decreases Sum(StepsLeft, entries[..])
      {
        var k := FindOldest();
        if k == entries.Length { return; }
        ghost var mid := Now();
        assert Due(mid, k) by { TrackedPosition(k); }
        DemotesOnce(ladder.env, old(Now()), order, mid, k);
        DemoteAt(k);
        f, order := k, order + [k];
      }
    }

    /** The overflow drop: oldest targets go until the sum fits. */
    method DropOverflow(budget: nat) returns (ghost p: nat)
      requires Valid()
      modifies this, entries, wires
      ensures Valid() && sum <= budget
      ensures DroppedOldest(old(entries[..]), old(wires[..]), entries[..], wires[..], budget, p)
    {
      hide Sum, CollisionFree, AllTracked, Tracked;
      ghost var before, beforeWires := entries[..], wires[..];
      var i := 0;
      assert before[0..] == before;
      while i < entries.Length && sum > budget
        invariant 0 <= i <= entries.Length
        invariant Valid()
        invariant forall j :: 0 <= j < i ==> entries[j].None? && wires[j] == (if before[j].Some? then Dropped(Overflow) else beforeWires[j])
        invariant forall j :: 0 <= j < i ==> Total(before[j..]) > budget
        invariant forall j :: i <= j < entries.Length ==> entries[j] == before[j] && wires[j] == beforeWires[j]
        invariant sum == Total(before[i..])
      {
        DropAt(i);
        i := i + 1;
        NonePrefix(entries[..], i);
        assert entries[..][i..] == before[i..];
      }
      if i == entries.Length {
        SumOfNothing(entries[..]);
      }
      p := i;
    }

    method DropAt(i: nat)
      requires Valid() && i < entries.Length
      modifies this, entries, wires
      ensures Valid()
      ensures entries[..] == old(entries[..])[i := None]
      ensures wires[..] == if old(entries[i]).Some? then old(wires[..])[i := Dropped(Overflow)] else old(wires[..])
    {
      hide Sum, CollisionFree, CameFrom, WireSize;
      ghost var before := entries[..];
      if entries[i].Some? {
        SumUpdate(SizeOf, before, i, None);
        sum := sum - entries[i].value.size;
        entries[i], wires[i] := None, Dropped(Overflow);
        assert entries[..] == before[i := None];
      }
    }

    /**
     * Demotion, then the overflow action. Afterwards the tracked sum is exact; the images fit the
     * budget under "drop", and under "none" they fit or every survivor sits at the terminal position.
     */
    method Fit(budget: nat, drop: bool) returns (ghost mid: seq<Option<Entry>>, ghost midWires: seq<Wire>, ghost f: nat,
                                                   ghost order: seq<nat>, ghost p: nat)
      requires Valid()
      modifies this, entries, wires, ladder.cache
      ensures Valid()
      ensures drop ==> sum <= budget
      ensures !drop ==> sum <= budget || forall i :: 0 <= i < entries.Length ==> Finished(entries[i])
      ensures OldestFirst(old(entries[..]), old(wires[..]), mid, midWires, f)
      ensures DemotesTo(ladder.env, old(Now()), order, Images(mid, midWires))
      ensures if drop then DroppedOldest(mid, midWires, entries[..], wires[..], budget, p)
              else mid == entries[..] && midWires == wires[..]
    {
      hide AllTracked, Sum, CollisionFree, DemotesTo;
      f, order := Demote(budget);
      mid, midWires, p := entries[..], wires[..], 0;
      if drop { p := DropOverflow(budget); }
    }
  }

  /** Some entry's size overstates what is on the wire. */
  predicate SomeOverstated(env: Codec, entries: seq<Option<Entry>>, wires: seq<Wire>)
    requires |entries| == |wires|
  {
    exists i :: 0 <= i < |entries| && entries[i].Some? && entries[i].value.pos <= TERMINAL_POS && Overstated(env, entries[i].value, wires[i])
  }

  /**
   * The bytes on the wire never exceed the tracked total, and they fall short of it exactly when the
   * last look at some image let its source pass while a smaller replacement stays on the wire.
   */
  lemma {:induction false} WireBytesExact(env: Codec, entries: seq<Option<Entry>>, wires: seq<Wire>)
    requires AllTracked(env, entries, wires)
    ensures WireBytes(entries, wires) <= Total(entries)
    ensures WireBytes(entries, wires) == Total(entries) <==> !SomeOverstated(env, entries, wires)
  {
    hide Overstated, CameFrom;
    if entries != [] {
      assert Tracked(env, entries[0], wires[0]);
      forall i | 0 <= i < |entries| - 1 ensures Tracked(env, entries[1..][i], wires[1..][i]) {
        assert Tracked(env, entries[i + 1], wires[i + 1]);
      }
      WireBytesExact(env, entries[1..], wires[1..]);
      OverstatedCons(env, entries, wires);
    }
  }

  lemma OverstatedCons(env: Codec, entries: seq<Option<Entry>>, wires: seq<Wire>)
    requires |entries| == |wires| && entries != []
    ensures SomeOverstated(env, entries, wires) <==>
      (entries[0].Some? && entries[0].value.pos <= TERMINAL_POS && Overstated(env, entries[0].value, wires[0]))
      || SomeOverstated(env, entries[1..], wires[1..])
  {
    hide Overstated;
    if SomeOverstated(env, entries[1..], wires[1..]) {
      var i :| 0 <= i < |entries| - 1 && entries[1..][i].Some? && entries[1..][i].value.pos <= TERMINAL_POS
               && Overstated(env, entries[1..][i].value, wires[1..][i]);
      assert entries[i + 1] == entries[1..][i] && wires[i + 1] == wires[1..][i];
    }
    if SomeOverstated(env, entries, wires) {
      var i :| 0 <= i < |entries| && entries[i].Some? && entries[i].value.pos <= TERMINAL_POS && Overstated(env, entries[i].value, wires[i]);
      if i > 0 { assert entries[i] == entries[1..][i - 1] && wires[i] == wires[1..][i - 1]; }
    }
  }

  /**
   * It does happen: a picture of few pixels and more than two megabytes, re-encoded by any codec to
   * something small at every capped position, passes unchanged at the uncapped last one. Its tracked
   * size jumps back to the source's while the small replacement stays on the wire.
   */
  lemma SumCanOverstate(b64: Str, small: Str)
    requires |b64| > 2048 * KIB && |small| <= 100 * KIB
    ensures exists env: Codec, e: Entry, w: Wire ::
      && Tracked(env, Some(e), w) && !e.done && e.b64 == b64
      && var r := ProcessAt(env, e.b64, e.media, e.pos + 1);
         && Demoted(e, r).Some? && WireSize(Demoted(e, r).value, DemotedWire(w, r)) == |small| < |b64| == Demoted(e, r).value.size
  {
    var jpeg: Str := [105, 109, 97, 103, 101, 47, 106, 112, 101, 103];
    var image := Encoded(small, jpeg);
    var env := Codec((b, p, q) => Some(image), b => true, b => Some(Dims(1, 1)), b => b, b => true);
    var e := Entry(b64, jpeg, TERMINAL_POS - 1, |small|, false);
    assert TIERS[TERMINAL_POS - 1].hardCap == Some(100 * KIB) && |TIERS[TERMINAL_POS - 1].qualities| == 1;
    assert !PassesThrough(env, b64, jpeg, TERMINAL_POS - 1) && PassesThrough(env, b64, jpeg, TERMINAL_POS);
    assert AtPosition(env, b64, jpeg, TERMINAL_POS - 1) == Made(image);
    assert CameFrom(env, e, image);
    assert Tracked(env, Some(e), Replaced(image));
    var r := ProcessAt(env, b64, jpeg, TERMINAL_POS);
    assert r == Processed(PassThrough(|b64|), TERMINAL_POS);
  }

  function WireBytes(entries: seq<Option<Entry>>, wires: seq<Wire>): nat
    requires |entries| == |wires|
  {
    if entries == [] then 0
    else (if entries[0].Some? then WireSize(entries[0].value, wires[0]) else 0) + WireBytes(entries[1..], wires[1..])
  }
}
