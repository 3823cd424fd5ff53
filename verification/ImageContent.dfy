/**
 * What the ladder and the first pass make of an image, said without walking: the result of the ladder is
 * the first acceptable attempt, in the order of positions and qualities, and every target is treated by
 * its age, its size and that result.
 */
module ImageContent {
  import opened Prelude
  import opened ImageLadder
  import opened ImagePool
  import ImageBudget

  // ---------------------------------------------------------------------------
  // The first acceptable attempt
  // ---------------------------------------------------------------------------

  /** The source itself is acceptable at this position: a web format, both edges and the bytes within its limits. */
  ghost predicate SourceFits(env: Codec, b64: Str, media: Str, p: nat)
    requires p <= TERMINAL_POS
  {
    && media in PASSTHROUGH_MEDIA
    && (exists d :: env.dims(b64) == Some(d) && d.width <= TIERS[p].maxEdge && d.height <= TIERS[p].maxEdge)
    && (TIERS[p].hardCap == None || |b64| <= TIERS[p].hardCap.value)
  }

  function EncodingAt(env: Codec, b64: Str, p: nat, q: nat): Option<Encoded>
    requires p <= TERMINAL_POS && q < |TIERS[p].qualities|
  {
    env.encode(b64, p, TIERS[p].qualities[q])
  }

  /** Encoding succeeded and the result exceeds the cap; the last position has none. */
  predicate TooBigAt(env: Codec, b64: Str, p: nat, q: nat)
    requires p <= TERMINAL_POS && q < |TIERS[p].qualities|
  {
    var made := EncodingAt(env, b64, p, q);
    made.Some? && TIERS[p].hardCap.Some? && |made.value.data| > TIERS[p].hardCap.value
  }

  /** All qualities before `q` were tried at `p` and came out too big. */
  ghost predicate TriedAt(env: Codec, b64: Str, media: Str, p: nat, q: nat)
    requires p <= TERMINAL_POS && q <= |TIERS[p].qualities|
  {
    !SourceFits(env, b64, media, p) && forall k :: 0 <= k < q ==> TooBigAt(env, b64, p, k)
  }

  /** The whole position was tried. */
  ghost predicate Exhausted(env: Codec, b64: Str, media: Str, p: nat)
    requires p <= TERMINAL_POS
  {
    TriedAt(env, b64, media, p, |TIERS[p].qualities|)
  }

  /** Quality `q` is the first at `p` that does not come out too big. */
  ghost predicate DecidesAt(env: Codec, b64: Str, media: Str, p: nat, q: nat)
    requires p <= TERMINAL_POS && q < |TIERS[p].qualities|
  {
    TriedAt(env, b64, media, p, q) && !TooBigAt(env, b64, p, q)
  }

  /** `r` is the outcome of the first attempt, from position `pos` on, that decides anything. */
  ghost predicate IsFirst(env: Codec, b64: Str, media: Str, pos: nat, r: Processed)
    requires pos <= TERMINAL_POS
  {
    && pos <= r.pos <= TERMINAL_POS
    && (forall p :: pos <= p < r.pos ==> Exhausted(env, b64, media, p))
    && match r.result
       case PassThrough(n) => SourceFits(env, b64, media, r.pos) && env.validate(b64) && n == |b64|
       case Reencoded(image) =>
         exists q :: 0 <= q < |TIERS[r.pos].qualities| && DecidesAt(env, b64, media, r.pos, q) && EncodingAt(env, b64, r.pos, q) == Some(image)
       case Failed =>
         || (SourceFits(env, b64, media, r.pos) && !env.validate(b64))
         || exists q :: 0 <= q < |TIERS[r.pos].qualities| && DecidesAt(env, b64, media, r.pos, q) && EncodingAt(env, b64, r.pos, q) == None
  }

  lemma FitsMeans(env: Codec, b64: Str, media: Str, p: nat)
    requires p <= TERMINAL_POS
    ensures PassesThrough(env, b64, media, p) <==> SourceFits(env, b64, media, p)
  {
    if PassesThrough(env, b64, media, p) {
      assert env.dims(b64) == Some(env.dims(b64).value);
    }
  }

  /** Which quality decides, or none. */
  lemma {:induction false} AttemptDecides(env: Codec, b64: Str, media: Str, p: nat, q: nat, last: Option<Encoded>) returns (k: nat)
    requires p <= TERMINAL_POS && q <= |TIERS[p].qualities| && TriedAt(env, b64, media, p, q)
    requires p == TERMINAL_POS ==> q == 0
    ensures k <= |TIERS[p].qualities|
    ensures k < |TIERS[p].qualities| ==> DecidesAt(env, b64, media, p, k)
    ensures k < |TIERS[p].qualities| ==>
      Attempt(env, b64, p, q, last) == (if EncodingAt(env, b64, p, k).Some? then Made(EncodingAt(env, b64, p, k).value) else Broken)
    ensures k == |TIERS[p].qualities| ==> Exhausted(env, b64, media, p) && p < TERMINAL_POS && Attempt(env, b64, p, q, last) == TooBig
    decreases |TIERS[p].qualities| - q
  {
    hide SourceFits;
    k := q;
    if q < |TIERS[p].qualities| && TooBigAt(env, b64, p, q) {
      assert p != TERMINAL_POS;
      k := AttemptDecides(env, b64, media, p, q + 1, EncodingAt(env, b64, p, q));
    }
  }

  lemma WalksOnly(env: Codec, b64: Str, media: Str, pos: nat)
    requires pos <= TERMINAL_POS
    ensures var o := AtPosition(env, b64, media, pos);
      Walk(env, b64, media, pos) == (match o
                                     case Passed => Processed(PassThrough(|b64|), pos)
                                     case Made(image) => Processed(Reencoded(image), pos)
                                     case Broken => Processed(Failed, pos)
                                     case TooBig => Walk(env, b64, media, pos + 1))
  {
    hide AtPosition;
  }

  /** The ladder's result is the first outcome. */
  lemma {:induction false} WalkIsFirst(env: Codec, b64: Str, media: Str, pos: nat)
    requires pos <= TERMINAL_POS
    ensures IsFirst(env, b64, media, pos, Walk(env, b64, media, pos))
    decreases TERMINAL_POS - pos
  {
    hide PassesThrough, SourceFits, Attempt, Walk, DecidesAt, EncodingAt, TooBigAt;
    FitsMeans(env, b64, media, pos);
    WalksOnly(env, b64, media, pos);
    if !SourceFits(env, b64, media, pos) {
      var k := AttemptDecides(env, b64, media, pos, 0, None);
      if k == |TIERS[pos].qualities| {
        WalkIsFirst(env, b64, media, pos + 1);
      }
    }
  }

  lemma DecidingIsUnique(env: Codec, b64: Str, media: Str, p: nat, j: nat, k: nat)
    requires p <= TERMINAL_POS && j < |TIERS[p].qualities| && k < |TIERS[p].qualities|
    requires DecidesAt(env, b64, media, p, j) && DecidesAt(env, b64, media, p, k)
    ensures j == k
  {
    hide SourceFits, TooBigAt;
  }

  lemma DecidedIsNotExhausted(env: Codec, b64: Str, media: Str, pos: nat, r: Processed)
    requires pos <= TERMINAL_POS && IsFirst(env, b64, media, pos, r)
    ensures !Exhausted(env, b64, media, r.pos)
  {
    hide SourceFits, TooBigAt, EncodingAt;
  }

  /** There is only one. */
  lemma FirstIsUnique(env: Codec, b64: Str, media: Str, pos: nat, r: Processed, s: Processed)
    requires pos <= TERMINAL_POS && IsFirst(env, b64, media, pos, r) && IsFirst(env, b64, media, pos, s)
    ensures r == s
  {
    DecidedIsNotExhausted(env, b64, media, pos, r);
    DecidedIsNotExhausted(env, b64, media, pos, s);
    assert r.pos == s.pos;
    hide SourceFits, Exhausted, EncodingAt, TooBigAt;
    if !SourceFits(env, b64, media, r.pos) {
      var j :| 0 <= j < |TIERS[r.pos].qualities| && DecidesAt(env, b64, media, r.pos, j)
               && (r.result.Reencoded? ==> EncodingAt(env, b64, r.pos, j) == Some(r.result.image))
               && (r.result.Failed? ==> EncodingAt(env, b64, r.pos, j) == None);
      var k :| 0 <= k < |TIERS[r.pos].qualities| && DecidesAt(env, b64, media, r.pos, k)
               && (s.result.Reencoded? ==> EncodingAt(env, b64, r.pos, k) == Some(s.result.image))
               && (s.result.Failed? ==> EncodingAt(env, b64, r.pos, k) == None);
      DecidingIsUnique(env, b64, media, r.pos, j, k);
    }
  }

  /** For every image, codec and starting position: the ladder's result is exactly the first outcome. */
  lemma LadderTakesTheFirst(env: Codec, b64: Str, media: Str, pos: nat, r: Processed)
    requires pos <= TERMINAL_POS
    ensures Walk(env, b64, media, pos) == r <==> IsFirst(env, b64, media, pos, r)
  {
    hide IsFirst, Walk;
    WalkIsFirst(env, b64, media, pos);
    if IsFirst(env, b64, media, pos, r) {
      FirstIsUnique(env, b64, media, pos, r, Walk(env, b64, media, pos));
    }
  }

  // ---------------------------------------------------------------------------
  // What becomes of a target
  // ---------------------------------------------------------------------------

  /** The six newest images start at the top, the next fourteen one below, the rest two below; a bias only lowers. */
  predicate StartsAt(newer: nat, bias: int, p: nat) {
    var lowered := if bias < 0 then 0 else bias;
    && p <= 5
    && (newer < 6 ==> p == lowered || (p == 5 && lowered > 5))
    && (6 <= newer < 20 ==> p == lowered + 1 || (p == 5 && lowered > 4))
    && (newer >= 20 ==> p == lowered + 2 || (p == 5 && lowered > 3))
  }

  /** Too many characters, or too many pixels. */
  ghost predicate Bomb64(env: Codec, b64: Str) {
    |b64| > 67108864 || exists d :: env.dims(b64) == Some(d) && d.width * d.height > 100000000
  }

  lemma StartIs(newer: nat, bias: int)
    ensures StartsAt(newer, bias, InitialPosition(newer, bias))
  {
  }

  lemma BombIs(job: Job, i: nat)
    requires i < |job.sources|
    ensures IsBomb(job, i) <==> Bomb64(job.env, Payload(job, i))
  {
    if IsBomb(job, i) && |Payload(job, i)| <= 67108864 {
      assert job.env.dims(Payload(job, i)) == Some(job.env.dims(Payload(job, i)).value);
    }
  }

  /**
   * For every call and every target: a target without data or beyond the limit is left alone; a bomb is dropped; an
   * undecodable image is dropped; any other is replaced by, left at or dropped for the ladder's result from the
   * position its age gives it, and an entry remembers position and size. A `replace` that throws leaves no entry.
   */
  lemma FirstPassTreats(job: Job, i: nat) returns (start: nat)
    requires i < |job.sources|
    ensures start <= TERMINAL_POS && StartsAt(|job.sources| - 1 - i, job.bias, start)
    ensures var source, newer := job.sources[i], |job.sources| - 1 - i;
      var b64 := if source.base64 == None then [] else source.base64.value;
      var entry, wire, r := FinalEntry(job, i), FinalWire(job, i), Walk(job.env, b64, source.media, start);
      if b64 == [] || (job.limit.Some? && job.limit.value <= newer) then entry == None && wire == Untouched
      else if Bomb64(job.env, b64) then entry == None && wire == Dropped(Bomb)
      else if !job.env.decodable(b64) then entry == None && wire == Dropped(Undecodable)
      else
        && (r.result.Failed? ==> entry == None && wire == Dropped(Undecodable))
        && (r.result.PassThrough? ==> entry == Some(Entry(b64, source.media, r.pos, |b64|, r.pos == 5)) && wire == Untouched)
        && (r.result.Reencoded? && job.throws(i) ==> entry == None && wire == Untouched)
        && (r.result.Reencoded? && !job.throws(i) ==>
              entry == Some(Entry(b64, source.media, r.pos, |r.result.image.data|, r.pos == 5)) && wire == Replaced(r.result.image))
  {
    hide Walk, InitialPosition, Bomb64, IsBomb, StartsAt;
    start := StartPos(job, i);
    StartIs(|job.sources| - 1 - i, job.bias);
    BombIs(job, i);
  }

  /**
   * One demotion of an entry, for every codec: an image that fails further down is dropped and forgotten; one that
   * passes keeps what is on the wire; one that is re-encoded is replaced; and position and size follow the result.
   */
  lemma DemotionTreats(env: Codec, e: Entry, wire: Wire)
    requires e.pos < TERMINAL_POS
    ensures var r := Walk(env, e.b64, e.media, e.pos + 1);
      var p := ProcessAt(env, e.b64, e.media, e.pos + 1);
      var entry, after := ImageBudget.Demoted(e, p), ImageBudget.DemotedWire(wire, p);
      && (!env.decodable(e.b64) || r.result.Failed? ==> entry == None && after == Dropped(Undecodable))
      && (env.decodable(e.b64) && r.result.PassThrough? ==>
            entry == Some(Entry(e.b64, e.media, r.pos, |e.b64|, r.pos == 5)) && after == wire)
      && (env.decodable(e.b64) && r.result.Reencoded? ==>
            entry == Some(Entry(e.b64, e.media, r.pos, |r.result.image.data|, r.pos == 5)) && after == Replaced(r.result.image))
  {
    hide IsFirst, Walk;
    WalkIsFirst(env, e.b64, e.media, e.pos + 1);
    FirstPasses(env, e.b64, e.media, e.pos + 1, Walk(env, e.b64, e.media, e.pos + 1));
  }

  lemma FirstPasses(env: Codec, b64: Str, media: Str, pos: nat, r: Processed)
    requires pos <= TERMINAL_POS && IsFirst(env, b64, media, pos, r)
    ensures r.pos <= 5 && (r.result.PassThrough? ==> r.result.b64Length == |b64|)
  {
    hide SourceFits, Exhausted, DecidesAt, EncodingAt;
  }
}
