/**
 * One image on the ladder (`processAt`): the cache never changes the result.
 *
 * The codec, the validator and the header sniffer are deterministic functions of the payload,
 * and the cache hash is free of collisions.
 */
module ImageLadder {
  import opened Prelude
  import opened ImageCache

  datatype Tier = Tier(maxEdge: nat, qualities: seq<nat>, hardCap: Option<nat>)

  const KIB: nat := 1024
  const TIERS: seq<Tier> := [
    Tier(2000, [80, 60, 40, 30], Some(2048 * KIB)),
    Tier(1024, [70, 50], Some(512 * KIB)),
    Tier(700, [60, 40], Some(192 * KIB)),
    Tier(500, [40], Some(100 * KIB)),
    Tier(400, [30], Some(100 * KIB)),
    Tier(320, [25], None)
  ]
  const TERMINAL_POS: nat := 5

  /** "image/jpeg", "image/png", "image/gif", "image/webp" */
  const PASSTHROUGH_MEDIA: set<Str> := {
    [105, 109, 97, 103, 101, 47, 106, 112, 101, 103], [105, 109, 97, 103, 101, 47, 112, 110, 103],
    [105, 109, 97, 103, 101, 47, 103, 105, 102], [105, 109, 97, 103, 101, 47, 119, 101, 98, 112]
  }

  datatype Encoded = Encoded(data: Str, media: Str)

  /** What the pipeline calls but does not define. `encode` is None when it throws. */
  datatype Codec = Codec(encode: (Str, nat, nat) -> Option<Encoded>, validate: Str -> bool,
                         dims: Str -> Option<Dims>, hash: Str -> Str, decodable: Str -> bool)

  ghost predicate CollisionFree(env: Codec) {
    forall a, b :: env.hash(a) == env.hash(b) ==> a == b
  }

  predicate Within(n: nat, cap: Option<nat>) {
    cap.Some? ==> n <= cap.value
  }

  predicate FitsEdge(env: Codec, b64: Str, maxEdge: nat) {
    var d := env.dims(b64);
    d.Some? && d.value.width <= maxEdge && d.value.height <= maxEdge
  }

  predicate PassesThrough(env: Codec, b64: Str, media: Str, pos: nat)
    requires pos <= TERMINAL_POS
  {
    media in PASSTHROUGH_MEDIA && FitsEdge(env, b64, TIERS[pos].maxEdge) && Within(|b64|, TIERS[pos].hardCap)
  }

  /** What one ladder position makes of an image. */
  datatype Outcome = Passed | Made(image: Encoded) | Broken | TooBig

  /** The quality attempts from the `q`-th on; `last` is the latest encoding. */
  function Attempt(env: Codec, b64: Str, pos: nat, q: nat, last: Option<Encoded>): (o: Outcome)
    requires pos <= TERMINAL_POS && q <= |TIERS[pos].qualities|
    ensures !o.Passed?
    decreases |TIERS[pos].qualities| - q
  {
    if q == |TIERS[pos].qualities| then
      if pos == TERMINAL_POS && last.Some? then Made(last.value) else TooBig
    else
      var made := env.encode(b64, pos, TIERS[pos].qualities[q]);
      if made.None? then Broken
      else if Within(|made.value.data|, TIERS[pos].hardCap) then Made(made.value)
      else Attempt(env, b64, pos, q + 1, made)
  }

  function AtPosition(env: Codec, b64: Str, media: Str, pos: nat): Outcome
    requires pos <= TERMINAL_POS
  {
    if PassesThrough(env, b64, media, pos) then (if env.validate(b64) then Passed else Broken)
    else Attempt(env, b64, pos, 0, None)
  }

  datatype Result = PassThrough(b64Length: nat) | Reencoded(image: Encoded) | Failed
  datatype Processed = Processed(result: Result, pos: nat)

  /** The walk down the ladder with no cache at all. */
  function Walk(env: Codec, b64: Str, media: Str, pos: nat): (r: Processed)
    requires pos <= TERMINAL_POS + 1
    ensures pos <= TERMINAL_POS ==> pos <= r.pos <= TERMINAL_POS
    decreases TERMINAL_POS + 1 - pos
  {
    if pos > TERMINAL_POS then Processed(Failed, TERMINAL_POS)
    else
      match AtPosition(env, b64, media, pos)
      case Passed => Processed(PassThrough(|b64|), pos)
      case Made(image) => Processed(Reencoded(image), pos)
      case Broken => Processed(Failed, pos)
      case TooBig => Walk(env, b64, media, pos + 1)
  }

  /** `processAt` from an empty cache. */
  function ProcessAt(env: Codec, b64: Str, media: Str, pos: nat): Processed
    requires pos <= TERMINAL_POS + 1
  {
    if env.decodable(b64) then Walk(env, b64, media, pos) else Processed(Failed, pos)
  }

  function KeyFor(env: Codec, b64: Str, media: Str, pos: nat): Key {
    Key(env.hash(b64), media, pos)
  }

  function Remembered(o: Outcome): Option<Value> {
    match o
    case Passed => Some(Pass)
    case Made(image) => Some(Picture(image.data, image.media))
    case TooBig => Some(Miss)
    case Broken => None
  }

  /** Every entry says what its position really makes of its image. */
  ghost predicate Truthful(env: Codec, slots: seq<Slot>) {
    forall s, b64 :: s in slots && s.key.hash == env.hash(b64) && s.key.pos <= TERMINAL_POS ==>
      Remembered(AtPosition(env, b64, s.key.media, s.key.pos)) == Some(s.value)
  }

  /** Storing what a position made of an image keeps every entry true, whatever is evicted. */
  lemma PutTruthful(env: Codec, slots: seq<Slot>, b64: Str, media: Str, pos: nat, value: Value)
    requires CollisionFree(env) && Truthful(env, slots) && UniqueKeys(slots) && pos <= TERMINAL_POS
    requires Remembered(AtPosition(env, b64, media, pos)) == Some(value)
    ensures Truthful(env, Put(slots, KeyFor(env, b64, media, pos), value))
  {
    hide AtPosition, Put, UniqueKeys;
    PutFits(slots, KeyFor(env, b64, media, pos), value);
  }

  lemma TouchTruthful(env: Codec, slots: seq<Slot>, key: Key)
    requires Truthful(env, slots) && UniqueKeys(slots)
    ensures Truthful(env, Touch(slots, key))
  {
    hide AtPosition, Touch, UniqueKeys;
    TouchKeeps(slots, key);
  }

  /** A hit in a truthful cache is what the position makes of this image. */
  lemma HitIsTrue(env: Codec, slots: seq<Slot>, b64: Str, media: Str, pos: nat)
    requires Truthful(env, slots) && pos <= TERMINAL_POS
    ensures var hit := Find(slots, KeyFor(env, b64, media, pos));
      hit.Some? ==> Remembered(AtPosition(env, b64, media, pos)) == hit
  {
    hide AtPosition;
    var key := KeyFor(env, b64, media, pos);
    var hit := Find(slots, key);
    if hit.Some? {
      assert Slot(key, hit.value) in slots;
    }
  }

  /** `processAt` against the shared cache. */
  class Ladder {
    const env: Codec
    const cache: Lru

    ghost predicate Valid()
      reads cache
    {
      cache.Valid() && Truthful(env, cache.slots)
    }

    constructor (env: Codec)
      ensures Valid() && this.env == env && fresh(cache)
    {
      this.env := env;
      cache := new Lru();
    }

    method Remember(b64: Str, media: Str, pos: nat, value: Value)
      requires Valid() && CollisionFree(env) && pos <= TERMINAL_POS
      requires Remembered(AtPosition(env, b64, media, pos)) == Some(value)
      modifies cache
      ensures Valid()
    {
      hide AtPosition, Truthful, Put;
      PutTruthful(env, cache.slots, b64, media, pos, value);
      cache.CachePut(KeyFor(env, b64, media, pos), value);
    }

    method Recall(b64: Str, media: Str, pos: nat) returns (hit: Option<Value>)
      requires Valid() && pos <= TERMINAL_POS
      modifies cache
      ensures Valid()
      ensures hit.Some? ==> Remembered(AtPosition(env, b64, media, pos)) == hit
    {
      hide AtPosition, Truthful, Touch;
      HitIsTrue(env, cache.slots, b64, media, pos);
      TouchTruthful(env, cache.slots, KeyFor(env, b64, media, pos));
      hit := cache.CacheGet(KeyFor(env, b64, media, pos));
    }

    /** The quality loop of one position. */
    method TryQualities(b64: Str, pos: nat) returns (o: Outcome)
      requires pos <= TERMINAL_POS
      ensures o == Attempt(env, b64, pos, 0, None)
    {
      var last: Option<Encoded> := None;
      var q := 0;
      while q < |TIERS[pos].qualities|
        invariant 0 <= q <= |TIERS[pos].qualities|
        invariant Attempt(env, b64, pos, 0, None) == Attempt(env, b64, pos, q, last)
      {
        last := env.encode(b64, pos, TIERS[pos].qualities[q]);
        if last.None? { return Broken; }
        if Within(|last.value.data|, TIERS[pos].hardCap) { return Made(last.value); }
        q := q + 1;
      }
      o := if pos == TERMINAL_POS && last.Some? then Made(last.value) else TooBig;
    }

    /** From every reachable cache state the result is the one of the empty cache. */
    method Process(b64: Str, startPos: nat, media: Str) returns (r: Processed)
      requires Valid() && CollisionFree(env) && startPos <= TERMINAL_POS + 1
      modifies cache
      ensures Valid() && r == ProcessAt(env, b64, media, startPos)
    {
      hide Truthful, Attempt, CollisionFree;
      if !env.decodable(b64) { return Processed(Failed, startPos); }
      var pos := startPos;
      while pos <= TERMINAL_POS
        invariant startPos <= pos <= TERMINAL_POS + 1
        invariant Valid()
        invariant Walk(env, b64, media, startPos) == Walk(env, b64, media, pos)
        decreases TERMINAL_POS + 1 - pos
      {
        var hit := Recall(b64, media, pos);
        if hit.Some? {
          match hit.value {
            case Pass => return Processed(PassThrough(|b64|), pos);
            case Miss => pos := pos + 1; continue;
            case Picture(data, kind) => return Processed(Reencoded(Encoded(data, kind)), pos);
          }
        }
        if PassesThrough(env, b64, media, pos) {
          if !env.validate(b64) { return Processed(Failed, pos); }
          Remember(b64, media, pos, Pass);
          return Processed(PassThrough(|b64|), pos);
        }
        var o := TryQualities(b64, pos);
        if o.Made? {
          Remember(b64, media, pos, Picture(o.image.data, o.image.media));
          return Processed(Reencoded(o.image), pos);
        }
        if o.Broken? { return Processed(Failed, pos); }
        Remember(b64, media, pos, Miss);
        pos := pos + 1;
      }
      r := Processed(Failed, TERMINAL_POS);
    }
  }
}
