/**
 * The thought-signature replay cache (src/adapters/google-antigravity-replay.ts): signatures seen
 * on a response stream are remembered per model, session and call, and put back on the matching
 * unsigned calls of later requests.
 */
module GoogleReplay {
  import opened Prelude
  import opened CanonicalJson
  import opened CallKey

  const MIN_SIGNATURE_LEN: nat := 16
  const REPLAY_TTL_MS: int := 3600000
  const REPLAY_MAX_ENTRIES: nat := 10240
  const REPLAY_EVICT_BATCH: nat := 128

  /** The ten code units of `::session:`. */
  const SESSION_MARK: Str := [58, 58, 115, 101, 115, 115, 105, 111, 110, 58]
  /** `claude`. */
  const CLAUDE: Str := [99, 108, 97, 117, 100, 101]

  datatype Call = Call(name: Option<Json>, args: Option<Json>)

  /** One content part; a field is `None` when the property is undefined. */
  datatype Part =
    | NotAPart
    | Part(call: Option<Call>, camel: Option<Json>, snake: Option<Json>, nested: Option<Json>)

  datatype Content = NotAContent | Content(role: Option<Str>, parts: Option<seq<Part>>)

  /** `model` */
  const MODEL_ROLE: Str := [109, 111, 100, 101, 108]

  /** One entry of the insertion-ordered cache. */
  datatype Slot = Slot(key: Str, byCall: map<Str, Str>, expires: int)

  function ReplayKey(model: Str, session: Str): Str {
    model + SESSION_MARK + session
  }

  predicate ClaudeAt(model: Str, i: nat) {
    i + 6 <= |model| && forall k :: 0 <= k < 6 ==> LowerUnit(model[i + k]) == CLAUDE[k]
  }

  predicate UsesReplayCache(model: Str) {
    forall i: nat :: i < |model| ==> !ClaudeAt(model, i)
  }

  predicate LongText(v: Option<Json>) {
    v.Some? && v.value.Text? && |v.value.s| >= MIN_SIGNATURE_LEN
  }

  /** The signature a part carries: the direct field when long enough, else the nested one. */
  function ExtractSignature(part: Part): (sig: Option<Str>)
    requires part.Part?
    ensures sig.Some? ==> |sig.value| >= MIN_SIGNATURE_LEN
  {
    var direct := if part.camel.Some? && !part.camel.value.Null? then part.camel else part.snake;
    if LongText(direct) then Some(direct.value.s)
    else if LongText(part.nested) then Some(part.nested.value.s)
    else None
  }

  /** The identity of the call a part makes, if it makes one. */
  function KeyOf(part: Part): Option<Str> {
    if part.Part? && part.call.Some? then FunctionCallKey(part.call.value.name, part.call.value.args) else None
  }

  /** A part worth remembering: a call with a signature. */
  predicate Signs(part: Part) {
    part.Part? && ExtractSignature(part).Some? && KeyOf(part).Some?
  }

  // ---------------------------------------------------------------------------
  // The cache as a value
  // ---------------------------------------------------------------------------

  function Lookup(slots: seq<Slot>, key: Str): (r: Option<Slot>)
    ensures r.Some? ==> r.value in slots && r.value.key == key
  {
    if slots == [] then None else if slots[0].key == key then Some(slots[0]) else Lookup(slots[1..], key)
  }

  /** Replaces the slot of that key in place, or appends it. */
  function Stored(slots: seq<Slot>, slot: Slot): seq<Slot> {
    if slots == [] then [slot]
    else if slots[0].key == slot.key then [slot] + slots[1..]
    else [slots[0]] + Stored(slots[1..], slot)
  }

  function Deleted(slots: seq<Slot>, key: Str): seq<Slot> {
    if slots == [] then []
    else (if slots[0].key == key then [] else [slots[0]]) + Deleted(slots[1..], key)
  }

  lemma {:induction false} DeletedLookup(slots: seq<Slot>, key: Str, other: Str)
    ensures Lookup(Deleted(slots, key), other) == if other == key then None else Lookup(slots, other)
  {
    if slots != [] {
      DeletedLookup(slots[1..], key, other);
      if slots[0].key == key {
        assert Deleted(slots, key) == Deleted(slots[1..], key);
      } else {
        assert Deleted(slots, key)[1..] == Deleted(slots[1..], key);
      }
    }
  }

  function DeletedAll(slots: seq<Slot>, doomed: seq<Slot>): seq<Slot>
    decreases doomed
  {
    if doomed == [] then slots else DeletedAll(Deleted(slots, doomed[0].key), doomed[1..])
  }

  function InsertByExpiry(s: Slot, sorted: seq<Slot>): seq<Slot> {
    if sorted == [] || s.expires <= sorted[0].expires then [s] + sorted
    else [sorted[0]] + InsertByExpiry(s, sorted[1..])
  }

  /** Stable order by expiry, oldest first. */
  function ByExpiry(slots: seq<Slot>): (r: seq<Slot>)
    ensures |r| == |slots|
  {
    if slots == [] then [] else
      InsertByExpiryLength(slots[0], ByExpiry(slots[1..]));
      InsertByExpiry(slots[0], ByExpiry(slots[1..]))
  }

  lemma {:induction false} InsertByExpiryLength(s: Slot, sorted: seq<Slot>)
    ensures |InsertByExpiry(s, sorted)| == |sorted| + 1
  {
    if sorted != [] && s.expires > sorted[0].expires { InsertByExpiryLength(s, sorted[1..]); }
  }

  function Evicted(slots: seq<Slot>): seq<Slot> {
    if |slots| <= REPLAY_MAX_ENTRIES then slots
    else DeletedAll(slots, ByExpiry(slots)[..REPLAY_EVICT_BATCH])
  }

  function Recorded(byCall: map<Str, Str>, part: Part): map<Str, Str> {
    if Signs(part) then byCall[KeyOf(part).value := ExtractSignature(part).value] else byCall
  }

  function RecordedAll(byCall: map<Str, Str>, parts: seq<Part>): map<Str, Str>
    decreases parts
  {
    if parts == [] then byCall else RecordedAll(Recorded(byCall, parts[0]), parts[1..])
  }

  /** Some part on the way tells something new. */
  predicate Changes(byCall: map<Str, Str>, parts: seq<Part>)
    decreases parts
  {
    parts != [] && (Recorded(byCall, parts[0]) != byCall || Changes(Recorded(byCall, parts[0]), parts[1..]))
  }

  function Observed(slots: seq<Slot>, now: int, model: Str, session: Str, parts: Option<seq<Part>>): seq<Slot> {
    if !UsesReplayCache(model) || parts.None? || parts.value == [] then slots
    else
      var key := ReplayKey(model, session);
      var entry := Lookup(slots, key);
      var before := if entry.Some? then entry.value.byCall else map[];
      if !Changes(before, parts.value) && entry.Some? then slots
      else Evicted(Stored(slots, Slot(key, RecordedAll(before, parts.value), now + REPLAY_TTL_MS)))
  }

  /** Only a call part without either signature field is filled, and only from a remembered call. */
  function InjectPart(byCall: map<Str, Str>, part: Part): Part {
    if !part.Part? || part.call.None? || part.camel.Some? || part.snake.Some? then part
    else if KeyOf(part).Some? && KeyOf(part).value in byCall && byCall[KeyOf(part).value] != []
    then part.(camel := Some(Text(byCall[KeyOf(part).value])))
    else part
  }

  function InjectParts(byCall: map<Str, Str>, parts: seq<Part>): seq<Part> {
    seq(|parts|, i requires 0 <= i < |parts| => InjectPart(byCall, parts[i]))
  }

  function InjectContent(byCall: map<Str, Str>, c: Content): Content {
    if !c.Content? || c.role != Some(MODEL_ROLE) || c.parts.None? then c
    else c.(parts := Some(InjectParts(byCall, c.parts.value)))
  }

  function InjectAll(byCall: map<Str, Str>, contents: seq<Content>): seq<Content> {
    seq(|contents|, i requires 0 <= i < |contents| => InjectContent(byCall, contents[i]))
  }

  /** The remembered calls a request may draw on: those of a slot that has not expired. */
  function Live(slots: seq<Slot>, now: int, model: Str, session: Str): map<Str, Str> {
    var entry := Lookup(slots, ReplayKey(model, session));
    if UsesReplayCache(model) && entry.Some? && entry.value.expires > now then entry.value.byCall else map[]
  }

  function Replayed(slots: seq<Slot>, now: int, model: Str, session: Str, contents: seq<Content>): seq<Content> {
    InjectAll(Live(slots, now, model, session), contents)
  }

  /** Applying also drops the slot when it has expired. */
  function AfterApply(slots: seq<Slot>, now: int, model: Str, session: Str): seq<Slot> {
    var entry := Lookup(slots, ReplayKey(model, session));
    if UsesReplayCache(model) && entry.Some? && entry.value.expires <= now
    then Deleted(slots, ReplayKey(model, session)) else slots
  }

  lemma InjectNothing(contents: seq<Content>)
    ensures InjectAll(map[], contents) == contents
  {
    forall c: Content | c in contents && c.Content? && c.parts.Some? ensures InjectParts(map[], c.parts.value) == c.parts.value {
    }
  }

  // ---------------------------------------------------------------------------
  // The cache as the module keeps it
  // ---------------------------------------------------------------------------

  class ReplayCache {
    var slots: seq<Slot>

    constructor ()
      ensures slots == []
    {
      slots := [];
    }

    method Observe(now: int, model: Str, session: Str, parts: Option<seq<Part>>)
      modifies this
      ensures slots == Observed(old(slots), now, model, session, parts)
    {
      if !UsesReplayCache(model) || parts.None? || |parts.value| == 0 { return; }
      var key := ReplayKey(model, session);
      var entry := Lookup(slots, key);
      var byCall: map<Str, Str> := if entry.Some? then entry.value.byCall else map[];
      ghost var before := byCall;
      var changed := false;
      var i := 0;
      while i < |parts.value|
        invariant 0 <= i <= |parts.value|
        invariant slots == old(slots)
        invariant RecordedAll(byCall, parts.value[i..]) == RecordedAll(before, parts.value)
        invariant (changed || Changes(byCall, parts.value[i..])) == Changes(before, parts.value)
      {
        var part := parts.value[i];
        assert parts.value[i..][1..] == parts.value[i + 1..];
        ghost var next := Recorded(byCall, part);
        if part.Part? {
          var sig := ExtractSignature(part);
          var ck := KeyOf(part);
          if sig.Some? && ck.Some? && !(ck.value in byCall && byCall[ck.value] == sig.value) {
            byCall := byCall[ck.value := sig.value];
            changed := true;
          }
        }
        assert byCall == next;
        i := i + 1;
      }
      if !changed && entry.Some? { return; }
      slots := Stored(slots, Slot(key, byCall, now + REPLAY_TTL_MS));
      EvictIfNeeded();
    }

    method EvictIfNeeded()
      modifies this
      ensures slots == Evicted(old(slots))
    {
      if |slots| <= REPLAY_MAX_ENTRIES { return; }
      var oldest := ByExpiry(slots)[..REPLAY_EVICT_BATCH];
      var i := 0;
      while i < |oldest|
        invariant 0 <= i <= |oldest|
        invariant DeletedAll(slots, oldest[i..]) == DeletedAll(old(slots), oldest)
      {
        assert oldest[i..][1..] == oldest[i + 1..];
        slots := Deleted(slots, oldest[i].key);
        i := i + 1;
      }
    }

    method Apply(now: int, model: Str, session: Str, contents: array<Content>)
      modifies this, contents
      ensures contents[..] == Replayed(old(slots), now, model, session, old(contents[..]))
      ensures slots == AfterApply(old(slots), now, model, session)
    {
      InjectNothing(contents[..]);
      if !UsesReplayCache(model) { return; }
      var entry := Lookup(slots, ReplayKey(model, session));
      if entry.None? { return; }
      if entry.value.expires <= now {
        slots := Deleted(slots, ReplayKey(model, session));
        return;
      }
      ghost var was := contents[..];
      var byCall := entry.value.byCall;
      var i := 0;
      while i < contents.Length
        invariant 0 <= i <= contents.Length
        invariant slots == old(slots)
        invariant forall k :: 0 <= k < i ==> contents[k] == InjectContent(byCall, was[k])
        invariant forall k :: i <= k < contents.Length ==> contents[k] == was[k]
      {
        var c := contents[i];
        if c.Content? && c.role == Some(MODEL_ROLE) && c.parts.Some? {
          var filled := FillParts(byCall, c.parts.value);
          contents[i] := c.(parts := Some(filled));
        }
        i := i + 1;
      }
    }

    /** Forgets one slot; every other one is found as before. */
    method Clear(model: Str, session: Str)
      modifies this
      ensures slots == Deleted(old(slots), ReplayKey(model, session))
      ensures Lookup(slots, ReplayKey(model, session)).None?
      ensures forall key :: key != ReplayKey(model, session) ==> Lookup(slots, key) == Lookup(old(slots), key)
    {
      forall key { DeletedLookup(slots, ReplayKey(model, session), key); }
      slots := Deleted(slots, ReplayKey(model, session));
    }
  }

  method FillParts(byCall: map<Str, Str>, parts: seq<Part>) returns (filled: seq<Part>)
    ensures filled == InjectParts(byCall, parts)
  {
    filled := parts;
    var i := 0;
    while i < |parts|
      invariant 0 <= i <= |parts| == |filled|
      invariant forall k :: 0 <= k < i ==> filled[k] == InjectPart(byCall, parts[k])
      invariant forall k :: i <= k < |parts| ==> filled[k] == parts[k]
    {
      var part := parts[i];
      if part.Part? && part.call.Some? && part.camel.None? && part.snake.None? {
        var ck := KeyOf(part);
        if ck.Some? && ck.value in byCall && byCall[ck.value] != [] {
          filled := filled[i := part.(camel := Some(Text(byCall[ck.value])))];
        }
      }
      i := i + 1;
    }
  }
}
