/**
 * Live streaming of the `input` string of a freeform tool call (src/bridge.ts).
 *
 * The model writes its call as `{"input":"<JSON string>"}`, chunk by chunk. The
 * bridge decodes the unfinished buffer after every chunk and sends only what is new.
 */
module Freeform {
  import opened Prelude

  const QUOTE: CodeUnit := 34
  const BACKSLASH: CodeUnit := 92
  const LETTER_B: CodeUnit := 98
  const LETTER_F: CodeUnit := 102
  const LETTER_N: CodeUnit := 110
  const LETTER_R: CodeUnit := 114
  const LETTER_T: CodeUnit := 116
  const LETTER_U: CodeUnit := 117

  /** The ten code units of `{"input":"`. */
  const WRAP_PREFIX: Str := [123, 34, 105, 110, 112, 117, 116, 34, 58, 34]
  /** The two code units that close the string and the object. */
  const WRAP_SUFFIX: Str := [34, 125]

  predicate IsHex(c: CodeUnit) {
    48 <= c <= 57 || 65 <= c <= 70 || 97 <= c <= 102
  }

  function HexDigit(c: CodeUnit): (d: nat)
    requires IsHex(c)
    ensures d < 16
  {
    if c <= 57 then c - 48 else if c <= 70 then c - 55 else c - 87
  }

  predicate AllHex(s: Str) {
    forall i :: 0 <= i < |s| ==> IsHex(s[i])
  }

  function HexValue(s: Str): (c: CodeUnit)
    requires |s| == 4 && AllHex(s)
  {
    HexDigit(s[0]) * 4096 + HexDigit(s[1]) * 256 + HexDigit(s[2]) * 16 + HexDigit(s[3])
  }

  /** What the partial decoder makes of the letter after a backslash (other than `u`). */
  function LooseEscape(n: CodeUnit): CodeUnit {
    if n == LETTER_N then 10 else if n == LETTER_T then 9 else if n == LETTER_R then 13 else n
  }

  /** The decoded part of a string body that may be cut anywhere. */
  function Decode(body: Str): Str {
    if body == [] || body[0] == QUOTE then
      []
    else if body[0] != BACKSLASH then
      [body[0]] + Decode(body[1..])
    else if |body| < 2 then
      []
    else if body[1] != LETTER_U then
      [LooseEscape(body[1])] + Decode(body[2..])
    else if |body| >= 6 && AllHex(body[2..6]) then
      [HexValue(body[2..6])] + Decode(body[6..])
    else
      []
  }

  /** The preview shown for a whole argument buffer: unwrapped when it carries the wrapper. */
  function Partial(args: Str): Str {
    if WRAP_PREFIX <= args then Decode(args[|WRAP_PREFIX|..]) else args
  }

  method FreeformPartialInput(args: Str) returns (out: Str)
    ensures out == Partial(args)
  {
    if !(WRAP_PREFIX <= args) {
      return args;
    }
    out := DecodeLoop(args[|WRAP_PREFIX|..]);
  }

  method DecodeLoop(body: Str) returns (out: Str)
    ensures out == Decode(body)
  {
    out := [];
    var i := 0;
    while i < |body|
      invariant 0 <= i <= |body|
      invariant out + Decode(body[i..]) == Decode(body)
    {
      ghost var rest := body[i..];
      var c := body[i];
      if c == QUOTE { break; }
      var head, width := c, 1;
      if c == BACKSLASH {
        if i + 1 >= |body| { break; }
        var n := body[i + 1];
        if n != LETTER_U {
          head, width := LooseEscape(n), 2;
        } else if i + 6 <= |body| && AllHex(body[i + 2..i + 6]) {
          assert rest[2..6] == body[i + 2..i + 6];
          head, width := HexValue(body[i + 2..i + 6]), 6;
        } else {
          assert i + 6 <= |body| ==> rest[2..6] == body[i + 2..i + 6];
          break;
        }
      }
      DecodeStep(out, rest, head, body[i + width..]);
      out := out + [head];
      i := i + width;
    }
  }

  /** What one round of the decoder's loop consumes and yields. */
  predicate Consumes(body: Str, head: CodeUnit, tail: Str) {
    if body == [] || body[0] == QUOTE then false
    else if body[0] != BACKSLASH then head == body[0] && tail == body[1..]
    else if |body| < 2 then false
    else if body[1] != LETTER_U then head == LooseEscape(body[1]) && tail == body[2..]
    else |body| >= 6 && AllHex(body[2..6]) && head == HexValue(body[2..6]) && tail == body[6..]
  }

  lemma DecodeStep(out: Str, body: Str, head: CodeUnit, tail: Str)
    requires Consumes(body, head, tail)
    ensures out + [head] + Decode(tail) == out + Decode(body)
  {
    assert Decode(body) == [head] + Decode(tail);
    hide Decode;
  }

  // ---------------------------------------------------------------------------
  // The preview only grows
  // ---------------------------------------------------------------------------

  lemma {:induction false} DecodeGrows(body: Str, more: Str)
    ensures Decode(body) <= Decode(body + more)
  {
    if body == [] || body[0] == QUOTE {
    } else if body[0] != BACKSLASH {
      assert (body + more)[1..] == body[1..] + more;
      DecodeGrows(body[1..], more);
    } else if |body| < 2 {
    } else if body[1] != LETTER_U {
      assert (body + more)[2..] == body[2..] + more;
      DecodeGrows(body[2..], more);
    } else if |body| >= 6 && AllHex(body[2..6]) {
      assert (body + more)[2..6] == body[2..6];
      assert (body + more)[6..] == body[6..] + more;
      DecodeGrows(body[6..], more);
    }
  }

  /** While the buffer could still turn out to be the wrapper, nothing is sent. */
  predicate Ambiguous(args: Str) {
    args <= WRAP_PREFIX
  }

  /** Once past that point the preview of a longer buffer extends the earlier preview. */
  lemma PreviewGrows(args: Str, more: Str)
    requires !Ambiguous(args)
    ensures !Ambiguous(args + more) && Partial(args) <= Partial(args + more)
  {
    var n := |WRAP_PREFIX|;
    if WRAP_PREFIX <= args {
      assert (args + more)[n..] == args[n..] + more;
      DecodeGrows(args[n..], more);
    }
  }

  // ---------------------------------------------------------------------------
  // One chunk at a time
  // ---------------------------------------------------------------------------

  /** The suffix sent for a buffer when `emitted` is what the client already has. */
  function NextDelta(args: Str, emitted: Str): Option<Str> {
    if Ambiguous(args) then None
    else
      var full := Partial(args);
      if emitted <= full && |emitted| < |full| then Some(full[|emitted|..]) else None
  }

  /** What the client has after that suffix. */
  function NextEmitted(args: Str, emitted: Str): Str {
    if NextDelta(args, emitted).Some? then Partial(args) else emitted
  }

  /** The emitted text after a whole list of chunks, starting from an empty buffer. */
  function EmittedAfter(chunks: seq<Str>): Str {
    if chunks == [] then []
    else NextEmitted(Flatten(chunks), EmittedAfter(chunks[..|chunks| - 1]))
  }

  /** The deltas sent for a whole list of chunks. */
  function Deltas(chunks: seq<Str>): seq<Str> {
    if chunks == [] then []
    else
      var before := chunks[..|chunks| - 1];
      var next := NextDelta(Flatten(chunks), EmittedAfter(before));
      Deltas(before) + (if next.Some? then [next.value] else [])
  }

  /** For every chunking of every buffer, the deltas add up to the preview of the buffer. */
  lemma {:induction false} DeltasAddUp(chunks: seq<Str>)
    ensures var args := Flatten(chunks);
      var preview := if Ambiguous(args) then [] else Partial(args);
      Flatten(Deltas(chunks)) == preview && EmittedAfter(chunks) == preview
  {
    hide Partial, Ambiguous;
    if chunks == [] {
      EmptyIsAmbiguous();
    } else {
      var before, last := chunks[..|chunks| - 1], chunks[|chunks| - 1];
      assert chunks == before + [last];
      DeltasAddUp(before);
      OneMoreChunk(before, last);
    }
  }

  lemma OneMoreChunk(before: seq<Str>, last: Str)
    requires Flatten(Deltas(before)) == EmittedAfter(before)
    requires EmittedAfter(before) == if Ambiguous(Flatten(before)) then [] else Partial(Flatten(before))
    ensures var chunks := before + [last];
      var args := Flatten(chunks);
      && EmittedAfter(chunks) == (if Ambiguous(args) then [] else Partial(args))
      && Flatten(Deltas(chunks)) == EmittedAfter(chunks)
  {
    hide Partial, Ambiguous;
    var chunks := before + [last];
    assert chunks[..|chunks| - 1] == before;
    FlattenSnoc(before, last);
    if !Ambiguous(Flatten(before)) {
      PreviewGrows(Flatten(before), last);
    }
    hide Flatten;
    var emitted := EmittedAfter(before);
    NextDeltaCompletes(Flatten(chunks), emitted);
    var next := NextDelta(Flatten(chunks), emitted);
    if next.Some? {
      FlattenSnoc(Deltas(before), next.value);
    } else {
      assert Deltas(chunks) == Deltas(before);
    }
  }

  lemma EmptyIsAmbiguous()
    ensures Ambiguous([])
  {
  }

  lemma NextDeltaCompletes(args: Str, emitted: Str)
    requires !Ambiguous(args) ==> emitted <= Partial(args)
    ensures var next := NextDelta(args, emitted);
      && (Ambiguous(args) ==> next.None? && NextEmitted(args, emitted) == emitted)
      && (!Ambiguous(args) ==> NextEmitted(args, emitted) == Partial(args))
      && (next.Some? ==> emitted + next.value == Partial(args))
  {
    hide Partial;
  }

  // ---------------------------------------------------------------------------
  // RFC 8259 section 7: the strings a JSON writer can produce
  // ---------------------------------------------------------------------------

  /** One character of a JSON string as it may be written. */
  datatype Token = Plain(unit: CodeUnit) | Short(letter: CodeUnit) | Hex(digits: Str)

  predicate ValidToken(t: Token) {
    match t
    case Plain(u) => u >= 32 && u != QUOTE && u != BACKSLASH
    case Short(l) => l in [QUOTE, BACKSLASH, 47, LETTER_B, LETTER_F, LETTER_N, LETTER_R, LETTER_T]
    case Hex(d) => |d| == 4 && AllHex(d)
  }

  predicate ValidTokens(ts: seq<Token>) {
    forall i :: 0 <= i < |ts| ==> ValidToken(ts[i])
  }

  function Spell(t: Token): Str {
    match t
    case Plain(u) => [u]
    case Short(l) => [BACKSLASH, l]
    case Hex(d) => [BACKSLASH, LETTER_U] + d
  }

  /** The character a token stands for in the standard. */
  function Means(t: Token): CodeUnit
    requires ValidToken(t)
  {
    match t
    case Plain(u) => u
    case Short(l) =>
      if l == LETTER_B then 8 else if l == LETTER_F then 12
      else if l == LETTER_N then 10 else if l == LETTER_R then 13
      else if l == LETTER_T then 9 else l
    case Hex(d) => HexValue(d)
  }

  function SpellAll(ts: seq<Token>): Str {
    if ts == [] then [] else Spell(ts[0]) + SpellAll(ts[1..])
  }

  function MeansAll(ts: seq<Token>): (s: Str)
    requires ValidTokens(ts)
    ensures |s| == |ts|
    ensures forall i :: 0 <= i < |ts| ==> s[i] == Means(ts[i])
  {
    seq(|ts|, i requires 0 <= i < |ts| => Means(ts[i]))
  }

  /** The compact encoding `{"input":"..."}` of a string spelled by these tokens. */
  function Wrap(ts: seq<Token>): Str {
    WRAP_PREFIX + SpellAll(ts) + WRAP_SUFFIX
  }

  /** The two escapes the partial decoder reads as plain letters. */
  predicate BackspaceOrFormFeed(t: Token) {
    t == Short(LETTER_B) || t == Short(LETTER_F)
  }

  function LooseMeans(t: Token): CodeUnit
    requires ValidToken(t)
  {
    match t
    case Plain(u) => u
    case Short(l) => LooseEscape(l)
    case Hex(d) => HexValue(d)
  }

  /** One token in front is decoded first. */
  lemma DecodeToken(t: Token, tail: Str)
    requires ValidToken(t)
    ensures Decode(Spell(t) + tail) == [LooseMeans(t)] + Decode(tail)
  {
    var body := Spell(t) + tail;
    match t {
      case Plain(u) => assert body[1..] == tail;
      case Short(l) => assert body[2..] == tail;
      case Hex(d) => assert body[2..6] == d && body[6..] == tail;
    }
  }

  /** The decoder reads a closed string token by token. */
  lemma {:induction false} DecodeSpelling(ts: seq<Token>, rest: Str)
    requires ValidTokens(ts)
    ensures var d := Decode(SpellAll(ts) + [QUOTE] + rest);
      |d| == |ts| && forall i :: 0 <= i < |ts| ==> d[i] == LooseMeans(ts[i])
  {
    if ts == [] {
      assert SpellAll(ts) + [QUOTE] + rest == [QUOTE] + rest;
    } else {
      var tail := SpellAll(ts[1..]) + [QUOTE] + rest;
      assert SpellAll(ts) + [QUOTE] + rest == Spell(ts[0]) + tail;
      DecodeSpelling(ts[1..], rest);
      DecodeToken(ts[0], tail);
      hide Decode, Spell, LooseMeans;
      var d := Decode(SpellAll(ts) + [QUOTE] + rest);
      forall i | 0 <= i < |ts| ensures d[i] == LooseMeans(ts[i]) {
        if i > 0 { assert ts[i] == ts[1..][i - 1]; }
      }
    }
  }

  /** A complete wrapped string previews to its characters, read loosely. */
  lemma PreviewOfWrap(ts: seq<Token>)
    requires ValidTokens(ts)
    ensures var p := Partial(Wrap(ts));
      && !Ambiguous(Wrap(ts)) && |p| == |ts|
      && forall i :: 0 <= i < |ts| ==> (p[i] == Means(ts[i]) <==> !BackspaceOrFormFeed(ts[i]))
  {
    hide Decode, SpellAll;
    assert Wrap(ts)[|WRAP_PREFIX|..] == SpellAll(ts) + [QUOTE] + [125];
    DecodeSpelling(ts, [125]);
    forall i | 0 <= i < |ts|
      ensures LooseMeans(ts[i]) == Means(ts[i]) <==> !BackspaceOrFormFeed(ts[i])
    {
      assert ValidToken(ts[i]);
    }
  }

  /**
   * For every string, however it is spelled and however the call is cut into chunks, the
   * streamed deltas add up to the string the completed call carries exactly when the
   * spelling uses neither `\b` nor `\f`.
   */
  lemma StreamedInputIsTheInput(ts: seq<Token>, chunks: seq<Str>)
    requires ValidTokens(ts)
    requires Flatten(chunks) == Wrap(ts)
    ensures Flatten(Deltas(chunks)) == MeansAll(ts)
       <==> forall i :: 0 <= i < |ts| ==> !BackspaceOrFormFeed(ts[i])
  {
    hide Decode, Deltas, EmittedAfter, SpellAll, Flatten;
    DeltasAddUp(chunks);
    PreviewOfWrap(ts);
    var got := Flatten(Deltas(chunks));
    assert forall i :: 0 <= i < |ts| ==> (got[i] == MeansAll(ts)[i] <==> !BackspaceOrFormFeed(ts[i]));
    if forall i :: 0 <= i < |ts| ==> !BackspaceOrFormFeed(ts[i]) {
      assert got == MeansAll(ts);
    } else {
      var i :| 0 <= i < |ts| && BackspaceOrFormFeed(ts[i]);
      assert got[i] != MeansAll(ts)[i];
    }
  }

  // ---------------------------------------------------------------------------
  // The spelling JSON.stringify chooses
  // ---------------------------------------------------------------------------

  function HexChar(d: nat): (c: CodeUnit)
    requires d < 16
    ensures IsHex(c) && HexDigit(c) == d
  {
    if d < 10 then 48 + d else 87 + d
  }

  predicate IsHighSurrogate(c: CodeUnit) { 0xD800 <= c <= 0xDBFF }
  predicate IsLowSurrogate(c: CodeUnit) { 0xDC00 <= c <= 0xDFFF }

  /** JSON.stringify escapes a surrogate that has no partner. */
  predicate LoneSurrogate(s: Str, i: nat)
    requires i < |s|
  {
    || (IsHighSurrogate(s[i]) && !(i + 1 < |s| && IsLowSurrogate(s[i + 1])))
    || (IsLowSurrogate(s[i]) && !(i > 0 && IsHighSurrogate(s[i - 1])))
  }

  function HexToken(c: CodeUnit): (t: Token)
    ensures ValidToken(t) && Means(t) == c
  {
    var a, r := c / 4096, c % 4096;
    var b, q := r / 256, r % 256;
    Hex([HexChar(a), HexChar(b), HexChar(q / 16), HexChar(q % 16)])
  }

  function QuoteUnit(s: Str, i: nat): (t: Token)
    requires i < |s|
    ensures ValidToken(t) && Means(t) == s[i]
    ensures BackspaceOrFormFeed(t) <==> s[i] == 8 || s[i] == 12
  {
    var c := s[i];
    if c == QUOTE || c == BACKSLASH then Short(c)
    else if c == 8 then Short(LETTER_B)
    else if c == 9 then Short(LETTER_T)
    else if c == 10 then Short(LETTER_N)
    else if c == 12 then Short(LETTER_F)
    else if c == 13 then Short(LETTER_R)
    else if c < 32 || LoneSurrogate(s, i) then HexToken(c)
    else Plain(c)
  }

  /** The tokens JSON.stringify writes for a string. */
  function Quote(s: Str): (ts: seq<Token>)
    ensures |ts| == |s| && ValidTokens(ts)
    ensures MeansAll(ts) == s
  {
    var ts := seq(|s|, i requires 0 <= i < |s| => QuoteUnit(s, i));
    assert MeansAll(ts) == s;
    ts
  }

  /** Streaming a call a JSON.stringify wrote loses nothing unless the text has U+0008 or U+000C. */
  lemma StringifiedInputStreamsFaithfully(s: Str, chunks: seq<Str>)
    requires Flatten(chunks) == Wrap(Quote(s))
    ensures Flatten(Deltas(chunks)) == s <==> 8 !in s && 12 !in s
  {
    var ts := Quote(s);
    StreamedInputIsTheInput(ts, chunks);
    forall i | 0 <= i < |ts| ensures BackspaceOrFormFeed(ts[i]) <==> s[i] == 8 || s[i] == 12 {
      assert ts[i] == QuoteUnit(s, i);
    }
  }
}
