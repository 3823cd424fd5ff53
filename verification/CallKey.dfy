/**
 * The identity of a function call, `name::canonicalArgs` (`functionCallKey` in
 * src/adapters/google-antigravity-replay.ts). The separator may also occur in the name and in
 * the arguments; the key is exact all the same.
 */
module CallKey {
  import opened Prelude
  import opened CanonicalJson
  import F = Freeform

  const SEPARATOR: Str := [58, 58]

  /** Absent and null arguments count as the empty object. */
  function ArgsOf(args: Option<Json>): Json {
    if args.None? || args.value.Null? then Obj([]) else args.value
  }

  /** A name that is not a non-empty string gives no key. */
  function FunctionCallKey(name: Option<Json>, args: Option<Json>): Option<Str> {
    if name.None? || !name.value.Text? || name.value.s == [] then None
    else Some(name.value.s + SEPARATOR + Canonical(ArgsOf(args)))
  }

  // ---------------------------------------------------------------------------
  // Where in a JSON text a position can be
  // ---------------------------------------------------------------------------

  /** Outside strings, right after a colon outside strings, in a string, after a backslash, or nowhere legal. */
  datatype Place = Out | Colon | In | Esc | Bad

  function Step(p: Place, c: CodeUnit): Place {
    match p
    case Out => if c == 34 then In else if c == 92 then Bad else if c == 58 then Colon else Out
    case Colon => if c == 34 then In else if c == 92 || c == 58 then Bad else Out
    case In => if c == 34 then Out else if c == 92 then Esc else In
    case Esc => In
    case Bad => Bad
  }

  function Scan(p: Place, s: Str): Place
    decreases s
  {
    if s == [] then p else Scan(Step(p, s[0]), s[1..])
  }

  lemma ScanOne(c: CodeUnit, rest: Str)
    ensures forall p: Place :: Scan(p, [c] + rest) == Scan(Step(p, c), rest)
  {
    assert ([c] + rest)[1..] == rest;
  }

  lemma {:induction false} ScanAppend(p: Place, a: Str, b: Str)
    ensures Scan(p, a + b) == Scan(Scan(p, a), b)
    decreases a
  {
    if a == [] {
      assert a + b == b;
    } else {
      assert a + b == [a[0]] + (a[1..] + b);
      ScanOne(a[0], a[1..] + b);
      ScanAppend(Step(p, a[0]), a[1..], b);
    }
  }

  lemma {:induction false} BadStays(s: Str)
    ensures Scan(Bad, s) == Bad
  {
    if s != [] { BadStays(s[1..]); }
  }

  /** Neither a quote, a backslash nor a colon. */
  predicate Dull(s: Str) {
    forall i :: 0 <= i < |s| ==> s[i] != 34 && s[i] != 92 && s[i] != 58
  }

  lemma {:induction false} DullRun(s: Str)
    requires Dull(s)
    ensures Scan(Out, s) == Out && Scan(In, s) == In
    ensures s != [] ==> Scan(Colon, s) == Out
  {
    if s != [] { DullRun(s[1..]); }
  }

  /** Read from inside a string, the spelled tokens stay inside. */
  lemma {:induction false} TokensInside(ts: seq<F.Token>)
    requires F.ValidTokens(ts)
    ensures Scan(In, F.SpellAll(ts)) == In
  {
    if ts != [] {
      var t := ts[0];
      assert F.ValidToken(t);
      ScanAppend(In, F.Spell(t), F.SpellAll(ts[1..]));
      TokenInside(t);
      TokensInside(ts[1..]);
    }
  }

  lemma TokenInside(t: F.Token)
    requires F.ValidToken(t)
    ensures Scan(In, F.Spell(t)) == In
  {
    match t {
      case Plain(u) => ScanOne(u, []);
      case Short(l) =>
        assert F.Spell(t) == [92] + ([l] + []);
        ScanOne(92, [l] + []);
        ScanOne(l, []);
      case Hex(d) =>
        assert F.Spell(t) == [92] + ([117] + d);
        ScanOne(92, [117] + d);
        ScanOne(117, d);
        DullRun(d);
    }
  }

  /** Read from outside, a token is plain text or illegal. */
  lemma TokenOutside(p: Place, t: F.Token)
    requires F.ValidToken(t) && p in {Out, Colon, Bad}
    ensures Scan(p, F.Spell(t)) in {Out, Colon, Bad}
  {
    match t {
      case Plain(u) => ScanOne(u, []);
      case _ =>
        var s := F.Spell(t);
        assert s == [92] + s[1..];
        ScanOne(92, s[1..]);
        BadStays(s[1..]);
    }
  }

  lemma {:induction false} TokensOutside(p: Place, ts: seq<F.Token>)
    requires F.ValidTokens(ts) && p in {Out, Colon, Bad}
    ensures Scan(p, F.SpellAll(ts)) in {Out, Colon, Bad}
    decreases ts
  {
    if ts != [] {
      assert F.ValidToken(ts[0]);
      hide F.Spell, F.ValidToken, Step;
      ScanAppend(p, F.Spell(ts[0]), F.SpellAll(ts[1..]));
      TokenOutside(p, ts[0]);
      TokensOutside(Scan(p, F.Spell(ts[0])), ts[1..]);
    }
  }

  // ---------------------------------------------------------------------------
  // A printed value, scanned from outside and from inside a string
  // ---------------------------------------------------------------------------

  /** Scanned from outside a value ends outside; from inside a string it stays inside or is illegal. */
  predicate Balanced(s: Str, rest: Str) {
    && Scan(Out, s) == Scan(Out, rest)
    && Scan(Colon, s) == Scan(Out, rest)
    && (Scan(In, s) == Scan(In, rest) || Scan(In, s) == Bad)
  }

  lemma TextBalanced(x: Str, rest: Str)
    ensures Balanced(PrintText(x, rest), rest)
  {
    hide F.Quote, F.SpellAll;
    var ts := F.Quote(x);
    var body := F.SpellAll(ts) + ([34] + rest);
    ScanOne(34, body);
    ScanOne(34, rest);
    ScanAppend(In, F.SpellAll(ts), [34] + rest);
    ScanAppend(Out, F.SpellAll(ts), [34] + rest);
    TokensInside(ts);
    TokensOutside(Out, ts);
    BadStays(rest);
  }

  lemma DullBalanced(s: Str, rest: Str)
    requires Dull(s) && s != []
    ensures Balanced(s + rest, rest)
  {
    hide Dull;
    ScanAppend(Out, s, rest);
    ScanAppend(Colon, s, rest);
    ScanAppend(In, s, rest);
    DullRun(s);
  }

  /** One punctuation mark that is neither a quote, a backslash nor a colon. */
  lemma MarkBalanced(c: CodeUnit, s: Str, rest: Str)
    requires c != 34 && c != 92 && c != 58 && Balanced(s, rest)
    ensures Balanced([c] + s, rest)
  {
    ScanOne(c, s);
  }

  lemma Plainly(rest: Str)
    ensures Balanced([93] + rest, rest) && Balanced([125] + rest, rest)
  {
    ScanOne(93, rest);
    ScanOne(125, rest);
  }

  lemma Chain(a: Str, b: Str, rest: Str)
    requires Balanced(a, b) && Balanced(b, rest)
    ensures Balanced(a, rest)
  {
  }

  lemma ConstantIsDull(j: Json)
    requires j.Null? || j.Bool? || j.Num?
    ensures Dull(Show(j)) && Show(j) != []
  {
  }

  lemma {:induction false} ValueBalanced(j: Json, rest: Str)
    ensures Balanced(Print(j, rest), rest)
    decreases j
  {
    hide Balanced, PrintItems, PrintFields, PrintText, Dull, Show;
    match j {
      case Text(s) => TextBalanced(s, rest);
      case Arr(items) =>
        ItemsBalanced(items, rest);
        MarkBalanced(91, PrintItems(items, rest), rest);
      case Obj(fields) =>
        FieldsBalanced(fields, rest);
        MarkBalanced(123, PrintFields(fields, rest), rest);
      case _ =>
        ConstantIsDull(j);
        DullBalanced(Show(j), rest);
    }
  }

  lemma {:induction false} ItemsBalanced(items: seq<Json>, rest: Str)
    ensures Balanced(PrintItems(items, rest), rest)
    decreases items, 1
  {
    hide Balanced, Print, PrintMoreItems;
    if items == [] {
      Plainly(rest);
    } else {
      var tail := PrintMoreItems(items[1..], rest);
      ValueBalanced(items[0], tail);
      MoreItemsBalanced(items[1..], rest);
      Chain(Print(items[0], tail), tail, rest);
    }
  }

  lemma {:induction false} MoreItemsBalanced(items: seq<Json>, rest: Str)
    ensures Balanced(PrintMoreItems(items, rest), rest)
    decreases items, 0
  {
    hide Balanced, Print;
    if items == [] {
      Plainly(rest);
    } else {
      var tail := PrintMoreItems(items[1..], rest);
      ValueBalanced(items[0], tail);
      MoreItemsBalanced(items[1..], rest);
      Chain(Print(items[0], tail), tail, rest);
      MarkBalanced(44, Print(items[0], tail), rest);
    }
  }

  lemma {:induction false} FieldBalanced(f: Field, rest: Str)
    ensures Balanced(PrintField(f, rest), rest)
    decreases f
  {
    hide Print, PrintText, Scan;
    var value := Print(f.value, rest);
    TextBalanced(f.key, [58] + value);
    ValueBalanced(f.value, rest);
    ScanOne(58, value);
  }

  lemma {:induction false} FieldsBalanced(fields: seq<Field>, rest: Str)
    ensures Balanced(PrintFields(fields, rest), rest)
    decreases fields, 1
  {
    hide Balanced, PrintField, PrintMoreFields;
    if fields == [] {
      Plainly(rest);
    } else {
      var tail := PrintMoreFields(fields[1..], rest);
      FieldBalanced(fields[0], tail);
      MoreFieldsBalanced(fields[1..], rest);
      Chain(PrintField(fields[0], tail), tail, rest);
    }
  }

  lemma {:induction false} MoreFieldsBalanced(fields: seq<Field>, rest: Str)
    ensures Balanced(PrintMoreFields(fields, rest), rest)
    decreases fields, 0
  {
    hide Balanced, PrintField;
    if fields == [] {
      Plainly(rest);
    } else {
      var tail := PrintMoreFields(fields[1..], rest);
      FieldBalanced(fields[0], tail);
      MoreFieldsBalanced(fields[1..], rest);
      Chain(PrintField(fields[0], tail), tail, rest);
      MarkBalanced(44, PrintField(fields[0], tail), rest);
    }
  }

  /** A whole JSON text: legal from outside, never legal to the end from inside a string. */
  lemma WholeText(j: Json)
    ensures Scan(Out, Show(j)) == Out && Scan(In, Show(j)) in {In, Bad}
    ensures Show(j) != [] && Show(j)[0] != 58
  {
    hide Show, Print;
    PrintShows(j, []);
    ValueBalanced(j, []);
    LeadPrints(j, []);
    assert Show(j) + [] == Show(j);
  }

  // ---------------------------------------------------------------------------
  // The key is exact
  // ---------------------------------------------------------------------------

  /** A second separator inside a JSON text sits inside a string, so no JSON text can follow it. */
  lemma NoTextAfterSeparator(a: Json, b: Json, q: Str)
    ensures Show(a) != q + SEPARATOR + Show(b)
  {
    hide Show;
    WholeText(a);
    WholeText(b);
    var p := Scan(Out, q);
    ScanAppend(Out, q + SEPARATOR, Show(b));
    ScanAppend(Out, q, SEPARATOR);
    assert SEPARATOR == [58] + ([58] + []);
    ScanOne(58, [58] + []);
    ScanOne(58, []);
    BadStays(Show(b));
  }

  /** When one name is longer, the other key's text runs across the separator. */
  lemma Overlap(m: Str, n: Str, s: Str, t: Str) returns (q: Str)
    requires m + SEPARATOR + s == n + SEPARATOR + t && |n| > |m|
    ensures |n| == |m| + 1 && s != [] ==> s[0] == 58
    ensures |n| >= |m| + 2 ==> s == q + SEPARATOR + t
  {
    var whole := m + SEPARATOR + s;
    assert whole[|m| + 2..] == s && whole[|n|..] == SEPARATOR + t;
    assert whole[|n| + 1] == SEPARATOR[1];
    q := [];
    if |n| >= |m| + 2 {
      q := whole[|m| + 2..|n|];
      assert whole[|m| + 2..] == q + whole[|n|..];
      assert q + (SEPARATOR + t) == q + SEPARATOR + t;
    }
  }

  lemma NotLonger(m: Str, n: Str, a: Json, b: Json)
    requires m + SEPARATOR + Show(a) == n + SEPARATOR + Show(b)
    ensures |n| <= |m|
  {
    hide Show;
    WholeText(a);
    if |n| > |m| {
      var q := Overlap(m, n, Show(a), Show(b));
      NoTextAfterSeparator(a, b, q);
    }
  }

  /** Names and printed values can be read back from a key, whatever colons they hold. */
  lemma KeyUnique(m: Str, n: Str, a: Json, b: Json)
    requires m + SEPARATOR + Show(a) == n + SEPARATOR + Show(b)
    ensures m == n && a == b
  {
    NotLonger(m, n, a, b);
    NotLonger(n, m, b, a);
    hide Show;
    Cut(m + SEPARATOR, n + SEPARATOR, Show(a), Show(b));
    assert m == (m + SEPARATOR)[..|m|] && n == (n + SEPARATOR)[..|n|];
    ShowIsInjective(a, b);
  }

  /**
   * Two calls have the same key exactly when they have the same name and their arguments are
   * equal up to key order, absent, null and empty arguments counting as equal.
   */
  lemma KeyIsExact(m: Str, n: Str, a: Option<Json>, b: Option<Json>)
    requires m != [] && n != [] && Proper(ArgsOf(a)) && Proper(ArgsOf(b))
    ensures FunctionCallKey(Some(Text(m)), a) == FunctionCallKey(Some(Text(n)), b)
       <==> m == n && Meaning(ArgsOf(a)) == Meaning(ArgsOf(b))
  {
    hide Show, Sorted, Meaning, Proper, ArgsOf;
    CanonicalIsExact(ArgsOf(a), ArgsOf(b));
    if FunctionCallKey(Some(Text(m)), a) == FunctionCallKey(Some(Text(n)), b) {
      KeyUnique(m, n, Sorted(ArgsOf(a)), Sorted(ArgsOf(b)));
    }
  }
}
