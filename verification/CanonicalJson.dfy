/**
 * The canonical printer used as a cache key (`canonicalJson` and `functionCallKey` in
 * src/adapters/google-antigravity-replay.ts): keys sorted at every depth, then compact JSON.
 * Two values print alike exactly when they are equal up to key order.
 */
module CanonicalJson {
  import opened Prelude
  import F = Freeform

  datatype Json =
    | Null
    | Bool(b: bool)
    | Num(n: int)
    | Text(s: Str)
    | Arr(items: seq<Json>)
    | Obj(fields: seq<Field>)
  datatype Field = Field(key: Str, value: Json)

  // ---------------------------------------------------------------------------
  // Printing
  // ---------------------------------------------------------------------------

  /** Decimal digits without leading zeros. */
  function Digits(n: nat): (d: Str)
    ensures d != [] && forall i :: 0 <= i < |d| ==> 48 <= d[i] <= 57
  {
    if n < 10 then [48 + n] else Digits(n / 10) + [48 + n % 10]
  }

  function ShowInt(n: int): Str {
    if n < 0 then [45] + Digits(-n) else Digits(n)
  }

  function ShowText(s: Str): Str {
    [34] + F.SpellAll(F.Quote(s)) + [34]
  }

  function Show(j: Json): Str {
    match j
    case Null => [110, 117, 108, 108]
    case Bool(b) => if b then [116, 114, 117, 101] else [102, 97, 108, 115, 101]
    case Num(n) => ShowInt(n)
    case Text(s) => ShowText(s)
    case Arr(items) => [91] + ShowItems(items) + [93]
    case Obj(fields) => [123] + ShowFields(fields) + [125]
  }

  function ShowItems(items: seq<Json>): Str {
    if items == [] then [] else Show(items[0]) + ShowMoreItems(items[1..])
  }

  function ShowMoreItems(items: seq<Json>): Str {
    if items == [] then [] else [44] + Show(items[0]) + ShowMoreItems(items[1..])
  }

  function ShowField(f: Field): Str {
    ShowText(f.key) + [58] + Show(f.value)
  }

  function ShowFields(fields: seq<Field>): Str {
    if fields == [] then [] else ShowField(fields[0]) + ShowMoreFields(fields[1..])
  }

  function ShowMoreFields(fields: seq<Field>): Str {
    if fields == [] then [] else [44] + ShowField(fields[0]) + ShowMoreFields(fields[1..])
  }

  // ---------------------------------------------------------------------------
  // The same printer, writing in front of a given rest
  // ---------------------------------------------------------------------------

  function PrintText(s: Str, rest: Str): Str {
    [34] + (F.SpellAll(F.Quote(s)) + ([34] + rest))
  }

  function Print(j: Json, rest: Str): Str {
    match j
    case Arr(items) => [91] + PrintItems(items, rest)
    case Obj(fields) => [123] + PrintFields(fields, rest)
    case Text(s) => PrintText(s, rest)
    case _ => Show(j) + rest
  }

  function PrintItems(items: seq<Json>, rest: Str): Str {
    if items == [] then [93] + rest else Print(items[0], PrintMoreItems(items[1..], rest))
  }

  function PrintMoreItems(items: seq<Json>, rest: Str): Str {
    if items == [] then [93] + rest else [44] + Print(items[0], PrintMoreItems(items[1..], rest))
  }

  function PrintField(f: Field, rest: Str): Str {
    PrintText(f.key, [58] + Print(f.value, rest))
  }

  function PrintFields(fields: seq<Field>, rest: Str): Str {
    if fields == [] then [125] + rest else PrintField(fields[0], PrintMoreFields(fields[1..], rest))
  }

  function PrintMoreFields(fields: seq<Field>, rest: Str): Str {
    if fields == [] then [125] + rest else [44] + PrintField(fields[0], PrintMoreFields(fields[1..], rest))
  }

  lemma PrintTextShows(s: Str, rest: Str)
    ensures PrintText(s, rest) == ShowText(s) + rest
  {
    hide F.Quote, F.SpellAll;
  }

  lemma {:induction false} PrintShows(j: Json, rest: Str)
    ensures Print(j, rest) == Show(j) + rest
    decreases j
  {
    hide ShowText, PrintText, ShowInt;
    match j {
      case Text(s) => PrintTextShows(s, rest);
      case Arr(items) =>
        if items != [] {
          PrintShows(items[0], PrintMoreItems(items[1..], rest));
          PrintMoreItemsShows(items[1..], rest);
        }
      case Obj(fields) =>
        if fields != [] {
          PrintFieldShows(fields[0], PrintMoreFields(fields[1..], rest));
          PrintMoreFieldsShows(fields[1..], rest);
        }
      case _ =>
    }
  }

  lemma {:induction false} PrintMoreItemsShows(items: seq<Json>, rest: Str)
    ensures PrintMoreItems(items, rest) == ShowMoreItems(items) + [93] + rest
    decreases items
  {
    hide Show, Print;
    if items != [] {
      PrintShows(items[0], PrintMoreItems(items[1..], rest));
      PrintMoreItemsShows(items[1..], rest);
    }
  }

  lemma {:induction false} PrintFieldShows(f: Field, rest: Str)
    ensures PrintField(f, rest) == ShowField(f) + rest
    decreases f
  {
    hide Show, Print, ShowText, PrintText;
    PrintShows(f.value, rest);
    PrintTextShows(f.key, [58] + Print(f.value, rest));
  }

  lemma {:induction false} PrintMoreFieldsShows(fields: seq<Field>, rest: Str)
    ensures PrintMoreFields(fields, rest) == ShowMoreFields(fields) + [125] + rest
    decreases fields
  {
    hide ShowField, PrintField;
    if fields != [] {
      PrintFieldShows(fields[0], PrintMoreFields(fields[1..], rest));
      PrintMoreFieldsShows(fields[1..], rest);
    }
  }

  // ---------------------------------------------------------------------------
  // Printing is injective
  // ---------------------------------------------------------------------------

  /** Cancels a common first code unit. */
  lemma Peel(c: CodeUnit, d: CodeUnit, x: Str, y: Str)
    requires [c] + x == [d] + y
    ensures c == d && x == y
  {
    assert ([c] + x)[0] == c && ([d] + y)[0] == d;
    assert ([c] + x)[1..] == x && ([d] + y)[1..] == y;
  }

  /** Cancels prefixes of equal length. */
  lemma Cut(a: Str, b: Str, x: Str, y: Str)
    requires |a| == |b| && a + x == b + y
    ensures a == b && x == y
  {
    assert (a + x)[..|a|] == a && (b + y)[..|b|] == b;
    assert (a + x)[|a|..] == x && (b + y)[|b|..] == y;
  }

  predicate IsDigit(c: CodeUnit) { 48 <= c <= 57 }

  /** What may follow a printed value: nothing, a comma or a closing bracket. */
  predicate Delimited(rest: Str) {
    rest == [] || rest[0] == 44 || rest[0] == 93 || rest[0] == 125
  }

  function Value(d: Str): int {
    if d == [] then 0 else Value(d[..|d| - 1]) * 10 + (d[|d| - 1] as int) - 48
  }

  lemma {:induction false} ValueOfDigits(n: nat)
    ensures Value(Digits(n)) == n
  {
    if n < 10 {
      assert Digits(n)[..0] == [];
      assert Value([]) == 0;
    } else {
      var d := Digits(n);
      ValueOfDigits(n / 10);
      assert d[..|d| - 1] == Digits(n / 10);
    }
  }

  /** A run of digits before a delimiter cannot stop short of another. */
  lemma NotShorter(p: Str, q: Str, x: Str, y: Str)
    requires forall i :: 0 <= i < |q| ==> IsDigit(q[i])
    requires Delimited(x) && p + x == q + y
    ensures |p| >= |q|
  {
    assert |p| < |q| ==> (p + x)[|p|] == q[|p|];
    assert x != [] ==> (p + x)[|p|] == x[0];
    assert x == [] ==> |p + x| == |p|;
  }

  /** Two digit runs before a delimiter that read the same are the same. */
  lemma DigitsUnique(a: nat, b: nat, x: Str, y: Str)
    requires Delimited(x) && Delimited(y) && Digits(a) + x == Digits(b) + y
    ensures a == b && x == y
  {
    hide Digits, Value;
    NotShorter(Digits(a), Digits(b), x, y);
    NotShorter(Digits(b), Digits(a), y, x);
    Cut(Digits(a), Digits(b), x, y);
    ValueOfDigits(a);
    ValueOfDigits(b);
  }

  lemma SignShows(n: int, x: Str)
    ensures ShowInt(n) + x == if n < 0 then [45] + (Digits(-n) + x) else Digits(n) + x
    ensures (ShowInt(n) + x)[0] == 45 <==> n < 0
  {
    hide Digits;
    assert (ShowInt(n) + x)[0] == ShowInt(n)[0];
  }

  lemma IntUnique(a: int, b: int, x: Str, y: Str)
    requires Delimited(x) && Delimited(y) && ShowInt(a) + x == ShowInt(b) + y
    ensures a == b && x == y
  {
    hide Digits, Delimited, ShowInt;
    SignShows(a, x);
    SignShows(b, y);
    if a >= 0 {
      DigitsUnique(a, b, x, y);
    } else {
      Peel(45, 45, Digits(-a) + x, Digits(-b) + y);
      DigitsUnique(-a, -b, x, y);
    }
  }

  /** No token's spelling begins another's. */
  lemma TokenUnique(t: F.Token, u: F.Token, x: Str, y: Str)
    requires F.ValidToken(t) && F.ValidToken(u) && F.Spell(t) + x == F.Spell(u) + y
    ensures t == u && x == y
  {
    hide F.AllHex;
    var a, b := F.Spell(t), F.Spell(u);
    assert (a + x)[0] == a[0] && (b + y)[0] == b[0];
    assert |a| > 1 ==> (a + x)[1] == a[1];
    assert |b| > 1 ==> (b + y)[1] == b[1];
    assert |a| == |b|;
    Cut(a, b, x, y);
    if t.Hex? {
      assert t.digits == a[2..] && u.digits == b[2..];
    }
  }

  lemma SpellStarts(t: F.Token, rest: Str)
    requires F.ValidToken(t)
    ensures var s := F.Spell(t) + rest; s != [] && s[0] != 34
  {
  }

  lemma SpellStep(ts: seq<F.Token>, rest: Str)
    ensures F.SpellAll(ts) + rest == if ts == [] then rest else F.Spell(ts[0]) + (F.SpellAll(ts[1..]) + rest)
  {
    hide F.Spell;
  }

  lemma {:induction false} SpellingUnique(ts: seq<F.Token>, us: seq<F.Token>, x: Str, y: Str)
    requires F.ValidTokens(ts) && F.ValidTokens(us)
    requires F.SpellAll(ts) + ([34] + x) == F.SpellAll(us) + ([34] + y)
    ensures ts == us && x == y
  {
    hide F.Spell, F.SpellAll, F.ValidToken;
    SpellStep(ts, [34] + x);
    SpellStep(us, [34] + y);
    if ts != [] { SpellStarts(ts[0], F.SpellAll(ts[1..]) + ([34] + x)); }
    if us != [] { SpellStarts(us[0], F.SpellAll(us[1..]) + ([34] + y)); }
    if ts == [] {
      Peel(34, 34, x, y);
    } else {
      TokenUnique(ts[0], us[0], F.SpellAll(ts[1..]) + ([34] + x), F.SpellAll(us[1..]) + ([34] + y));
      SpellingUnique(ts[1..], us[1..], x, y);
      assert ts == [ts[0]] + ts[1..] && us == [us[0]] + us[1..];
    }
  }

  lemma TextUnique(s: Str, t: Str, x: Str, y: Str)
    requires PrintText(s, x) == PrintText(t, y)
    ensures s == t && x == y
  {
    hide F.Quote, F.SpellAll;
    var ts, us := F.Quote(s), F.Quote(t);
    Peel(34, 34, F.SpellAll(ts) + ([34] + x), F.SpellAll(us) + ([34] + y));
    SpellingUnique(ts, us, x, y);
  }

  /** The first code unit tells the kinds of value apart. */
  function Lead(j: Json): nat {
    match j
    case Null => 0
    case Bool(b) => if b then 1 else 2
    case Num(_) => 3
    case Text(_) => 4
    case Arr(_) => 5
    case Obj(_) => 6
  }

  function LeadOf(c: CodeUnit): nat {
    if c == 110 then 0 else if c == 116 then 1 else if c == 102 then 2
    else if c == 45 || IsDigit(c) then 3
    else if c == 34 then 4 else if c == 91 then 5 else if c == 123 then 6 else 7
  }

  lemma LeadPrints(j: Json, rest: Str)
    ensures Print(j, rest) != [] && LeadOf(Print(j, rest)[0]) == Lead(j)
  {
    hide F.Quote, F.SpellAll, PrintItems, PrintFields;
  }

  lemma MoreItemsDelimited(a: seq<Json>, x: Str)
    ensures Delimited(PrintMoreItems(a, x))
  {
    hide Print;
  }

  lemma MoreFieldsDelimited(a: seq<Field>, x: Str)
    ensures Delimited(PrintMoreFields(a, x))
  {
    hide PrintField;
  }

  /** Two printed values that read the same up to a delimiter are the same value. */
  lemma {:induction false} PrintUnique(a: Json, b: Json, x: Str, y: Str)
    requires Delimited(x) && Delimited(y) && Print(a, x) == Print(b, y)
    ensures a == b && x == y
    decreases a, 2
  {
    hide PrintItems, PrintFields, PrintText, ShowInt, LeadOf, Delimited;
    LeadPrints(a, x);
    LeadPrints(b, y);
    match a {
      case Num(n) => IntUnique(n, b.n, x, y);
      case Text(s) => TextUnique(s, b.s, x, y);
      case Arr(items) =>
        Peel(91, 91, PrintItems(items, x), PrintItems(b.items, y));
        ItemsUnique(items, b.items, x, y);
      case Obj(fields) =>
        Peel(123, 123, PrintFields(fields, x), PrintFields(b.fields, y));
        FieldsUnique(fields, b.fields, x, y);
      case _ => Cut(Show(a), Show(b), x, y);
    }
  }

  lemma {:induction false} ItemsUnique(a: seq<Json>, b: seq<Json>, x: Str, y: Str)
    requires PrintItems(a, x) == PrintItems(b, y)
    ensures a == b && x == y
    decreases a, 1
  {
    hide Print, PrintMoreItems, Delimited;
    if a != [] { LeadPrints(a[0], PrintMoreItems(a[1..], x)); MoreItemsDelimited(a[1..], x); }
    if b != [] { LeadPrints(b[0], PrintMoreItems(b[1..], y)); MoreItemsDelimited(b[1..], y); }
    if a == [] || b == [] {
      assert a == [] && b == [];
      Peel(93, 93, x, y);
    } else {
      PrintUnique(a[0], b[0], PrintMoreItems(a[1..], x), PrintMoreItems(b[1..], y));
      MoreItemsUnique(a[1..], b[1..], x, y);
      assert a == [a[0]] + a[1..] && b == [b[0]] + b[1..];
    }
  }

  lemma {:induction false} MoreItemsUnique(a: seq<Json>, b: seq<Json>, x: Str, y: Str)
    requires PrintMoreItems(a, x) == PrintMoreItems(b, y)
    ensures a == b && x == y
    decreases a, 1
  {
    hide Print, Delimited;
    if a == [] || b == [] {
      assert PrintMoreItems(a, x)[0] == (if a == [] then 93 else 44);
      assert PrintMoreItems(b, y)[0] == (if b == [] then 93 else 44);
      Peel(93, 93, x, y);
    } else {
      var x1, y1 := PrintMoreItems(a[1..], x), PrintMoreItems(b[1..], y);
      Peel(44, 44, Print(a[0], x1), Print(b[0], y1));
      MoreItemsDelimited(a[1..], x);
      MoreItemsDelimited(b[1..], y);
      PrintUnique(a[0], b[0], x1, y1);
      MoreItemsUnique(a[1..], b[1..], x, y);
      assert a == [a[0]] + a[1..] && b == [b[0]] + b[1..];
    }
  }

  lemma {:induction false} FieldUnique(f: Field, g: Field, x: Str, y: Str)
    requires Delimited(x) && Delimited(y) && PrintField(f, x) == PrintField(g, y)
    ensures f == g && x == y
    decreases f, 3
  {
    hide Print, PrintText, Delimited;
    var x1, y1 := Print(f.value, x), Print(g.value, y);
    TextUnique(f.key, g.key, [58] + x1, [58] + y1);
    Peel(58, 58, x1, y1);
    PrintUnique(f.value, g.value, x, y);
  }

  lemma FieldLead(f: Field, rest: Str)
    ensures PrintField(f, rest) != [] && PrintField(f, rest)[0] == 34
  {
    hide Print, F.Quote, F.SpellAll;
  }

  lemma {:induction false} FieldsUnique(a: seq<Field>, b: seq<Field>, x: Str, y: Str)
    requires PrintFields(a, x) == PrintFields(b, y)
    ensures a == b && x == y
    decreases a, 1
  {
    hide PrintField, PrintMoreFields, Delimited;
    if a != [] { FieldLead(a[0], PrintMoreFields(a[1..], x)); MoreFieldsDelimited(a[1..], x); }
    if b != [] { FieldLead(b[0], PrintMoreFields(b[1..], y)); MoreFieldsDelimited(b[1..], y); }
    if a == [] || b == [] {
      assert a == [] && b == [];
      Peel(125, 125, x, y);
    } else {
      FieldUnique(a[0], b[0], PrintMoreFields(a[1..], x), PrintMoreFields(b[1..], y));
      MoreFieldsUnique(a[1..], b[1..], x, y);
      assert a == [a[0]] + a[1..] && b == [b[0]] + b[1..];
    }
  }

  lemma {:induction false} MoreFieldsUnique(a: seq<Field>, b: seq<Field>, x: Str, y: Str)
    requires PrintMoreFields(a, x) == PrintMoreFields(b, y)
    ensures a == b && x == y
    decreases a, 1
  {
    hide PrintField, Delimited;
    if a == [] || b == [] {
      assert PrintMoreFields(a, x)[0] == (if a == [] then 125 else 44);
      assert PrintMoreFields(b, y)[0] == (if b == [] then 125 else 44);
      Peel(125, 125, x, y);
    } else {
      var x1, y1 := PrintMoreFields(a[1..], x), PrintMoreFields(b[1..], y);
      Peel(44, 44, PrintField(a[0], x1), PrintField(b[0], y1));
      MoreFieldsDelimited(a[1..], x);
      MoreFieldsDelimited(b[1..], y);
      FieldUnique(a[0], b[0], x1, y1);
      MoreFieldsUnique(a[1..], b[1..], x, y);
      assert a == [a[0]] + a[1..] && b == [b[0]] + b[1..];
    }
  }

  /** The printer loses nothing: different values have different texts. */
  lemma ShowIsInjective(a: Json, b: Json)
    requires Show(a) == Show(b)
    ensures a == b
  {
    hide Show, Print;
    PrintShows(a, []);
    PrintShows(b, []);
    PrintUnique(a, b, [], []);
  }

  // ---------------------------------------------------------------------------
  // Sorting the keys
  // ---------------------------------------------------------------------------

  /** JavaScript's default string order: by UTF-16 code units. */
  predicate Less(s: Str, t: Str) {
    t != [] && (s == [] || s[0] < t[0] || (s[0] == t[0] && Less(s[1..], t[1..])))
  }

  lemma {:induction false} LessIsTotal(s: Str, t: Str)
    ensures Less(s, t) || s == t || Less(t, s)
  {
    if s != [] && t != [] && s[0] == t[0] {
      LessIsTotal(s[1..], t[1..]);
      assert s == [s[0]] + s[1..] && t == [t[0]] + t[1..];
    }
  }

  lemma {:induction false} LessIsStrict(s: Str, t: Str)
    requires Less(s, t)
    ensures s != t && !Less(t, s)
  {
    if s != [] && s[0] == t[0] { LessIsStrict(s[1..], t[1..]); }
  }

  lemma {:induction false} LessIsTransitive(s: Str, t: Str, u: Str)
    requires Less(s, t) && Less(t, u)
    ensures Less(s, u)
  {
    if s != [] && s[0] == t[0] == u[0] { LessIsTransitive(s[1..], t[1..], u[1..]); }
  }

  function Insert(f: Field, fields: seq<Field>): seq<Field> {
    if fields == [] || Less(f.key, fields[0].key) then [f] + fields
    else [fields[0]] + Insert(f, fields[1..])
  }

  /** The value with the keys of every object in order. */
  function Sorted(j: Json): Json {
    match j
    case Arr(items) => Arr(SortedItems(items))
    case Obj(fields) => Obj(SortedFields(fields))
    case _ => j
  }

  function SortedItems(items: seq<Json>): seq<Json> {
    if items == [] then [] else [Sorted(items[0])] + SortedItems(items[1..])
  }

  function SortedFields(fields: seq<Field>): seq<Field> {
    if fields == [] then []
    else Insert(Field(fields[0].key, Sorted(fields[0].value)), SortedFields(fields[1..]))
  }

  function Canonical(j: Json): Str {
    Show(Sorted(j))
  }

  // ---------------------------------------------------------------------------
  // What a JSON value means
  // ---------------------------------------------------------------------------

  /** A JSON value without an order on its keys. */
  datatype Val =
    | VNull
    | VBool(b: bool)
    | VNum(n: int)
    | VText(s: Str)
    | VArr(items: seq<Val>)
    | VObj(fields: map<Str, Val>)

  function Meaning(j: Json): Val {
    match j
    case Null => VNull
    case Bool(b) => VBool(b)
    case Num(n) => VNum(n)
    case Text(s) => VText(s)
    case Arr(items) => VArr(MeaningItems(items))
    case Obj(fields) => VObj(MeaningFields(fields))
  }

  function MeaningItems(items: seq<Json>): seq<Val> {
    if items == [] then [] else [Meaning(items[0])] + MeaningItems(items[1..])
  }

  function MeaningFields(fields: seq<Field>): map<Str, Val> {
    if fields == [] then map[] else MeaningFields(fields[1..])[fields[0].key := Meaning(fields[0].value)]
  }

  /** No object carries a key twice, as in any JavaScript object. */
  predicate Proper(j: Json) {
    match j
    case Arr(items) => forall i :: 0 <= i < |items| ==> Proper(items[i])
    case Obj(fields) => ProperFields(fields)
    case _ => true
  }

  predicate ProperFields(fields: seq<Field>) {
    fields == [] || (fields[0].key !in MeaningFields(fields[1..]) && Proper(fields[0].value) && ProperFields(fields[1..]))
  }

  predicate Above(k: Str, fields: seq<Field>) {
    forall i :: 0 <= i < |fields| ==> Less(k, fields[i].key)
  }

  /** Keys strictly increase at every depth. */
  predicate Ordered(j: Json) {
    match j
    case Arr(items) => forall i :: 0 <= i < |items| ==> Ordered(items[i])
    case Obj(fields) => OrderedFields(fields)
    case _ => true
  }

  predicate OrderedFields(fields: seq<Field>) {
    fields == [] || (Above(fields[0].key, fields[1..]) && Ordered(fields[0].value) && OrderedFields(fields[1..]))
  }

  lemma {:induction false} KeysAbove(k: Str, fields: seq<Field>, q: Str)
    requires Above(k, fields) && q in MeaningFields(fields)
    ensures Less(k, q)
  {
    hide Less, Meaning;
    if q != fields[0].key { KeysAbove(k, fields[1..], q); }
  }

  /** Inserting a new key keeps the order and adds that entry. */
  lemma {:induction false} InsertFits(f: Field, fields: seq<Field>)
    requires OrderedFields(fields) && Ordered(f.value) && f.key !in MeaningFields(fields)
    ensures OrderedFields(Insert(f, fields))
    ensures MeaningFields(Insert(f, fields)) == MeaningFields(fields)[f.key := Meaning(f.value)]
    ensures forall k :: Above(k, fields) && Less(k, f.key) ==> Above(k, Insert(f, fields))
  {
    hide Less, Meaning, Ordered;
    var r := Insert(f, fields);
    if fields == [] || Less(f.key, fields[0].key) {
      assert r[1..] == fields;
      forall i | 0 <= i < |fields| ensures Less(f.key, fields[i].key) {
        if i > 0 { LessIsTransitive(f.key, fields[0].key, fields[1..][i - 1].key); }
      }
    } else {
      LessIsTotal(f.key, fields[0].key);
      InsertFits(f, fields[1..]);
      assert r[1..] == Insert(f, fields[1..]);
    }
  }

  /** Sorting keeps the meaning and orders every object. */
  lemma {:induction false} SortedMeans(j: Json)
    requires Proper(j)
    ensures Meaning(Sorted(j)) == Meaning(j) && Ordered(Sorted(j))
    decreases j
  {
    match j {
      case Arr(items) => SortedItemsMean(items);
      case Obj(fields) => SortedFieldsMean(fields);
      case _ =>
    }
  }

  lemma {:induction false} SortedItemsMean(items: seq<Json>)
    requires forall i :: 0 <= i < |items| ==> Proper(items[i])
    ensures MeaningItems(SortedItems(items)) == MeaningItems(items)
    ensures forall i :: 0 <= i < |SortedItems(items)| ==> Ordered(SortedItems(items)[i])
    decreases items
  {
    hide Proper, Ordered, Meaning, Sorted;
    if items != [] {
      SortedMeans(items[0]);
      SortedItemsMean(items[1..]);
      assert SortedItems(items)[1..] == SortedItems(items[1..]);
    }
  }

  lemma {:induction false} SortedFieldsMean(fields: seq<Field>)
    requires ProperFields(fields)
    ensures MeaningFields(SortedFields(fields)) == MeaningFields(fields) && OrderedFields(SortedFields(fields))
    decreases fields
  {
    hide Proper, Ordered, Meaning, Sorted, Insert;
    if fields != [] {
      SortedMeans(fields[0].value);
      SortedFieldsMean(fields[1..]);
      InsertFits(Field(fields[0].key, Sorted(fields[0].value)), SortedFields(fields[1..]));
    }
  }

  /** An ordered value is the only ordered value of its meaning. */
  lemma {:induction false} OrderedUnique(a: Json, b: Json)
    requires Ordered(a) && Ordered(b) && Meaning(a) == Meaning(b)
    ensures a == b
    decreases a
  {
    match a {
      case Arr(items) => OrderedItemsUnique(items, b.items);
      case Obj(fields) => OrderedFieldsUnique(fields, b.fields);
      case _ =>
    }
  }

  lemma {:induction false} OrderedItemsUnique(a: seq<Json>, b: seq<Json>)
    requires forall i :: 0 <= i < |a| ==> Ordered(a[i])
    requires forall i :: 0 <= i < |b| ==> Ordered(b[i])
    requires MeaningItems(a) == MeaningItems(b)
    ensures a == b
    decreases a
  {
    hide Ordered, Meaning;
    assert |MeaningItems(a)| == 0 <==> a == [];
    assert |MeaningItems(b)| == 0 <==> b == [];
    if a != [] {
      assert MeaningItems(a)[0] == Meaning(a[0]) && MeaningItems(b)[0] == Meaning(b[0]);
      assert MeaningItems(a)[1..] == MeaningItems(a[1..]) && MeaningItems(b)[1..] == MeaningItems(b[1..]);
      OrderedUnique(a[0], b[0]);
      OrderedItemsUnique(a[1..], b[1..]);
      assert a == [a[0]] + a[1..] && b == [b[0]] + b[1..];
    }
  }

  /** The first key of an ordered object is its least. */
  lemma FirstIsLeast(fields: seq<Field>, q: Str)
    requires OrderedFields(fields) && q in MeaningFields(fields)
    ensures fields != [] && (q == fields[0].key || Less(fields[0].key, q))
    ensures fields[0].key !in MeaningFields(fields[1..])
  {
    hide Less, Meaning, Ordered;
    if q != fields[0].key { KeysAbove(fields[0].key, fields[1..], q); }
    if fields[0].key in MeaningFields(fields[1..]) {
      KeysAbove(fields[0].key, fields[1..], fields[0].key);
      LessIsStrict(fields[0].key, fields[0].key);
    }
  }

  lemma {:induction false} OrderedFieldsUnique(a: seq<Field>, b: seq<Field>)
    requires OrderedFields(a) && OrderedFields(b) && MeaningFields(a) == MeaningFields(b)
    ensures a == b
    decreases a
  {
    hide Ordered, Meaning, Less, Above;
    assert a != [] ==> a[0].key in MeaningFields(a);
    assert b != [] ==> b[0].key in MeaningFields(b);
    if a != [] && b != [] {
      FirstIsLeast(a, b[0].key);
      FirstIsLeast(b, a[0].key);
      if Less(a[0].key, b[0].key) { LessIsStrict(a[0].key, b[0].key); }
      assert a[0].key == b[0].key;
      assert Meaning(a[0].value) == MeaningFields(a)[a[0].key] == Meaning(b[0].value);
      OrderedUnique(a[0].value, b[0].value);
      assert MeaningFields(a[1..]) == MeaningFields(a) - {a[0].key};
      assert MeaningFields(b[1..]) == MeaningFields(b) - {b[0].key};
      OrderedFieldsUnique(a[1..], b[1..]);
      assert a == [a[0]] + a[1..] && b == [b[0]] + b[1..];
    }
  }

  /** The canonical texts of two values agree exactly when the values do, key order aside. */
  lemma CanonicalIsExact(a: Json, b: Json)
    requires Proper(a) && Proper(b)
    ensures Canonical(a) == Canonical(b) <==> Meaning(a) == Meaning(b)
  {
    hide Show, Sorted, Meaning, Proper, Ordered;
    SortedMeans(a);
    SortedMeans(b);
    if Canonical(a) == Canonical(b) {
      ShowIsInjective(Sorted(a), Sorted(b));
    }
    if Meaning(a) == Meaning(b) {
      OrderedUnique(Sorted(a), Sorted(b));
    }
  }
}
