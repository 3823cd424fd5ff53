/** The in-memory JSON values the Google request compiler reads and writes. */
module GoogleJson {
  import opened Prelude

  /** A property name: one of the words the compiler looks for, or any other text. */
  datatype Name =
    | Type | Nullable | Description | Format | Enum | Properties | Items | Required
    | AnyOf | Ref | Const | Defs | Definitions
    | Tools | FunctionDeclarations | ToolName | Parameters
    | Contents | Parts | FunctionCall | FunctionResponse
    | SystemInstruction | SessionId
    | GenerationConfig | MaxOutputTokens | Temperature | TopP | StopSequences
    | ThinkingConfig | ThinkingLevel | ResponseModalities
    | ToolConfig | FunctionCallingConfig | Mode | AllowedFunctionNames
    | Other(s: Str)

  /** A JSON value; the order of an object's properties is not part of it. */
  datatype Json =
    | Null
    | Bool(b: bool)
    | Num(r: real)
    | NonFinite
    | Text(s: Str)
    | Arr(items: seq<Json>)
    | Obj(fields: Object)

  type Object = map<Name, Json>

  function Get(o: Object, k: Name): (r: Option<Json>)
    ensures r.Some? <==> k in o
    ensures k in o ==> r.value == o[k]
  {
    if k in o then Some(o[k]) else None
  }

  /** The array stored under a name, if there is one. */
  function GetArray(o: Object, k: Name): Option<seq<Json>> {
    if k in o && o[k].Arr? then Some(o[k].items) else None
  }

  function GetObject(o: Object, k: Name): Option<Object> {
    if k in o && o[k].Obj? then Some(o[k].fields) else None
  }

  function GetText(o: Object, k: Name): Option<Str> {
    if k in o && o[k].Text? then Some(o[k].s) else None
  }

  /** Lower case of the ASCII letters. */
  function Lower(s: Str): (r: Str)
    ensures |r| == |s| && forall i :: 0 <= i < |s| ==> r[i] == LowerUnit(s[i])
  {
    seq(|s|, i requires 0 <= i < |s| => LowerUnit(s[i]))
  }

  /** All elements are strings, none twice. */
  predicate DistinctTexts(items: seq<Json>) {
    (forall i :: 0 <= i < |items| ==> items[i].Text?) && Distinct(items)
  }

  /** The strings of a list, each at its first place only: `[...new Set(list.filter(isString))]`. */
  function UniqueTexts(items: seq<Json>): (r: seq<Json>)
    ensures DistinctTexts(r)
    ensures forall x :: x in r <==> x in items && x.Text?
  {
    if items == [] then []
    else
      var before := UniqueTexts(items[..|items| - 1]);
      var last := items[|items| - 1];
      assert items == items[..|items| - 1] + [last];
      if last.Text? && last !in before then before + [last] else before
  }

  /** Deduplicating again changes nothing. */
  lemma {:induction false} DistinctStay(items: seq<Json>)
    requires DistinctTexts(items)
    ensures UniqueTexts(items) == items
  {
    if items != [] {
      var n := |items| - 1;
      DistinctStay(items[..n]);
      assert items[..n] + [items[n]] == items;
    }
  }

  /** The first place of an item. */
  function FirstAt(items: seq<Json>, x: Json): (n: nat)
    requires x in items
    ensures n < |items| && items[n] == x
    ensures forall i :: 0 <= i < n ==> items[i] != x
  {
    if items[0] == x then 0 else 1 + FirstAt(items[1..], x)
  }

  lemma {:induction false} FirstAtSnoc(items: seq<Json>, x: Json, y: Json)
    requires y in items + [x]
    ensures FirstAt(items + [x], y) == if y in items then FirstAt(items, y) else |items|
  {
    if items != [] {
      assert (items + [x])[1..] == items[1..] + [x];
      if items[0] != y { FirstAtSnoc(items[1..], x, y); }
    }
  }

  /** Deduplicating keeps the order of first appearances. */
  lemma {:induction false} UniqueOrder(items: seq<Json>, i: nat, j: nat)
    requires i < j < |UniqueTexts(items)|
    ensures UniqueTexts(items)[i] in items && UniqueTexts(items)[j] in items
    ensures FirstAt(items, UniqueTexts(items)[i]) < FirstAt(items, UniqueTexts(items)[j])
  {
    var n := |items| - 1;
    var before, last, all := UniqueTexts(items[..n]), items[n], UniqueTexts(items);
    assert items == items[..n] + [last];
    assert all[i] in all && all[j] in all;
    assert before[i] == all[i] && before[i] in before;
    FirstAtSnoc(items[..n], last, all[i]);
    FirstAtSnoc(items[..n], last, all[j]);
    if j < |before| {
      assert before[j] == all[j] && before[j] in before;
      UniqueOrder(items[..n], i, j);
    }
  }
}
