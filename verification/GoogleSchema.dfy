/**
 * The function-schema sanitizer (src/adapters/google-tool-schema.ts): an arbitrary, possibly
 * cyclic JSON schema becomes one in Google's subset.
 */
module GoogleSchema {
  import opened Prelude
  import opened GoogleJson

  const MAX_SCHEMA_DEPTH: nat := 24
  const MAX_DEREF_DEPTH: nat := 16

  const NULL_TYPE: Str := [110, 117, 108, 108]
  const STRING_TYPE: Str := [115, 116, 114, 105, 110, 103]
  const INTEGER_TYPE: Str := [105, 110, 116, 101, 103, 101, 114]
  const NUMBER_TYPE: Str := [110, 117, 109, 98, 101, 114]
  const BOOLEAN_TYPE: Str := [98, 111, 111, 108, 101, 97, 110]
  const ARRAY_TYPE: Str := [97, 114, 114, 97, 121]
  const OBJECT_TYPE: Str := [111, 98, 106, 101, 99, 116]

  predicate AllowedType(t: Str) {
    t == STRING_TYPE || t == INTEGER_TYPE || t == NUMBER_TYPE || t == BOOLEAN_TYPE || t == ARRAY_TYPE || t == OBJECT_TYPE
  }

  /** The shared definitions, and how a `$ref` text names one of them. */
  datatype Scope = Scope(defs: Object, pointer: Str -> Option<Name>)

  /** Definitions under `$defs` win over those under `definitions`. */
  function CollectDefs(root: Json): Object {
    if !root.Obj? then map[]
    else
      var first := GetObject(root.fields, Defs);
      var second := GetObject(root.fields, Definitions);
      (if second.Some? then second.value else map[]) + (if first.Some? then first.value else map[])
  }

  /** The schema object a node's `$ref` leads to. */
  function Target(node: Object, scope: Scope): Option<Object> {
    var ref := GetText(node, Ref);
    if ref.None? then None
    else
      var name := scope.pointer(ref.value);
      if name.None? then None else GetObject(scope.defs, name.value)
  }

  // ---------------------------------------------------------------------------
  // Types and enums
  // ---------------------------------------------------------------------------

  function Candidates(value: Option<Json>): seq<Json> {
    if value.None? then [] else if value.value.Arr? then value.value.items else [value.value]
  }

  predicate IsNullType(j: Json) {
    j.Text? && Lower(j.s) == NULL_TYPE
  }

  predicate IsAllowedType(j: Json) {
    j.Text? && AllowedType(Lower(j.s))
  }

  /** The first allowed type among the candidates, in lower case. */
  function FirstType(candidates: seq<Json>): (t: Option<Str>)
    ensures t.Some? ==> AllowedType(t.value)
  {
    if candidates == [] then None
    else if IsAllowedType(candidates[0]) then Some(Lower(candidates[0].s))
    else FirstType(candidates[1..])
  }

  function TypeFields(t: Option<Str>, sawNull: bool, preserveNullType: bool): Object {
    if t.Some? then (if sawNull then map[Type := Text(t.value), Nullable := Bool(true)] else map[Type := Text(t.value)])
    else if !sawNull then map[]
    else if preserveNullType then map[Type := Text(NULL_TYPE)]
    else map[Nullable := Bool(true)]
  }

  /** What a `type` keyword contributes. */
  function NormalizedType(value: Option<Json>, preserveNullType: bool): Object {
    var cs := Candidates(value);
    TypeFields(FirstType(cs), exists i :: 0 <= i < |cs| && IsNullType(cs[i]), preserveNullType)
  }

  method NormalizeType(value: Option<Json>, preserveNullType: bool) returns (out: Object)
    ensures out == NormalizedType(value, preserveNullType)
  {
    var candidates := Candidates(value);
    var kind: Option<Str> := None;
    var sawNull := false;
    var i := 0;
    while i < |candidates|
      invariant 0 <= i <= |candidates|
      invariant sawNull <==> exists k :: 0 <= k < i && IsNullType(candidates[k])
      invariant FirstType(candidates) == if kind.Some? then kind else FirstType(candidates[i..])
    {
      var c := candidates[i];
      assert candidates[i..][1..] == candidates[i + 1..];
      if IsNullType(c) {
        sawNull := true;
      } else if kind.None? && IsAllowedType(c) {
        kind := Some(Lower(c.s));
      }
      i := i + 1;
    }
    out := map[];
    if kind.Some? { out := out[Type := Text(kind.value)]; }
    if sawNull {
      if kind.Some? { out := out[Nullable := Bool(true)]; }
      else if preserveNullType { out := out[Type := Text(NULL_TYPE)]; }
      else { out := out[Nullable := Bool(true)]; }
    }
  }

  function SanitizeEnum(value: Option<Json>): (r: Option<seq<Json>>)
    ensures r.Some? ==> r.value != [] && DistinctTexts(r.value)
  {
    if value.None? || !value.value.Arr? then None
    else
      var values := UniqueTexts(value.value.items);
      if values != [] then Some(values) else None
  }

  /** `enum`, or a string `const` as an enum of one. */
  function EnumSource(node: Object): Option<Json> {
    if Enum in node && !node[Enum].Null? then Some(node[Enum])
    else if GetText(node, Const).Some? then Some(Arr([node[Const]]))
    else None
  }

  // ---------------------------------------------------------------------------
  // anyOf
  // ---------------------------------------------------------------------------

  predicate IsNullSchema(s: Object) {
    GetText(s, Type) == Some(NULL_TYPE)
  }

  function NonNull(schemas: seq<Object>): seq<Object> {
    if schemas == [] then []
    else (if IsNullSchema(schemas[0]) then [] else [schemas[0]]) + NonNull(schemas[1..])
  }

  function EnumOf(s: Object): seq<Json> {
    if GetArray(s, Enum).Some? then GetArray(s, Enum).value else []
  }

  /** The enum lists of all branches, joined. */
  function AllEnums(schemas: seq<Object>): seq<Json> {
    if schemas == [] then [] else EnumOf(schemas[0]) + AllEnums(schemas[1..])
  }

  /** One branch besides plain null branches: that branch, nullable. */
  predicate NullableUnion(schemas: seq<Object>) {
    && |NonNull(schemas)| == 1 && |NonNull(schemas)| < |schemas|
    && forall i :: 0 <= i < |schemas| && IsNullSchema(schemas[i]) ==> schemas[i].Keys <= {Type}
  }

  /** All branches are enums of one type. */
  predicate EnumUnion(schemas: seq<Object>)
    requires schemas != []
  {
    && !IsNullSchema(schemas[0])
    && (forall i :: 0 <= i < |schemas| ==> Get(schemas[i], Type) == Get(schemas[0], Type))
    && (forall i :: 0 <= i < |schemas| ==> GetArray(schemas[i], Enum).Some? && schemas[i].Keys <= {Type, Enum})
  }

  /** What an `anyOf` with these sanitized branches contributes. */
  function CollapseUnion(schemas: seq<Object>): Object {
    if schemas == [] then map[]
    else if NullableUnion(schemas) then NonNull(schemas)[0][Nullable := Bool(true)]
    else if EnumUnion(schemas) && SanitizeEnum(Some(Arr(AllEnums(schemas)))).Some? then
      var values := map[Enum := Arr(SanitizeEnum(Some(Arr(AllEnums(schemas)))).value)];
      if GetText(schemas[0], Type).Some? then values[Type := schemas[0][Type]] else values
    else map[]
  }

  // ---------------------------------------------------------------------------
  // The sanitizer
  // ---------------------------------------------------------------------------

  function Sanitize(node: Json, scope: Scope, depth: nat, refDepth: nat, preserveNullType: bool): Object
    requires refDepth <= MAX_DEREF_DEPTH
    decreases MAX_SCHEMA_DEPTH - depth, MAX_DEREF_DEPTH - refDepth, 2
  {
    if depth >= MAX_SCHEMA_DEPTH || !node.Obj? then map[]
    else if refDepth < MAX_DEREF_DEPTH && Target(node.fields, scope).Some? then
      Sanitize(Obj(Target(node.fields, scope).value + (node.fields - {Ref})), scope, depth, refDepth + 1, preserveNullType)
    else
      var union := GetArray(node.fields, AnyOf);
      Plain(node.fields, scope, depth, refDepth, preserveNullType)
        + CollapseUnion(if union.Some? then Branches(union.value, scope, depth, refDepth) else [])
  }

  /** The only keywords ever written. */
  const KEYWORDS: set<Name> := {Type, Nullable, Description, Format, Enum, Properties, Items, Required}

  /** Everything but `$ref` and `anyOf`, keyword by keyword. */
  function Plain(node: Object, scope: Scope, depth: nat, refDepth: nat, preserveNullType: bool): Object
    requires depth < MAX_SCHEMA_DEPTH && refDepth <= MAX_DEREF_DEPTH
    decreases MAX_SCHEMA_DEPTH - depth, MAX_DEREF_DEPTH - refDepth, 1
  {
    map k | k in KEYWORDS && PlainField(node, k, scope, depth, refDepth, preserveNullType).Some?
      :: PlainField(node, k, scope, depth, refDepth, preserveNullType).value
  }

  function ToArray(items: Option<seq<Json>>): Option<Json> {
    if items.Some? then Some(Arr(items.value)) else None
  }

  function TextOnly(v: Option<Json>): Option<Json> {
    if v.Some? && v.value.Text? then v else None
  }

  /** What one keyword of a node becomes. */
  function PlainField(node: Object, k: Name, scope: Scope, depth: nat, refDepth: nat, preserveNullType: bool): Option<Json>
    requires depth < MAX_SCHEMA_DEPTH && refDepth <= MAX_DEREF_DEPTH
    decreases MAX_SCHEMA_DEPTH - depth, MAX_DEREF_DEPTH - refDepth, 0
  {
    match k
    case Type => Get(NormalizedType(Get(node, Type), preserveNullType), Type)
    case Nullable =>
      if Nullable in node && node[Nullable].Bool? then Some(node[Nullable])
      else Get(NormalizedType(Get(node, Type), preserveNullType), Nullable)
    case Description => TextOnly(Get(node, Description))
    case Format => TextOnly(Get(node, Format))
    case Enum => ToArray(SanitizeEnum(EnumSource(node)))
    case Properties =>
      if GetObject(node, Properties).Some?
      then Some(Obj(Bag(node[Properties].fields, scope, depth + 1, refDepth))) else None
    case Items =>
      if GetObject(node, Items).Some?
      then Some(Obj(Sanitize(node[Items], scope, depth + 1, refDepth, false))) else None
    case Required =>
      if GetArray(node, Required).Some? then Some(Arr(UniqueTexts(node[Required].items))) else None
    case _ => None
  }

  /** Property names are a bag of names, never keywords. */
  function Bag(properties: Object, scope: Scope, depth: nat, refDepth: nat): Object
    requires depth <= MAX_SCHEMA_DEPTH && refDepth <= MAX_DEREF_DEPTH
    decreases MAX_SCHEMA_DEPTH - depth, MAX_DEREF_DEPTH - refDepth, 3
  {
    map name | name in properties :: Obj(Sanitize(properties[name], scope, depth, refDepth, false))
  }

  function Branches(items: seq<Json>, scope: Scope, depth: nat, refDepth: nat): (r: seq<Object>)
    requires depth < MAX_SCHEMA_DEPTH && refDepth <= MAX_DEREF_DEPTH
    ensures |r| == |items|
    decreases MAX_SCHEMA_DEPTH - depth, MAX_DEREF_DEPTH - refDepth, 0
  {
    seq(|items|, i requires 0 <= i < |items| => Sanitize(items[i], scope, depth + 1, refDepth, true))
  }

  /** The root always becomes an object schema with properties. */
  function SanitizeParameters(parameters: Json, pointer: Str -> Option<Name>): Object {
    var root := Sanitize(parameters, Scope(CollectDefs(parameters), pointer), 0, 0, false)[Type := Text(OBJECT_TYPE)];
    if GetObject(root, Properties).Some? then root else root[Properties := Obj(map[])]
  }
}
