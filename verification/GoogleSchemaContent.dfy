/**
 * What sanitizing keeps: every keyword of a schema within the subset's means, a reference as the
 * schema it leads to under the node's own keywords, and a union only where it collapses.
 */
module GoogleSchemaContent {
  import opened Prelude
  import opened GoogleJson
  import opened GoogleSchema
  import P = GoogleSchemaProofs

  // ---------------------------------------------------------------------------
  // Keyword by keyword
  // ---------------------------------------------------------------------------

  /** The strings of a list, each once, in order of first appearance. */
  ghost predicate Deduped(src: seq<Json>, out: seq<Json>) {
    && DistinctTexts(out)
    && (forall x :: x in out <==> x in src && x.Text?)
    && (forall i, j :: 0 <= i < j < |out| ==> out[i] in src && out[j] in src && FirstAt(src, out[i]) < FirstAt(src, out[j]))
  }

  lemma UniqueIsDeduped(items: seq<Json>)
    ensures Deduped(items, UniqueTexts(items))
  {
    var out := UniqueTexts(items);
    forall i, j | 0 <= i < j < |out| ensures out[i] in items && out[j] in items && FirstAt(items, out[i]) < FirstAt(items, out[j]) {
      UniqueOrder(items, i, j);
    }
  }

  /** What a `type` keyword may list. */
  function Listed(v: Option<Json>): seq<Json> {
    match v
    case None => []
    case Some(Arr(items)) => items
    case Some(j) => [j]
  }

  predicate SaysNull(v: Option<Json>) {
    exists i :: 0 <= i < |Listed(v)| && IsNullType(Listed(v)[i])
  }

  predicate NoneAllowed(items: seq<Json>, n: nat)
    requires n <= |items|
  {
    forall i :: 0 <= i < n ==> !IsAllowedType(items[i])
  }

  /** The first type of Google's six that is listed, in lower case; `null` only where a union still needs it. */
  ghost predicate TypeKept(v: Option<Json>, union: bool, out: Option<Json>) {
    var items := Listed(v);
    if NoneAllowed(items, |items|) then out == (if union && SaysNull(v) then Some(Text(NULL_TYPE)) else None)
    else exists i :: 0 <= i < |items| && IsAllowedType(items[i]) && NoneAllowed(items, i) && out == Some(Text(Lower(items[i].s)))
  }

  /** An own boolean wins; otherwise a listed `null` makes the schema nullable, unless it stays the type. */
  predicate NullableKept(own: Option<Json>, v: Option<Json>, union: bool, out: Option<Json>) {
    if own.Some? && own.value.Bool? then out == own
    else if SaysNull(v) && (!union || !NoneAllowed(Listed(v), |Listed(v)|)) then out == Some(Bool(true))
    else out.None?
  }

  predicate TextKept(src: Option<Json>, out: Option<Json>) {
    out == if src.Some? && src.value.Text? then src else None
  }

  /** The enum, or a string constant as an enum of one. */
  function Options(node: Object): seq<Json> {
    if Enum in node && !node[Enum].Null? then Listed(if node[Enum].Arr? then Some(node[Enum]) else None)
    else if GetText(node, Const).Some? then [node[Const]] else []
  }

  ghost predicate EnumKept(node: Object, out: Option<Json>) {
    if out.None? then forall x :: x in Options(node) ==> !x.Text?
    else out.value.Arr? && out.value.items != [] && Deduped(Options(node), out.value.items)
  }

  ghost predicate RequiredKept(src: Option<Json>, out: Option<Json>) {
    if src.Some? && src.value.Arr? then out.Some? && out.value.Arr? && Deduped(src.value.items, out.value.items) else out.None?
  }

  /** Exactly the named properties, each sanitized one level further down. */
  predicate PropertiesKept(src: Option<Json>, out: Option<Json>, scope: Scope, depth: nat, refDepth: nat)
    requires refDepth <= MAX_DEREF_DEPTH
  {
    if src.Some? && src.value.Obj? then
      && out.Some? && out.value.Obj? && out.value.fields.Keys == src.value.fields.Keys
      && forall p :: p in src.value.fields ==> out.value.fields[p] == Obj(Sanitize(src.value.fields[p], scope, depth + 1, refDepth, false))
    else out.None?
  }

  predicate ItemsKept(src: Option<Json>, out: Option<Json>, scope: Scope, depth: nat, refDepth: nat)
    requires refDepth <= MAX_DEREF_DEPTH
  {
    out == if src.Some? && src.value.Obj? then Some(Obj(Sanitize(src.value, scope, depth + 1, refDepth, false))) else None
  }

  /** Every keyword of the output comes from the same keyword of the node, and nothing else is there. */
  ghost predicate KeywordsKept(node: Object, out: Object, scope: Scope, depth: nat, refDepth: nat, union: bool)
    requires refDepth <= MAX_DEREF_DEPTH
  {
    && TypeKept(Get(node, Type), union, Get(out, Type))
    && NullableKept(Get(node, Nullable), Get(node, Type), union, Get(out, Nullable))
    && TextKept(Get(node, Description), Get(out, Description)) && TextKept(Get(node, Format), Get(out, Format))
    && EnumKept(node, Get(out, Enum))
    && RequiredKept(Get(node, Required), Get(out, Required))
    && PropertiesKept(Get(node, Properties), Get(out, Properties), scope, depth, refDepth)
    && ItemsKept(Get(node, GoogleJson.Items), Get(out, GoogleJson.Items), scope, depth, refDepth)
    && out.Keys <= KEYWORDS
  }

  lemma {:induction false} FirstTypeIs(items: seq<Json>)
    ensures
      if NoneAllowed(items, |items|) then FirstType(items).None?
      else exists i :: 0 <= i < |items| && IsAllowedType(items[i]) && NoneAllowed(items, i) && FirstType(items) == Some(Lower(items[i].s))
  {
    hide AllowedType, Lower;
    if items != [] && !IsAllowedType(items[0]) {
      FirstTypeIs(items[1..]);
      if NoneAllowed(items[1..], |items| - 1) {
        forall i | 0 <= i < |items| ensures !IsAllowedType(items[i]) {
          if i > 0 { assert items[i] == items[1..][i - 1]; }
        }
      } else {
        var i :| 0 <= i < |items| - 1 && IsAllowedType(items[1..][i]) && NoneAllowed(items[1..], i) && FirstType(items[1..]) == Some(Lower(items[1..][i].s));
        forall j | 0 <= j < i + 1 ensures !IsAllowedType(items[j]) {
          if j > 0 { assert items[j] == items[1..][j - 1]; }
        }
        assert IsAllowedType(items[i + 1]) && NoneAllowed(items, i + 1);
      }
    } else if items != [] {
      assert IsAllowedType(items[0]) && NoneAllowed(items, 0) && FirstType(items) == Some(Lower(items[0].s));
    }
  }

  lemma TypesAreKept(node: Object, union: bool)
    ensures TypeKept(Get(node, Type), union, Get(NormalizedType(Get(node, Type), union), Type))
    ensures NullableKept(None, Get(node, Type), union, Get(NormalizedType(Get(node, Type), union), Nullable))
  {
    hide IsAllowedType, IsNullType, Lower, FirstType, NoneAllowed;
    assert Candidates(Get(node, Type)) == Listed(Get(node, Type));
    FirstTypeIs(Listed(Get(node, Type)));
  }

  lemma EnumIsKept(node: Object)
    ensures EnumKept(node, ToArray(SanitizeEnum(EnumSource(node))))
  {
    hide UniqueTexts, Deduped;
    var items := Options(node);
    UniqueIsDeduped(items);
    var out := UniqueTexts(items);
    assert forall x :: x in items && x.Text? ==> x in out;
  }

  lemma PropertiesAreKept(node: Object, scope: Scope, depth: nat, refDepth: nat, union: bool)
    requires depth < MAX_SCHEMA_DEPTH && refDepth <= MAX_DEREF_DEPTH
    ensures PropertiesKept(Get(node, Properties), PlainField(node, Properties, scope, depth, refDepth, union), scope, depth, refDepth)
    ensures ItemsKept(Get(node, GoogleJson.Items), PlainField(node, GoogleJson.Items, scope, depth, refDepth, union), scope, depth, refDepth)
    ensures RequiredKept(Get(node, Required), PlainField(node, Required, scope, depth, refDepth, union))
  {
    hide Sanitize, UniqueTexts, Deduped;
    if GetArray(node, Required).Some? { UniqueIsDeduped(node[Required].items); }
  }

  lemma FieldsAreKept(node: Object, scope: Scope, depth: nat, refDepth: nat, union: bool)
    requires depth < MAX_SCHEMA_DEPTH && refDepth <= MAX_DEREF_DEPTH
    ensures TypeKept(Get(node, Type), union, PlainField(node, Type, scope, depth, refDepth, union))
    ensures NullableKept(Get(node, Nullable), Get(node, Type), union, PlainField(node, Nullable, scope, depth, refDepth, union))
    ensures TextKept(Get(node, Description), PlainField(node, Description, scope, depth, refDepth, union))
    ensures TextKept(Get(node, Format), PlainField(node, Format, scope, depth, refDepth, union))
    ensures EnumKept(node, PlainField(node, Enum, scope, depth, refDepth, union))
  {
    hide Sanitize, UniqueTexts, NormalizedType, TypeKept, EnumKept, SaysNull, NoneAllowed;
    TypesAreKept(node, union);
    EnumIsKept(node);
  }

  lemma PlainGet(node: Object, scope: Scope, depth: nat, refDepth: nat, union: bool, k: Name)
    requires depth < MAX_SCHEMA_DEPTH && refDepth <= MAX_DEREF_DEPTH && k in KEYWORDS
    ensures Get(Plain(node, scope, depth, refDepth, union), k) == PlainField(node, k, scope, depth, refDepth, union)
  {
    hide PlainField;
  }

  /** Without a reference to follow, everything but the union is kept keyword by keyword. */
  lemma PlainKeepsKeywords(node: Object, scope: Scope, depth: nat, refDepth: nat, union: bool)
    requires depth < MAX_SCHEMA_DEPTH && refDepth <= MAX_DEREF_DEPTH
    ensures KeywordsKept(node, Plain(node, scope, depth, refDepth, union), scope, depth, refDepth, union)
  {
    FieldsAreKept(node, scope, depth, refDepth, union);
    PropertiesAreKept(node, scope, depth, refDepth, union);
    hide PlainField, TypeKept, NullableKept, TextKept, EnumKept, RequiredKept, PropertiesKept, ItemsKept;
    PlainGet(node, scope, depth, refDepth, union, Type);
    PlainGet(node, scope, depth, refDepth, union, Nullable);
    PlainGet(node, scope, depth, refDepth, union, Description);
    PlainGet(node, scope, depth, refDepth, union, Format);
    PlainGet(node, scope, depth, refDepth, union, Enum);
    PlainGet(node, scope, depth, refDepth, union, Required);
    PlainGet(node, scope, depth, refDepth, union, Properties);
    PlainGet(node, scope, depth, refDepth, union, GoogleJson.Items);
  }

  // ---------------------------------------------------------------------------
  // One reference
  // ---------------------------------------------------------------------------

  /** The node's own keyword, or else the target's. */
  ghost predicate Merged(node: Object, target: Object, m: Object) {
    forall k: Name :: Get(m, k) == if k in node && k != Ref then Get(node, k) else Get(target, k)
  }

  /**
   * A reference is the schema it leads to under the node's own keywords: for every node whose `$ref`
   * resolves within the depths, to a target without reference and union, each keyword of the output
   * comes from the node if it has that keyword and from the target otherwise.
   */
  lemma ReferenceIsInlined(node: Object, target: Object, m: Object, scope: Scope, depth: nat, refDepth: nat, union: bool)
    requires depth < MAX_SCHEMA_DEPTH && refDepth < MAX_DEREF_DEPTH && Target(node, scope) == Some(target)
    requires Ref !in target && AnyOf !in target && AnyOf !in node && Merged(node, target, m)
    ensures KeywordsKept(m, Sanitize(Obj(node), scope, depth, refDepth, union), scope, depth, refDepth + 1, union)
  {
    hide Sanitize, Plain, KeywordsKept, Target, Merged;
    MergedIs(node, target, m);
    FollowsReference(node, scope, depth, refDepth, union);
    SanitizedPlain(m, scope, depth, refDepth + 1, union);
    PlainKeepsKeywords(m, scope, depth, refDepth + 1, union);
  }

  lemma MergedIs(node: Object, target: Object, m: Object)
    requires Merged(node, target, m) && Ref !in target && AnyOf !in target && AnyOf !in node
    ensures m == target + (node - {Ref}) && Ref !in m && AnyOf !in m
  {
    var over := target + (node - {Ref});
    forall k: Name ensures k in m <==> k in over
      ensures k in m ==> m[k] == over[k]
    {
      assert Get(m, k) == if k in node && k != Ref then Get(node, k) else Get(target, k);
    }
  }

  lemma FollowsReference(node: Object, scope: Scope, depth: nat, refDepth: nat, union: bool)
    requires depth < MAX_SCHEMA_DEPTH && refDepth < MAX_DEREF_DEPTH && Target(node, scope).Some?
    ensures Sanitize(Obj(node), scope, depth, refDepth, union)
         == Sanitize(Obj(Target(node, scope).value + (node - {Ref})), scope, depth, refDepth + 1, union)
  {
    hide Plain, CollapseUnion, Branches, Target;
  }

  lemma SanitizedPlain(node: Object, scope: Scope, depth: nat, refDepth: nat, union: bool)
    requires depth < MAX_SCHEMA_DEPTH && refDepth <= MAX_DEREF_DEPTH && Ref !in node && AnyOf !in node
    ensures Sanitize(Obj(node), scope, depth, refDepth, union) == Plain(node, scope, depth, refDepth, union)
  {
    hide Plain;
  }

  // ---------------------------------------------------------------------------
  // Unions
  // ---------------------------------------------------------------------------

  /**
   * What a union adds: with one branch besides plain nulls that branch, nullable; with enums of one
   * type their strings in order, under that type; anything else is widened away.
   */
  ghost predicate UnionKept(branches: seq<Object>, out: Object) {
    if branches == [] then out == map[]
    else if NullableUnion(branches) then
      exists i :: 0 <= i < |branches| && !IsNullSchema(branches[i]) && out == branches[i][Nullable := Bool(true)]
    else if EnumUnion(branches) && exists x :: x in AllEnums(branches) && x.Text? then
      && GetArray(out, Enum).Some? && Deduped(AllEnums(branches), out[Enum].items) && out.Keys <= {Type, Enum}
      && Get(out, Type) == (if GetText(branches[0], Type).Some? then Get(branches[0], Type) else None)
    else out == map[]
  }

  lemma UnionIsKept(branches: seq<Object>)
    ensures UnionKept(branches, CollapseUnion(branches))
  {
    hide Deduped, NonNull, AllEnums, IsNullSchema, UniqueTexts;
    if branches != [] {
      var all := AllEnums(branches);
      UniqueIsDeduped(all);
      if NullableUnion(branches) {
        hide NullableUnion;
        P.NullsCollapse(branches);
      } else {
        hide NullableUnion, EnumUnion;
        assert UniqueTexts(all) != [] <==> exists x :: x in all && x.Text? by { SomeText(all); }
      }
    }
  }

  lemma SomeText(items: seq<Json>)
    ensures UniqueTexts(items) != [] <==> exists x :: x in items && x.Text?
  {
    if UniqueTexts(items) != [] { assert UniqueTexts(items)[0] in UniqueTexts(items); }
    if x :| x in items && x.Text? { assert x in UniqueTexts(items); }
  }

  /** The sanitized branches of a node's union. */
  function BranchesOf(node: Object, scope: Scope, depth: nat, refDepth: nat): seq<Object>
    requires depth < MAX_SCHEMA_DEPTH && refDepth <= MAX_DEREF_DEPTH
  {
    if AnyOf in node && node[AnyOf].Arr? then
      seq(|node[AnyOf].items|, i requires 0 <= i < |node[AnyOf].items| => Sanitize(node[AnyOf].items[i], scope, depth + 1, refDepth, true))
    else []
  }

  /**
   * Every node without a reference to follow: what its union collapses to, over its own keywords,
   * each kept as it was as far as the subset goes.
   */
  lemma NodeIsKept(node: Object, scope: Scope, depth: nat, refDepth: nat, union: bool) returns (own: Object, added: Object)
    requires depth < MAX_SCHEMA_DEPTH && refDepth <= MAX_DEREF_DEPTH
    requires refDepth == MAX_DEREF_DEPTH || Target(node, scope).None?
    ensures Sanitize(Obj(node), scope, depth, refDepth, union) == own + added
    ensures KeywordsKept(node, own, scope, depth, refDepth, union)
    ensures UnionKept(BranchesOf(node, scope, depth, refDepth), added)
  {
    own, added := Plain(node, scope, depth, refDepth, union), CollapseUnion(BranchesOf(node, scope, depth, refDepth));
    PlainKeepsKeywords(node, scope, depth, refDepth, union);
    UnionIsKept(BranchesOf(node, scope, depth, refDepth));
    SanitizedNode(node, scope, depth, refDepth, union);
    hide Plain, CollapseUnion, KeywordsKept, UnionKept, Target, Sanitize, BranchesOf;
  }

  lemma SanitizedNode(node: Object, scope: Scope, depth: nat, refDepth: nat, union: bool)
    requires depth < MAX_SCHEMA_DEPTH && refDepth <= MAX_DEREF_DEPTH
    requires refDepth == MAX_DEREF_DEPTH || Target(node, scope).None?
    ensures Sanitize(Obj(node), scope, depth, refDepth, union)
         == Plain(node, scope, depth, refDepth, union) + CollapseUnion(BranchesOf(node, scope, depth, refDepth))
  {
    hide Plain, CollapseUnion, Target;
    if GetArray(node, AnyOf).Some? {
      assert Branches(node[AnyOf].items, scope, depth, refDepth) == BranchesOf(node, scope, depth, refDepth);
    }
  }

  // ---------------------------------------------------------------------------
  // All references at once
  // ---------------------------------------------------------------------------

  /**
   * The schema with its references substituted: at every place that holds a schema, down to the
   * nesting limit and along at most sixteen references, a node gives way to the schema it leads to
   * under its own keywords. References beyond that stay.
   */
  function Inline(j: Json, scope: Scope, depth: nat, refs: nat): Json
    requires refs <= MAX_DEREF_DEPTH
    decreases MAX_SCHEMA_DEPTH - depth, MAX_DEREF_DEPTH - refs, 1
  {
    if !j.Obj? || depth >= MAX_SCHEMA_DEPTH then j
    else
      var target := Target(j.fields, scope);
      if target.Some? && refs < MAX_DEREF_DEPTH then Inline(Obj(target.value + (j.fields - {Ref})), scope, depth, refs + 1)
      else Obj(InlineFields(j.fields, scope, depth, refs))
  }

  function InlineFields(node: Object, scope: Scope, depth: nat, refs: nat): Object
    requires refs <= MAX_DEREF_DEPTH && depth < MAX_SCHEMA_DEPTH
    decreases MAX_SCHEMA_DEPTH - depth, MAX_DEREF_DEPTH - refs, 0
  {
    map k | k in node :: InlineUnder(k, node[k], scope, depth, refs)
  }

  /** Schemas stand under `properties`, `items` and `anyOf`. */
  function InlineUnder(k: Name, v: Json, scope: Scope, depth: nat, refs: nat): Json
    requires refs <= MAX_DEREF_DEPTH && depth < MAX_SCHEMA_DEPTH
    decreases MAX_SCHEMA_DEPTH - depth - 1, MAX_DEREF_DEPTH - refs, 2
  {
    if k == Properties && v.Obj? then Obj(map p | p in v.fields :: Inline(v.fields[p], scope, depth + 1, refs))
    else if k == GoogleJson.Items && v.Obj? then Inline(v, scope, depth + 1, refs)
    else if k == AnyOf && v.Arr? then Arr(seq(|v.items|, i requires 0 <= i < |v.items| => Inline(v.items[i], scope, depth + 1, refs)))
    else v
  }

  function Nowhere(scope: Scope): Scope {
    Scope(map[], scope.pointer)
  }

  lemma {:induction false} InlineIsObject(j: Json, scope: Scope, depth: nat, refs: nat)
    requires refs <= MAX_DEREF_DEPTH
    ensures Inline(j, scope, depth, refs).Obj? <==> j.Obj?
    decreases MAX_DEREF_DEPTH - refs
  {
    hide InlineUnder;
    if j.Obj? && depth < MAX_SCHEMA_DEPTH && Target(j.fields, scope).Some? && refs < MAX_DEREF_DEPTH {
      InlineIsObject(Obj(Target(j.fields, scope).value + (j.fields - {Ref})), scope, depth, refs + 1);
    }
  }

  /** Keywords that hold no schema are as they were. */
  lemma OtherKeywords(node: Object, scope: Scope, depth: nat, refs: nat, k: Name)
    requires refs <= MAX_DEREF_DEPTH && depth < MAX_SCHEMA_DEPTH
    ensures k !in {Properties, GoogleJson.Items, AnyOf} ==> Get(InlineFields(node, scope, depth, refs), k) == Get(node, k)
    ensures InlineFields(node, scope, depth, refs).Keys == node.Keys
    ensures k in node ==> InlineFields(node, scope, depth, refs)[k] == InlineUnder(k, node[k], scope, depth, refs)
  {
    hide Inline;
  }

  lemma OtherField(node: Object, inlined: Object, k: Name, scope: Scope, other: Scope, depth: nat, refs: nat, r: nat, union: bool)
    requires refs <= MAX_DEREF_DEPTH && r <= MAX_DEREF_DEPTH && depth < MAX_SCHEMA_DEPTH
    requires k in KEYWORDS && k != Properties && k != GoogleJson.Items
    requires Get(inlined, k) == Get(node, k) && Get(inlined, Type) == Get(node, Type) && Get(inlined, Const) == Get(node, Const)
    ensures PlainField(inlined, k, other, depth, r, union) == PlainField(node, k, scope, depth, refs, union)
  {
    hide Sanitize, UniqueTexts, NormalizedType, Bag;
  }

  /** One keyword of a node whose references are substituted below it. */
  lemma {:induction false} InlinedField(node: Object, k: Name, scope: Scope, depth: nat, refs: nat, r: nat, union: bool)
    requires refs <= MAX_DEREF_DEPTH && r <= MAX_DEREF_DEPTH && depth < MAX_SCHEMA_DEPTH && k in KEYWORDS
    ensures PlainField(InlineFields(node, scope, depth, refs), k, Nowhere(scope), depth, r, union) == PlainField(node, k, scope, depth, refs, union)
    decreases MAX_SCHEMA_DEPTH - depth, MAX_DEREF_DEPTH - refs, 0
  {
    var inlined := InlineFields(node, scope, depth, refs);
    OtherKeywords(node, scope, depth, refs, k);
    if k == Properties {
      InlinedProperties(node, scope, depth, refs, r, union);
    } else if k == GoogleJson.Items {
      InlinedItems(node, scope, depth, refs, r, union);
    } else {
      OtherKeywords(node, scope, depth, refs, Type);
      OtherKeywords(node, scope, depth, refs, Const);
      hide InlineFields, PlainField;
      OtherField(node, inlined, k, scope, Nowhere(scope), depth, refs, r, union);
    }
  }

  lemma {:induction false} InlinedProperties(node: Object, scope: Scope, depth: nat, refs: nat, r: nat, union: bool)
    requires refs <= MAX_DEREF_DEPTH && r <= MAX_DEREF_DEPTH && depth < MAX_SCHEMA_DEPTH
    ensures PlainField(InlineFields(node, scope, depth, refs), Properties, Nowhere(scope), depth, r, union)
         == PlainField(node, Properties, scope, depth, refs, union)
    decreases MAX_SCHEMA_DEPTH - depth - 1, MAX_DEREF_DEPTH - refs, 5
  {
    OtherKeywords(node, scope, depth, refs, Properties);
    hide Sanitize, Inline, Bag, InlineFields;
    if GetObject(node, Properties).Some? {
      InlinedBag(node[Properties].fields, InlineFields(node, scope, depth, refs)[Properties].fields, scope, depth, refs, r);
    }
  }

  lemma {:induction false} InlinedItems(node: Object, scope: Scope, depth: nat, refs: nat, r: nat, union: bool)
    requires refs <= MAX_DEREF_DEPTH && r <= MAX_DEREF_DEPTH && depth < MAX_SCHEMA_DEPTH
    ensures PlainField(InlineFields(node, scope, depth, refs), GoogleJson.Items, Nowhere(scope), depth, r, union)
         == PlainField(node, GoogleJson.Items, scope, depth, refs, union)
    decreases MAX_SCHEMA_DEPTH - depth - 1, MAX_DEREF_DEPTH - refs, 5
  {
    OtherKeywords(node, scope, depth, refs, GoogleJson.Items);
    hide Sanitize, Inline, InlineFields;
    if GetObject(node, GoogleJson.Items).Some? {
      InlineIsObject(node[GoogleJson.Items], scope, depth + 1, refs);
      InliningChangesNothing(node[GoogleJson.Items], scope, depth + 1, refs, r, false);
    }
  }

  lemma {:induction false} InlinedBag(src: Object, out: Object, scope: Scope, depth: nat, refs: nat, r: nat)
    requires refs <= MAX_DEREF_DEPTH && r <= MAX_DEREF_DEPTH && depth < MAX_SCHEMA_DEPTH
    requires out == map p | p in src :: Inline(src[p], scope, depth + 1, refs)
    ensures Bag(out, Nowhere(scope), depth + 1, r) == Bag(src, scope, depth + 1, refs)
    decreases MAX_SCHEMA_DEPTH - depth - 1, MAX_DEREF_DEPTH - refs, 4
  {
    hide Sanitize, Inline;
    forall p | p in src
      ensures Sanitize(Inline(src[p], scope, depth + 1, refs), Nowhere(scope), depth + 1, r, false) == Sanitize(src[p], scope, depth + 1, refs, false)
    {
      InliningChangesNothing(src[p], scope, depth + 1, refs, r, false);
    }
  }

  lemma {:induction false} InlinedBranches(src: seq<Json>, out: seq<Json>, scope: Scope, depth: nat, refs: nat, r: nat)
    requires refs <= MAX_DEREF_DEPTH && r <= MAX_DEREF_DEPTH && depth < MAX_SCHEMA_DEPTH && |out| == |src|
    requires forall i :: 0 <= i < |src| ==> out[i] == Inline(src[i], scope, depth + 1, refs)
    ensures forall i :: 0 <= i < |src| ==>
      Sanitize(out[i], Nowhere(scope), depth + 1, r, true) == Sanitize(src[i], scope, depth + 1, refs, true)
    decreases MAX_SCHEMA_DEPTH - depth - 1, MAX_DEREF_DEPTH - refs, 4
  {
    hide Sanitize, Inline;
    forall i | 0 <= i < |src|
      ensures Sanitize(out[i], Nowhere(scope), depth + 1, r, true) == Sanitize(src[i], scope, depth + 1, refs, true)
    {
      InliningChangesNothing(src[i], scope, depth + 1, refs, r, true);
    }
  }

  lemma {:induction false} InlinedPlain(node: Object, scope: Scope, depth: nat, refs: nat, r: nat, union: bool)
    requires refs <= MAX_DEREF_DEPTH && r <= MAX_DEREF_DEPTH && depth < MAX_SCHEMA_DEPTH
    ensures Plain(InlineFields(node, scope, depth, refs), Nowhere(scope), depth, r, union) == Plain(node, scope, depth, refs, union)
    decreases MAX_SCHEMA_DEPTH - depth, MAX_DEREF_DEPTH - refs, 1
  {
    hide PlainField, InlineFields;
    forall k | k in KEYWORDS
      ensures PlainField(InlineFields(node, scope, depth, refs), k, Nowhere(scope), depth, r, union) == PlainField(node, k, scope, depth, refs, union)
    {
      InlinedField(node, k, scope, depth, refs, r, union);
    }
  }

  lemma {:induction false} InlinedUnion(node: Object, scope: Scope, depth: nat, refs: nat, r: nat)
    requires refs <= MAX_DEREF_DEPTH && r <= MAX_DEREF_DEPTH && depth < MAX_SCHEMA_DEPTH
    ensures BranchesOf(InlineFields(node, scope, depth, refs), Nowhere(scope), depth, r) == BranchesOf(node, scope, depth, refs)
    decreases MAX_SCHEMA_DEPTH - depth - 1, MAX_DEREF_DEPTH - refs, 5
  {
    OtherKeywords(node, scope, depth, refs, AnyOf);
    hide Sanitize, Inline, InlineFields;
    if GetArray(node, AnyOf).Some? {
      InlinedBranches(node[AnyOf].items, InlineFields(node, scope, depth, refs)[AnyOf].items, scope, depth, refs, r);
    }
  }

  lemma {:induction false} InlinedNode(node: Object, scope: Scope, depth: nat, refs: nat, r: nat, union: bool)
    requires refs <= MAX_DEREF_DEPTH && r <= MAX_DEREF_DEPTH && depth < MAX_SCHEMA_DEPTH
    requires refs == MAX_DEREF_DEPTH || Target(node, scope).None?
    ensures Sanitize(Obj(InlineFields(node, scope, depth, refs)), Nowhere(scope), depth, r, union) == Sanitize(Obj(node), scope, depth, refs, union)
    decreases MAX_SCHEMA_DEPTH - depth, MAX_DEREF_DEPTH - refs, 2
  {
    var inlined := InlineFields(node, scope, depth, refs);
    NoTarget(inlined, scope);
    hide Sanitize, Plain, BranchesOf, InlineFields, CollapseUnion, Target;
    SanitizedNode(inlined, Nowhere(scope), depth, r, union);
    SanitizedNode(node, scope, depth, refs, union);
    InlinedPlain(node, scope, depth, refs, r, union);
    InlinedUnion(node, scope, depth, refs, r);
  }

  lemma NoTarget(node: Object, scope: Scope)
    ensures Target(node, Nowhere(scope)).None?
  {
  }

  /**
   * Substitution: for every schema, definitions and way references resolve, cyclic ones included,
   * sanitizing is sanitizing the schema whose references were substituted, with no definitions left
   * to look up.
   */
  lemma {:induction false} InliningChangesNothing(j: Json, scope: Scope, depth: nat, refs: nat, r: nat, union: bool)
    requires refs <= MAX_DEREF_DEPTH && r <= MAX_DEREF_DEPTH
    ensures Sanitize(Inline(j, scope, depth, refs), Nowhere(scope), depth, r, union) == Sanitize(j, scope, depth, refs, union)
    decreases MAX_SCHEMA_DEPTH - depth, MAX_DEREF_DEPTH - refs, 3
  {
    hide Plain, CollapseUnion, Branches, InlineFields;
    if j.Obj? && depth < MAX_SCHEMA_DEPTH {
      InlineUnfolds(j.fields, scope, depth, refs);
      if Target(j.fields, scope).Some? && refs < MAX_DEREF_DEPTH {
        hide Inline;
        InliningChangesNothing(Obj(Target(j.fields, scope).value + (j.fields - {Ref})), scope, depth, refs + 1, r, union);
        FollowsReference(j.fields, scope, depth, refs, union);
      } else {
        hide Inline, Sanitize;
        InlinedNode(j.fields, scope, depth, refs, r, union);
      }
    }
  }

  lemma InlineUnfolds(node: Object, scope: Scope, depth: nat, refs: nat)
    requires refs <= MAX_DEREF_DEPTH && depth < MAX_SCHEMA_DEPTH
    ensures Inline(Obj(node), scope, depth, refs) ==
      if Target(node, scope).Some? && refs < MAX_DEREF_DEPTH
      then Inline(Obj(Target(node, scope).value + (node - {Ref})), scope, depth, refs + 1)
      else Obj(InlineFields(node, scope, depth, refs))
  {
    hide InlineFields, Target;
  }

  /** Along every path, within the depths, at most `n` references have to be followed: none is cyclic. */
  ghost predicate Reaches(j: Json, scope: Scope, depth: nat, n: nat)
    decreases MAX_SCHEMA_DEPTH - depth, n
  {
    if !j.Obj? || depth >= MAX_SCHEMA_DEPTH then true
    else if Target(j.fields, scope).Some? then n > 0 && Reaches(Obj(Target(j.fields, scope).value + (j.fields - {Ref})), scope, depth, n - 1)
    else
      && (GetObject(j.fields, Properties).Some? ==>
            forall p :: p in j.fields[Properties].fields ==> Reaches(j.fields[Properties].fields[p], scope, depth + 1, n))
      && (GetObject(j.fields, GoogleJson.Items).Some? ==> Reaches(j.fields[GoogleJson.Items], scope, depth + 1, n))
      && (GetArray(j.fields, AnyOf).Some? ==>
            forall i :: 0 <= i < |j.fields[AnyOf].items| ==> Reaches(j.fields[AnyOf].items[i], scope, depth + 1, n))
  }

  /** Without cyclic definitions the substituted schema has no reference left to follow. */
  lemma {:induction false} NoneLeft(j: Json, scope: Scope, depth: nat, refs: nat)
    requires refs <= MAX_DEREF_DEPTH && Reaches(j, scope, depth, MAX_DEREF_DEPTH - refs)
    ensures Reaches(Inline(j, scope, depth, refs), scope, depth, 0)
    decreases MAX_SCHEMA_DEPTH - depth, MAX_DEREF_DEPTH - refs
  {
    if j.Obj? && depth < MAX_SCHEMA_DEPTH {
      InlineUnfolds(j.fields, scope, depth, refs);
      hide Inline, InlineFields, Target;
      if Target(j.fields, scope).Some? {
        NoneLeft(Obj(Target(j.fields, scope).value + (j.fields - {Ref})), scope, depth, refs + 1);
      } else {
        NoneLeftBelow(j.fields, scope, depth, refs);
      }
    } else {
      hide InlineFields, Target;
    }
  }

  lemma {:induction false} NoneLeftBelow(node: Object, scope: Scope, depth: nat, refs: nat)
    requires refs <= MAX_DEREF_DEPTH && depth < MAX_SCHEMA_DEPTH && Target(node, scope).None?
    requires Reaches(Obj(node), scope, depth, MAX_DEREF_DEPTH - refs)
    ensures Reaches(Obj(InlineFields(node, scope, depth, refs)), scope, depth, 0)
    decreases MAX_SCHEMA_DEPTH - depth - 1, MAX_DEREF_DEPTH - refs + 1
  {
    var inlined := InlineFields(node, scope, depth, refs);
    OtherKeywords(node, scope, depth, refs, Ref);
    assert Target(inlined, scope).None?;
    InlinedPlaces(node, scope, depth, refs);
    hide Inline, InlineFields, InlineUnder, Target;
    if GetObject(node, Properties).Some? {
      forall p | p in node[Properties].fields { NoneLeft(node[Properties].fields[p], scope, depth + 1, refs); }
    }
    if GetObject(node, GoogleJson.Items).Some? { NoneLeft(node[GoogleJson.Items], scope, depth + 1, refs); }
    if GetArray(node, AnyOf).Some? {
      forall i | 0 <= i < |node[AnyOf].items| { NoneLeft(node[AnyOf].items[i], scope, depth + 1, refs); }
    }
  }

  /** Where the substituted schemas stand. */
  lemma InlinedPlaces(node: Object, scope: Scope, depth: nat, refs: nat)
    requires refs <= MAX_DEREF_DEPTH && depth < MAX_SCHEMA_DEPTH
    ensures var inlined := InlineFields(node, scope, depth, refs);
      && (GetObject(inlined, Properties).Some? <==> GetObject(node, Properties).Some?)
      && (GetObject(node, Properties).Some? ==> inlined[Properties].fields.Keys == node[Properties].fields.Keys)
      && (GetObject(node, Properties).Some? ==> forall p :: p in node[Properties].fields ==>
            inlined[Properties].fields[p] == Inline(node[Properties].fields[p], scope, depth + 1, refs))
      && (GetObject(inlined, GoogleJson.Items).Some? <==> GetObject(node, GoogleJson.Items).Some?)
      && (GetObject(node, GoogleJson.Items).Some? ==> inlined[GoogleJson.Items] == Inline(node[GoogleJson.Items], scope, depth + 1, refs))
      && (GetArray(inlined, AnyOf).Some? <==> GetArray(node, AnyOf).Some?)
      && (GetArray(node, AnyOf).Some? ==> |inlined[AnyOf].items| == |node[AnyOf].items|)
      && (GetArray(node, AnyOf).Some? ==> forall i :: 0 <= i < |node[AnyOf].items| ==>
            inlined[AnyOf].items[i] == Inline(node[AnyOf].items[i], scope, depth + 1, refs))
  {
    OtherKeywords(node, scope, depth, refs, Properties);
    OtherKeywords(node, scope, depth, refs, GoogleJson.Items);
    OtherKeywords(node, scope, depth, refs, AnyOf);
    if GetObject(node, GoogleJson.Items).Some? { InlineIsObject(node[GoogleJson.Items], scope, depth + 1, refs); }
    hide Inline, InlineFields;
  }

  /** A text as code units. */
  function Units(s: string): Str
    requires forall i :: 0 <= i < |s| ==> s[i] as int < 128
  {
    seq(|s|, i requires 0 <= i < |s| => (s[i] as int) as CodeUnit)
  }

  /** The types the sanitizer lets through, in any case. */
  lemma AllowedTypesAre(j: Json)
    ensures IsAllowedType(j) <==> j.Text? && (var t := Lower(j.s);
      t == Units("string") || t == Units("integer") || t == Units("number") || t == Units("boolean") ||
      t == Units("array") || t == Units("object"))
    ensures IsNullType(j) <==> j.Text? && Lower(j.s) == Units("null")
  {
    hide Lower;
    assert STRING_TYPE == Units("string") && INTEGER_TYPE == Units("integer") && NUMBER_TYPE == Units("number");
    assert BOOLEAN_TYPE == Units("boolean") && ARRAY_TYPE == Units("array") && OBJECT_TYPE == Units("object");
    assert NULL_TYPE == Units("null");
  }

  /** The definitions a tool's references see: those under `$defs`, and behind them those under `definitions`. */
  lemma DefinitionsAreKept(parameters: Json, k: Name)
    ensures Get(CollectDefs(parameters), k) ==
      if !parameters.Obj? then None
      else if Defs in parameters.fields && parameters.fields[Defs].Obj? && k in parameters.fields[Defs].fields
      then Some(parameters.fields[Defs].fields[k])
      else if Definitions in parameters.fields && parameters.fields[Definitions].Obj?
      then Get(parameters.fields[Definitions].fields, k)
      else None
  {
  }

  /** A tool's parameters: the substituted root's keywords, as an object schema with its properties. */
  lemma ParametersAreKept(parameters: Json, pointer: Str -> Option<Name>)
    ensures var scope := Scope(CollectDefs(parameters), pointer);
      var root, out := Sanitize(Inline(parameters, scope, 0, 0), Nowhere(scope), 0, 0, false), SanitizeParameters(parameters, pointer);
      && Get(out, Type) == Some(Text(OBJECT_TYPE))
      && Get(out, Properties) == (if GetObject(root, Properties).Some? then Get(root, Properties) else Some(Obj(map[])))
      && forall k: Name :: k != Type && k != Properties ==> Get(out, k) == Get(root, k)
  {
    hide Sanitize, Inline;
    var scope := Scope(CollectDefs(parameters), pointer);
    InliningChangesNothing(parameters, scope, 0, 0, 0, false);
  }
}
