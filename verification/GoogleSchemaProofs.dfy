/** Every sanitized schema is in Google's subset, and sanitizing changes exactly the others. */
module GoogleSchemaProofs {
  import opened Prelude
  import opened GoogleJson
  import opened GoogleSchema

  /**
   * A keyword and its value as Google accepts them, with at most `n` further levels below:
   * one of the eight keywords, one of the six types, string enums without repetition.
   */
  predicate CleanField(k: Name, v: Json, n: nat)
    decreases n, 0
  {
    n > 0 &&
    match k
    case Type => v.Text? && AllowedType(v.s)
    case Nullable => v.Bool?
    case Description => v.Text?
    case Format => v.Text?
    case Enum => v.Arr? && v.items != [] && DistinctTexts(v.items)
    case Required => v.Arr? && DistinctTexts(v.items)
    case Properties => v.Obj? && forall p :: p in v.fields ==> v.fields[p].Obj? && Clean(v.fields[p].fields, n - 1)
    case Items => v.Obj? && Clean(v.fields, n - 1)
    case _ => false
  }

  predicate Clean(s: Object, n: nat)
    decreases n, 1
  {
    forall k :: k in s ==> CleanField(k, s[k], n)
  }

  /** Inside a union a branch may also still say `null`. */
  predicate CleanBranch(s: Object, n: nat) {
    forall k :: k in s ==> CleanField(k, s[k], n) || (k == Type && s[k] == Text(NULL_TYPE) && n > 0)
  }

  lemma {:induction false} CleanFieldGrows(k: Name, v: Json, n: nat, m: nat)
    requires CleanField(k, v, n) && n <= m
    ensures CleanField(k, v, m)
    decreases n, 0
  {
    hide DistinctTexts, AllowedType;
    match k {
      case Properties =>
        forall p | p in v.fields ensures Clean(v.fields[p].fields, m - 1) {
          CleanGrows(v.fields[p].fields, n - 1, m - 1);
        }
      case Items => CleanGrows(v.fields, n - 1, m - 1);
      case _ =>
    }
  }

  lemma {:induction false} CleanGrows(s: Object, n: nat, m: nat)
    requires Clean(s, n) && n <= m
    ensures Clean(s, m)
    decreases n, 1
  {
    hide CleanField;
    forall k | k in s ensures CleanField(k, s[k], m) { CleanFieldGrows(k, s[k], n, m); }
  }

  lemma MergeClean(a: Object, b: Object, n: nat)
    requires CleanBranch(a, n) && CleanBranch(b, n)
    ensures CleanBranch(a + b, n)
    ensures Clean(a, n) && Clean(b, n) ==> Clean(a + b, n)
  {
    hide CleanField;
  }

  lemma CleanIsBranch(s: Object, n: nat)
    requires Clean(s, n)
    ensures CleanBranch(s, n)
  {
    hide CleanField;
  }

  // ---------------------------------------------------------------------------
  // The output is clean
  // ---------------------------------------------------------------------------

  lemma {:induction false} SanitizedIsClean(node: Json, scope: Scope, depth: nat, refDepth: nat, preserve: bool)
    requires refDepth <= MAX_DEREF_DEPTH && depth <= MAX_SCHEMA_DEPTH
    ensures var s := Sanitize(node, scope, depth, refDepth, preserve);
      && CleanBranch(s, MAX_SCHEMA_DEPTH - depth)
      && (!preserve ==> Clean(s, MAX_SCHEMA_DEPTH - depth))
    decreases MAX_SCHEMA_DEPTH - depth, MAX_DEREF_DEPTH - refDepth, 2
  {
    hide Plain, CollapseUnion, Target, Branches;
    if depth >= MAX_SCHEMA_DEPTH || !node.Obj? {
    } else if refDepth < MAX_DEREF_DEPTH && Target(node.fields, scope).Some? {
      SanitizedIsClean(Obj(Target(node.fields, scope).value + (node.fields - {Ref})), scope, depth, refDepth + 1, preserve);
    } else {
      var n := MAX_SCHEMA_DEPTH - depth;
      var below: nat := n - 1;
      var union := GetArray(node.fields, AnyOf);
      var schemas := if union.Some? then Branches(union.value, scope, depth, refDepth) else [];
      PlainClean(node.fields, scope, depth, refDepth, preserve);
      if union.Some? {
        BranchesClean(union.value, scope, depth, refDepth, schemas, below);
      }
      CollapseClean(schemas, below);
      CleanIsBranch(CollapseUnion(schemas), n);
      MergeClean(Plain(node.fields, scope, depth, refDepth, preserve), CollapseUnion(schemas), n);
    }
  }

  lemma {:induction false} BranchesClean(items: seq<Json>, scope: Scope, depth: nat, refDepth: nat, schemas: seq<Object>, n: nat)
    requires refDepth <= MAX_DEREF_DEPTH && depth < MAX_SCHEMA_DEPTH && n == MAX_SCHEMA_DEPTH - depth - 1
    requires schemas == Branches(items, scope, depth, refDepth)
    ensures forall i :: 0 <= i < |schemas| ==> CleanBranch(schemas[i], n)
    decreases MAX_SCHEMA_DEPTH - depth, MAX_DEREF_DEPTH - refDepth, 0
  {
    hide CleanBranch, Clean, Sanitize;
    forall i | 0 <= i < |items| ensures CleanBranch(schemas[i], n) {
      SanitizedIsClean(items[i], scope, depth + 1, refDepth, true);
    }
  }

  lemma {:induction false} PlainClean(node: Object, scope: Scope, depth: nat, refDepth: nat, preserve: bool)
    requires refDepth <= MAX_DEREF_DEPTH && depth < MAX_SCHEMA_DEPTH
    ensures var s := Plain(node, scope, depth, refDepth, preserve);
      && CleanBranch(s, MAX_SCHEMA_DEPTH - depth)
      && (!preserve ==> Clean(s, MAX_SCHEMA_DEPTH - depth))
    decreases MAX_SCHEMA_DEPTH - depth, MAX_DEREF_DEPTH - refDepth, 1
  {
    hide PlainField, CleanField;
    var n := MAX_SCHEMA_DEPTH - depth;
    forall k | k in KEYWORDS && PlainField(node, k, scope, depth, refDepth, preserve).Some?
      ensures var v := PlainField(node, k, scope, depth, refDepth, preserve).value;
        CleanField(k, v, n) || (preserve && k == Type && v == Text(NULL_TYPE))
    {
      FieldClean(node, k, scope, depth, refDepth, preserve);
    }
  }

  lemma {:induction false} FieldClean(node: Object, k: Name, scope: Scope, depth: nat, refDepth: nat, preserve: bool)
    requires refDepth <= MAX_DEREF_DEPTH && depth < MAX_SCHEMA_DEPTH
    requires PlainField(node, k, scope, depth, refDepth, preserve).Some?
    ensures var v := PlainField(node, k, scope, depth, refDepth, preserve).value;
      CleanField(k, v, MAX_SCHEMA_DEPTH - depth) || (preserve && k == Type && v == Text(NULL_TYPE))
    decreases MAX_SCHEMA_DEPTH - depth, MAX_DEREF_DEPTH - refDepth, 0
  {
    hide Sanitize, CleanBranch, Bag, AllowedType, FirstType, EnumSource, DistinctTexts;
    match k {
      case Properties =>
        var below: nat := MAX_SCHEMA_DEPTH - depth - 1;
        var bag := Bag(node[Properties].fields, scope, depth + 1, refDepth);
        BagClean(node[Properties].fields, scope, depth + 1, refDepth, bag, below);
        PropertiesClean(bag, below);
      case Items => SanitizedIsClean(node[Items], scope, depth + 1, refDepth, false);
      case _ =>
    }
  }

  lemma PropertiesClean(properties: Object, n: nat)
    requires forall p :: p in properties ==> properties[p].Obj? && Clean(properties[p].fields, n)
    ensures CleanField(Properties, Obj(properties), n + 1)
  {
    hide Clean;
  }

  lemma {:induction false} BagClean(properties: Object, scope: Scope, depth: nat, refDepth: nat, bag: Object, n: nat)
    requires refDepth <= MAX_DEREF_DEPTH && depth <= MAX_SCHEMA_DEPTH && n == MAX_SCHEMA_DEPTH - depth
    requires bag == Bag(properties, scope, depth, refDepth)
    ensures forall p :: p in bag ==> bag[p].Obj? && Clean(bag[p].fields, n)
    decreases MAX_SCHEMA_DEPTH - depth, MAX_DEREF_DEPTH - refDepth, 3
  {
    hide Sanitize, CleanBranch, Clean;
    forall p | p in properties
      ensures Clean(Sanitize(properties[p], scope, depth, refDepth, false), n)
    {
      SanitizedIsClean(properties[p], scope, depth, refDepth, false);
    }
  }

  // ---------------------------------------------------------------------------
  // Unions
  // ---------------------------------------------------------------------------

  lemma {:induction false} NonNullClean(schemas: seq<Object>, n: nat)
    requires forall i :: 0 <= i < |schemas| ==> CleanBranch(schemas[i], n)
    ensures forall i :: 0 <= i < |NonNull(schemas)| ==> Clean(NonNull(schemas)[i], n)
  {
    hide CleanField;
    if schemas != [] {
      NonNullClean(schemas[1..], n);
      if !IsNullSchema(schemas[0]) {
        assert Clean(schemas[0], n);
      }
    }
  }

  /** Collapsing a union of branches one level down gives a clean schema here. */
  lemma CollapseClean(schemas: seq<Object>, n: nat)
    requires forall i :: 0 <= i < |schemas| ==> CleanBranch(schemas[i], n)
    ensures Clean(CollapseUnion(schemas), n + 1)
  {
    hide SanitizeEnum, AllEnums, NonNull, CleanField;
    NonNullClean(schemas, n);
    if schemas == [] {
    } else if NullableUnion(schemas) {
      NullableClean(NonNull(schemas)[0], n + 1);
    } else if EnumUnion(schemas) && SanitizeEnum(Some(Arr(AllEnums(schemas)))).Some? {
      EnumClean(schemas[0], SanitizeEnum(Some(Arr(AllEnums(schemas)))).value, n + 1);
    }
  }

  lemma NullableClean(s: Object, n: nat)
    requires n > 0 && Clean(s, n - 1)
    ensures Clean(s[Nullable := Bool(true)], n)
  {
    CleanGrows(s, n - 1, n);
    hide Clean;
    assert CleanField(Nullable, Bool(true), n);
    hide CleanField;
    PutClean(s, Nullable, Bool(true), n);
  }

  lemma PutClean(s: Object, k: Name, v: Json, n: nat)
    requires Clean(s, n) && CleanField(k, v, n)
    ensures Clean(s[k := v], n)
  {
    hide CleanField;
  }

  lemma EnumClean(first: Object, values: seq<Json>, n: nat)
    requires n > 0 && CleanBranch(first, n - 1) && !IsNullSchema(first)
    requires values != [] && DistinctTexts(values)
    ensures var s := map[Enum := Arr(values)];
      Clean(s, n) && (GetText(first, Type).Some? ==> Clean(s[Type := first[Type]], n))
  {
    hide DistinctTexts, AllowedType;
    if GetText(first, Type).Some? {
      assert CleanField(Type, first[Type], n - 1);
    }
  }

  lemma {:induction false} AllEnumsMembers(schemas: seq<Object>, x: Json)
    ensures x in AllEnums(schemas) <==> exists i :: 0 <= i < |schemas| && x in EnumOf(schemas[i])
  {
    hide EnumOf;
    if schemas != [] {
      AllEnumsMembers(schemas[1..], x);
      forall i | 0 < i < |schemas| ensures schemas[i] == schemas[1..][i - 1] {}
      if x in AllEnums(schemas[1..]) {
        var i :| 0 <= i < |schemas[1..]| && x in EnumOf(schemas[1..][i]);
        assert x in EnumOf(schemas[i + 1]);
      }
    }
  }

  /** Enums of one type collapse to one enum of that type listing exactly the strings of all branches. */
  lemma EnumsCollapse(schemas: seq<Object>, x: Json)
    requires schemas != [] && EnumUnion(schemas) && !NullableUnion(schemas)
    requires exists y :: y in AllEnums(schemas) && y.Text?
    ensures var r := CollapseUnion(schemas);
      && GetArray(r, Enum).Some? && DistinctTexts(r[Enum].items) && r.Keys <= {Type, Enum}
      && (GetText(schemas[0], Type).Some? ==> Get(r, Type) == Get(schemas[0], Type))
      && (x in r[Enum].items <==> x.Text? && exists i :: 0 <= i < |schemas| && x in EnumOf(schemas[i]))
  {
    hide EnumOf, NonNull, AllEnums, DistinctTexts, NullableUnion;
    AllEnumsMembers(schemas, x);
    var y :| y in AllEnums(schemas) && y.Text?;
    assert y in UniqueTexts(AllEnums(schemas));
  }

  /** One alternative besides plain null branches becomes that alternative, nullable. */
  lemma NullsCollapse(schemas: seq<Object>)
    requires NullableUnion(schemas)
    ensures exists i :: 0 <= i < |schemas| && !IsNullSchema(schemas[i]) && CollapseUnion(schemas) == schemas[i][Nullable := Bool(true)]
  {
    NonNullMembers(schemas);
    assert NonNull(schemas)[0] in NonNull(schemas);
  }

  lemma {:induction false} NonNullMembers(schemas: seq<Object>)
    ensures forall s :: s in NonNull(schemas) ==> !IsNullSchema(s) && exists i :: 0 <= i < |schemas| && schemas[i] == s
  {
    hide IsNullSchema;
    if schemas != [] {
      NonNullMembers(schemas[1..]);
      forall s | s in NonNull(schemas[1..]) ensures exists i :: 0 <= i < |schemas| && schemas[i] == s {
        var i :| 0 <= i < |schemas[1..]| && schemas[1..][i] == s;
        assert schemas[i + 1] == s;
      }
    }
  }

  /** Every tool's parameters come out in the subset, as an object schema with properties. */
  lemma ParametersAreClean(parameters: Json, pointer: Str -> Option<Name>)
    ensures var s := SanitizeParameters(parameters, pointer);
      && Clean(s, MAX_SCHEMA_DEPTH)
      && GetText(s, Type) == Some(OBJECT_TYPE) && GetObject(s, Properties).Some?
  {
    hide Sanitize, Clean, CleanBranch;
    var scope := Scope(CollectDefs(parameters), pointer);
    var s := Sanitize(parameters, scope, 0, 0, false);
    SanitizedIsClean(parameters, scope, 0, 0, false);
    assert CleanField(Type, Text(OBJECT_TYPE), MAX_SCHEMA_DEPTH);
    assert CleanField(Properties, Obj(map[]), MAX_SCHEMA_DEPTH);
    PutClean(s, Type, Text(OBJECT_TYPE), MAX_SCHEMA_DEPTH);
    PutClean(s[Type := Text(OBJECT_TYPE)], Properties, Obj(map[]), MAX_SCHEMA_DEPTH);
  }

  // ---------------------------------------------------------------------------
  // Clean schemas are left alone
  // ---------------------------------------------------------------------------

  lemma LowerTypes(t: Str)
    requires AllowedType(t)
    ensures Lower(t) == t && t != NULL_TYPE
  {
    assert |Lower(t)| == |t|;
  }

  lemma TypeStays(s: Object)
    requires Type in s ==> s[Type].Text? && AllowedType(s[Type].s)
    ensures NormalizedType(Get(s, Type), false) == if Type in s then map[Type := s[Type]] else map[]
  {
    if Type in s {
      LowerTypes(s[Type].s);
      hide AllowedType, Lower;
      assert Candidates(Get(s, Type)) == [s[Type]];
    }
  }

  /** Every keyword of a clean schema stays as it is. */
  lemma {:induction false} FieldStays(s: Object, k: Name, scope: Scope, depth: nat, refDepth: nat)
    requires refDepth <= MAX_DEREF_DEPTH && depth < MAX_SCHEMA_DEPTH
    requires k in KEYWORDS && (k in s ==> CleanField(k, s[k], MAX_SCHEMA_DEPTH - depth))
    requires Type in s ==> s[Type].Text? && AllowedType(s[Type].s)
    requires Const !in s
    ensures PlainField(s, k, scope, depth, refDepth, false) == Get(s, k)
    decreases MAX_SCHEMA_DEPTH - depth, 0
  {
    TypeStays(s);
    hide NormalizedType, AllowedType, UniqueTexts, DistinctTexts, Sanitize, Bag;
    if k in s {
      match k {
        case Enum => DistinctStay(s[Enum].items);
        case Required => DistinctStay(s[Required].items);
        case Properties => BagStays(s[Properties].fields, scope, depth + 1, refDepth);
        case Items => CleanStays(s[Items].fields, scope, depth + 1, refDepth);
        case _ =>
      }
    }
  }

  /** A clean schema has none of the keywords the sanitizer resolves away. */
  lemma CleanKeywords(s: Object, n: nat)
    requires Clean(s, n)
    ensures s.Keys <= KEYWORDS && (n == 0 ==> s == map[])
    ensures Type in s ==> s[Type].Text? && AllowedType(s[Type].s)
  {
    forall k | k in s ensures k in KEYWORDS && n > 0 {
      assert CleanField(k, s[k], n);
    }
    assert Type in s ==> CleanField(Type, s[Type], n);
  }

  lemma {:induction false} CleanStays(s: Object, scope: Scope, depth: nat, refDepth: nat)
    requires refDepth <= MAX_DEREF_DEPTH && depth <= MAX_SCHEMA_DEPTH && Clean(s, MAX_SCHEMA_DEPTH - depth)
    ensures Sanitize(Obj(s), scope, depth, refDepth, false) == s
    decreases MAX_SCHEMA_DEPTH - depth, 2
  {
    hide CleanField, PlainField, AllowedType;
    var n := MAX_SCHEMA_DEPTH - depth;
    CleanKeywords(s, n);
    if depth < MAX_SCHEMA_DEPTH {
      NoOthers(s);
      forall k | k in KEYWORDS ensures PlainField(s, k, scope, depth, refDepth, false) == Get(s, k) {
        FieldStays(s, k, scope, depth, refDepth);
      }
      assert Plain(s, scope, depth, refDepth, false) == s;
    }
  }

  lemma NoOthers(s: Object)
    requires s.Keys <= KEYWORDS
    ensures Ref !in s && AnyOf !in s && Const !in s
  {
  }

  lemma {:induction false} BagStays(properties: Object, scope: Scope, depth: nat, refDepth: nat)
    requires refDepth <= MAX_DEREF_DEPTH && depth <= MAX_SCHEMA_DEPTH
    requires forall p :: p in properties ==> properties[p].Obj? && Clean(properties[p].fields, MAX_SCHEMA_DEPTH - depth)
    ensures Bag(properties, scope, depth, refDepth) == properties
    decreases MAX_SCHEMA_DEPTH - depth, 3
  {
    hide Clean, Sanitize;
    forall p | p in properties
      ensures Obj(Sanitize(properties[p], scope, depth, refDepth, false)) == properties[p]
    {
      CleanStays(properties[p].fields, scope, depth, refDepth);
    }
  }

  /** The schemas the sanitizer leaves alone are exactly the clean object schemas with properties. */
  lemma FixedExactlyWhenClean(s: Object, pointer: Str -> Option<Name>)
    ensures SanitizeParameters(Obj(s), pointer) == s
       <==> Clean(s, MAX_SCHEMA_DEPTH) && GetText(s, Type) == Some(OBJECT_TYPE) && GetObject(s, Properties).Some?
  {
    hide Clean, Sanitize;
    ParametersAreClean(Obj(s), pointer);
    if Clean(s, MAX_SCHEMA_DEPTH) && GetText(s, Type) == Some(OBJECT_TYPE) && GetObject(s, Properties).Some? {
      CleanStays(s, Scope(CollectDefs(Obj(s)), pointer), 0, 0);
      assert s[Type := Text(OBJECT_TYPE)] == s;
    }
  }

  /** Sanitizing twice is sanitizing once, for every schema and every way references resolve. */
  lemma SanitizeIsIdempotent(parameters: Json, pointer: Str -> Option<Name>)
    ensures var s := SanitizeParameters(parameters, pointer); SanitizeParameters(Obj(s), pointer) == s
  {
    hide Clean, SanitizeParameters;
    ParametersAreClean(parameters, pointer);
    FixedExactlyWhenClean(SanitizeParameters(parameters, pointer), pointer);
  }
}
