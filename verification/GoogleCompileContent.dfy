/**
 * What a compiled body keeps of its source, position by position: contents and parts but for the
 * names of calls and responses, the named declarations with their descriptions and sanitized
 * parameters, and every setting within its bounds.
 */
module GoogleCompileContent {
  import opened Prelude
  import opened GoogleJson
  import opened GoogleCodec
  import opened GoogleCompile
  import P = GoogleCompileProofs
  import S = GoogleSchema

  /** The two objects agree at every other property, and neither has one the other lacks. */
  ghost predicate SameBut(a: Object, b: Object, keys: set<Name>) {
    forall k: Name :: k !in keys ==> Get(a, k) == Get(b, k)
  }

  // ---------------------------------------------------------------------------
  // Contents
  // ---------------------------------------------------------------------------

  predicate Named(v: Option<Json>) {
    v.Some? && v.value.Obj? && GetText(v.value.fields, ToolName).Some?
  }

  /** A call or response object: the same but for its name, which is the wire name of the source's. */
  ghost predicate CallKept(w: Names, src: Option<Json>, out: Option<Json>) {
    if Named(src) then
      && Named(out) && SameBut(src.value.fields, out.value.fields, {ToolName})
      && out.value.fields[ToolName].s == Rename(w, src.value.fields[ToolName].s)
    else out == src
  }

  ghost predicate PartKept(w: Names, src: Json, out: Json) {
    && out.Obj?
    && (if src.Obj? then
          && SameBut(src.fields, out.fields, {FunctionCall, FunctionResponse})
          && CallKept(w, Get(src.fields, FunctionCall), Get(out.fields, FunctionCall))
          && CallKept(w, Get(src.fields, FunctionResponse), Get(out.fields, FunctionResponse))
        else out.fields == map[])
  }

  ghost predicate PartsKept(w: Names, src: seq<Json>, out: seq<Json>) {
    |out| == |src| && forall j :: 0 <= j < |src| ==> PartKept(w, src[j], out[j])
  }

  ghost predicate ContentKept(w: Names, src: Json, out: Json) {
    && out.Obj?
    && (if !src.Obj? then out.fields == map[]
        else
          && SameBut(src.fields, out.fields, {Parts})
          && (if GetArray(src.fields, Parts).Some?
              then GetArray(out.fields, Parts).Some? && PartsKept(w, src.fields[Parts].items, out.fields[Parts].items)
              else Get(out.fields, Parts) == Get(src.fields, Parts)))
  }

  ghost predicate ContentsKept(w: Names, src: seq<Json>, out: seq<Json>) {
    |out| == |src| && forall i :: 0 <= i < |src| ==> ContentKept(w, src[i], out[i])
  }

  lemma RenamedUnder(o: Object, k: Name, w: Names)
    ensures var r := RenameUnder(o, k, w); SameBut(o, r, {k}) && CallKept(w, Get(o, k), Get(r, k))
  {
    hide Rename;
  }

  lemma PartIsKept(part: Json, w: Names)
    ensures PartKept(w, part, CompilePart(part, w))
  {
    if part.Obj? {
      RenamedUnder(part.fields, FunctionCall, w);
      RenamedUnder(RenameUnder(part.fields, FunctionCall, w), FunctionResponse, w);
      hide RenameUnder, CallKept;
    }
  }

  lemma {:induction false} PartsAreKept(parts: seq<Json>, w: Names)
    ensures PartsKept(w, parts, CompileParts(parts, w))
  {
    hide PartKept, CompilePart;
    if parts != [] {
      PartIsKept(parts[0], w);
      PartsAreKept(parts[1..], w);
      var out := CompileParts(parts, w);
      assert out == [CompilePart(parts[0], w)] + CompileParts(parts[1..], w);
      forall j | 0 <= j < |parts| ensures PartKept(w, parts[j], out[j]) {
        if j > 0 { assert parts[j] == parts[1..][j - 1] && out[j] == CompileParts(parts[1..], w)[j - 1]; }
      }
    }
  }

  lemma ContentIsKept(content: Json, w: Names)
    ensures ContentKept(w, content, CompileContent(content, w))
  {
    hide CompileParts, PartsKept;
    if content.Obj? && GetArray(content.fields, Parts).Some? { PartsAreKept(content.fields[Parts].items, w); }
  }

  lemma {:induction false} ContentsAreKept(contents: seq<Json>, w: Names)
    ensures ContentsKept(w, contents, CompileContents(contents, w))
  {
    hide ContentKept, CompileContent;
    if contents != [] {
      ContentIsKept(contents[0], w);
      ContentsAreKept(contents[1..], w);
      var out := CompileContents(contents, w);
      assert out == [CompileContent(contents[0], w)] + CompileContents(contents[1..], w);
      forall i | 0 <= i < |contents| ensures ContentKept(w, contents[i], out[i]) {
        if i > 0 { assert contents[i] == contents[1..][i - 1] && out[i] == CompileContents(contents[1..], w)[i - 1]; }
      }
    }
  }

  // ---------------------------------------------------------------------------
  // Tools
  // ---------------------------------------------------------------------------

  /** Which places of a list pass a test, in order. */
  function Places(items: seq<Json>, p: Json -> bool): (r: seq<nat>)
    ensures forall i :: 0 <= i < |r| ==> r[i] < |items| && p(items[r[i]])
    ensures forall i, j :: 0 <= i < j < |r| ==> r[i] < r[j]
    ensures forall k :: 0 <= k < |items| && p(items[k]) ==> k in r
  {
    if items == [] then []
    else
      var n := |items| - 1;
      Places(items[..n], p) + (if p(items[n]) then [n] else [])
  }

  predicate IsDeclaration(j: Json) {
    j.Obj? && GetText(j.fields, ToolName).Some?
  }

  /** A declaration: its wire name, its description if it is text, its sanitized parameters, nothing else. */
  ghost predicate DeclarationKept(w: Names, pointer: Str -> Option<Name>, src: Json, out: Json) {
    && src.Obj? && out.Obj? && GetText(src.fields, ToolName).Some?
    && Get(out.fields, ToolName) == Some(Text(Rename(w, src.fields[ToolName].s)))
    && GetText(out.fields, Description) == GetText(src.fields, Description)
    && (Description in out.fields ==> out.fields[Description].Text?)
    && Get(out.fields, Parameters) == Some(Obj(S.SanitizeParameters(if Parameters in src.fields then src.fields[Parameters] else Null, pointer)))
    && out.fields.Keys <= {ToolName, Description, Parameters}
  }

  /** Exactly the named declarations come out, in order. */
  ghost predicate DeclarationsKept(w: Names, pointer: Str -> Option<Name>, src: seq<Json>, out: seq<Json>) {
    var at := Places(src, IsDeclaration);
    |out| == |at| && forall i :: 0 <= i < |at| ==> DeclarationKept(w, pointer, src[at[i]], out[i])
  }

  predicate IsTool(j: Json) {
    j.Obj? && GetArray(j.fields, FunctionDeclarations).Some? && exists i :: 0 <= i < |j.fields[FunctionDeclarations].items| && IsDeclaration(j.fields[FunctionDeclarations].items[i])
  }

  /** A tool is its declarations and nothing else. */
  ghost predicate ToolKept(w: Names, pointer: Str -> Option<Name>, src: Json, out: Json) {
    && src.Obj? && GetArray(src.fields, FunctionDeclarations).Some?
    && out.Obj? && out.fields.Keys == {FunctionDeclarations} && out.fields[FunctionDeclarations].Arr?
    && DeclarationsKept(w, pointer, src.fields[FunctionDeclarations].items, out.fields[FunctionDeclarations].items)
  }

  /** Exactly the tools with a named declaration come out, in order. */
  ghost predicate ToolsKept(w: Names, pointer: Str -> Option<Name>, src: seq<Json>, out: seq<Json>) {
    var at := Places(src, IsTool);
    |out| == |at| && forall i :: 0 <= i < |at| ==> ToolKept(w, pointer, src[at[i]], out[i])
  }

  lemma DeclarationIsKept(j: Json, w: Names, pointer: Str -> Option<Name>)
    ensures var d := CompileDeclaration(j, w, pointer);
      if IsDeclaration(j) then |d| == 1 && DeclarationKept(w, pointer, j, d[0]) else d == []
  {
    hide S.SanitizeParameters, Rename;
    if IsDeclaration(j) {
      var d := CompileDeclaration(j, w, pointer)[0].fields;
      forall k | k in DECLARATION_KEYS ensures Get(d, k) == DeclarationField(j.fields, k, w, pointer) {}
      assert Get(d, ToolName) == DeclarationField(j.fields, ToolName, w, pointer);
      assert Get(d, Description) == DeclarationField(j.fields, Description, w, pointer);
      assert Get(d, Parameters) == DeclarationField(j.fields, Parameters, w, pointer);
    }
  }

  lemma {:induction false} DeclarationsAreKept(ds: seq<Json>, w: Names, pointer: Str -> Option<Name>)
    ensures DeclarationsKept(w, pointer, ds, CompileDeclarations(ds, w, pointer))
  {
    hide DeclarationKept, CompileDeclaration, IsDeclaration;
    if ds != [] {
      var n := |ds| - 1;
      assert ds == ds[..n] + [ds[n]];
      DeclarationsAreKept(ds[..n], w, pointer);
      DeclarationIsKept(ds[n], w, pointer);
      P.CompileAppend(ds[..n], [ds[n]], w, pointer);
      assert CompileDeclarations([ds[n]], w, pointer) == CompileDeclaration(ds[n], w, pointer) by { OneDeclaration(ds[n], w, pointer); }
    }
  }

  lemma OneDeclaration(j: Json, w: Names, pointer: Str -> Option<Name>)
    ensures CompileDeclarations([j], w, pointer) == CompileDeclaration(j, w, pointer)
  {
    hide CompileDeclaration;
    assert [j][1..] == [];
  }

  lemma ToolIsKept(tool: Json, w: Names, pointer: Str -> Option<Name>)
    ensures var t := CompileTool(tool, w, pointer);
      if IsTool(tool) then |t| == 1 && ToolKept(w, pointer, tool, t[0]) else t == []
  {
    hide CompileDeclarations, IsDeclaration, DeclarationKept;
    if tool.Obj? && GetArray(tool.fields, FunctionDeclarations).Some? {
      var ds := tool.fields[FunctionDeclarations].items;
      DeclarationsAreKept(ds, w, pointer);
      var at := Places(ds, IsDeclaration);
      assert at != [] ==> IsDeclaration(ds[at[0]]);
    }
  }

  lemma {:induction false} ToolsAreKept(tools: seq<Json>, w: Names, pointer: Str -> Option<Name>)
    ensures ToolsKept(w, pointer, tools, CompileTools(tools, w, pointer))
  {
    hide ToolKept, CompileTool, IsTool;
    if tools != [] {
      var n := |tools| - 1;
      assert tools == tools[..n] + [tools[n]];
      ToolsAreKept(tools[..n], w, pointer);
      ToolIsKept(tools[n], w, pointer);
      P.CompileToolsAppend(tools[..n], [tools[n]], w, pointer);
      assert CompileTools([tools[n]], w, pointer) == CompileTool(tools[n], w, pointer) by { OneTool(tools[n], w, pointer); }
    }
  }

  lemma OneTool(tool: Json, w: Names, pointer: Str -> Option<Name>)
    ensures CompileTools([tool], w, pointer) == CompileTool(tool, w, pointer)
  {
    hide CompileTool;
    assert [tool][1..] == [];
  }

  // ---------------------------------------------------------------------------
  // Settings
  // ---------------------------------------------------------------------------

  /** A number is kept when it is at least zero, and cut to a cap. */
  predicate CappedNumber(src: Option<Json>, out: Option<Json>, cap: real) {
    if src.Some? && src.value.Num? && src.value.r >= 0.0
    then out.Some? && out.value.Num? && out.value.r <= cap && out.value.r <= src.value.r && (out.value.r == cap || out.value.r == src.value.r)
    else out.None?
  }

  /** A token cap is kept when it is positive, and rounded down to a whole number. */
  predicate WholeNumber(src: Option<Json>, out: Option<Json>) {
    if src.Some? && src.value.Num? && src.value.r > 0.0
    then out.Some? && out.value.Num? && out.value.r <= src.value.r < out.value.r + 1.0 && out.value.r == out.value.r.Floor as real
    else out.None?
  }

  function ItemsOf(v: Option<Json>): seq<Json> {
    if v.Some? && v.value.Arr? then v.value.items else []
  }

  /** Exactly the items that pass the test, in order, each as often as it was there; nothing at all instead of none. */
  predicate Picked(src: Option<Json>, out: Option<Json>, p: Json -> bool) {
    var at := Places(ItemsOf(src), p);
    if at == [] then out.None?
    else out.Some? && out.value.Arr? && |out.value.items| == |at| && forall i :: 0 <= i < |at| ==> out.value.items[i] == ItemsOf(src)[at[i]]
  }

  /** All from the source, in order of first appearance. */
  predicate ByFirst(src: seq<Json>, out: seq<Json>) {
    && (forall i :: 0 <= i < |out| ==> out[i] in src)
    && (forall i, j :: 0 <= i < j < |out| ==> FirstAt(src, out[i]) < FirstAt(src, out[j]))
  }

  /** A string left out appears only after five others. */
  predicate OnlyLater(src: seq<Json>, out: seq<Json>)
    requires ByFirst(src, out)
  {
    forall k :: 0 <= k < |src| && IsStop(src[k]) && src[k] !in out ==>
      |out| == STOP_LIMIT && forall i :: 0 <= i < |out| ==> FirstAt(src, out[i]) < FirstAt(src, src[k])
  }

  /** The first five different non-empty strings, in order of first appearance. */
  predicate FirstStops(src: seq<Json>, out: seq<Json>) {
    && DistinctTexts(out) && |out| <= STOP_LIMIT && (forall i :: 0 <= i < |out| ==> IsStop(out[i]))
    && ByFirst(src, out) && OnlyLater(src, out)
  }

  predicate StopsKept(src: Option<Json>, out: Option<Json>) {
    if out.None? then forall k :: 0 <= k < |ItemsOf(src)| ==> !IsStop(ItemsOf(src)[k])
    else out.value.Arr? && out.value.items != [] && FirstStops(ItemsOf(src), out.value.items)
  }

  /** The level in lower case if Google has it, `high` for the three above, and no other setting. */
  predicate ThinkingKept(src: Option<Json>, out: Option<Json>) {
    var raw := if src.Some? && src.value.Obj? && GetText(src.value.fields, ThinkingLevel).Some?
               then Some(Lower(src.value.fields[ThinkingLevel].s)) else None;
    if raw.Some? && raw.value in {MINIMAL, LOW, MEDIUM, HIGH} then out == Some(Obj(map[ThinkingLevel := Text(raw.value)]))
    else if raw.Some? && raw.value in {XHIGH, MAX, ULTRA} then out == Some(Obj(map[ThinkingLevel := Text(HIGH)]))
    else out.None?
  }

  predicate ConfigKept(src: Object, out: Object) {
    && WholeNumber(Get(src, MaxOutputTokens), Get(out, MaxOutputTokens))
    && CappedNumber(Get(src, Temperature), Get(out, Temperature), 2.0)
    && CappedNumber(Get(src, TopP), Get(out, TopP), 1.0)
    && StopsKept(Get(src, StopSequences), Get(out, StopSequences))
    && ThinkingKept(Get(src, ThinkingConfig), Get(out, ThinkingConfig))
    && Picked(Get(src, ResponseModalities), Get(out, ResponseModalities), IsModality)
    && out.Keys <= {MaxOutputTokens, Temperature, TopP, StopSequences, ThinkingConfig, ResponseModalities}
  }

  /** The fields an optional object holds. */
  function FieldsOf(v: Option<Json>): Object {
    if v.Some? && v.value.Obj? then v.value.fields else map[]
  }

  /** A setting object: kept field by field, and left out when nothing is kept. */
  predicate GenerationKept(src: Option<Json>, out: Option<Json>) {
    && (out.Some? ==> out.value.Obj? && out.value.fields != map[] && src.Some? && src.value.Obj?)
    && (src.Some? && src.value.Obj? ==> ConfigKept(src.value.fields, FieldsOf(out)))
  }

  lemma {:induction false} KeepPlaces(items: seq<Json>, p: Json -> bool)
    ensures var at := Places(items, p);
      |Keep(items, p)| == |at| && forall i :: 0 <= i < |at| ==> Keep(items, p)[i] == items[at[i]]
  {
    if items != [] {
      var n := |items| - 1;
      KeepPlaces(items[..n], p);
      assert items == items[..n] + [items[n]];
      KeepSnoc(items[..n], items[n], p);
    }
  }

  lemma {:induction false} KeepSnoc(items: seq<Json>, x: Json, p: Json -> bool)
    ensures Keep(items + [x], p) == Keep(items, p) + (if p(x) then [x] else [])
  {
    if items == [] {
      assert items + [x] == [x] && [x][1..] == [];
    } else {
      assert (items + [x])[1..] == items[1..] + [x];
      KeepSnoc(items[1..], x, p);
    }
  }

  /** Picking items keeps their order of first appearance. */
  lemma {:induction false} KeepOrder(items: seq<Json>, p: Json -> bool, x: Json, y: Json)
    requires x in Keep(items, p) && y in Keep(items, p)
    ensures x in items && y in items && (FirstAt(Keep(items, p), x) < FirstAt(Keep(items, p), y) <==> FirstAt(items, x) < FirstAt(items, y))
  {
    var n := |items| - 1;
    hide Keep, FirstAt;
    KeepNothing(p);
    assert items == items[..n] + [items[n]];
    KeepSnoc(items[..n], items[n], p);
    KeepsMember(items, p, x);
    KeepsMember(items, p, y);
    KeepsMember(items[..n], p, x);
    KeepsMember(items[..n], p, y);
    FirstAtSnoc(items[..n], items[n], x);
    FirstAtSnoc(items[..n], items[n], y);
    if p(items[n]) {
      assert Keep(items, p) == Keep(items[..n], p) + [items[n]];
      FirstAtSnoc(Keep(items[..n], p), items[n], x);
      FirstAtSnoc(Keep(items[..n], p), items[n], y);
    } else {
      assert Keep(items, p) == Keep(items[..n], p);
    }
    if x in items[..n] && y in items[..n] { KeepOrder(items[..n], p, x, y); }
  }

  lemma KeepNothing(p: Json -> bool)
    ensures Keep([], p) == []
  {
  }

  lemma {:induction false} KeepsMember(items: seq<Json>, p: Json -> bool, x: Json)
    ensures x in Keep(items, p) <==> x in items && p(x)
  {
    if items != [] {
      KeepsMember(items[1..], p, x);
      assert x in items <==> x == items[0] || x in items[1..];
    }
  }

  lemma StopsAreKept(items: seq<Json>)
    ensures FirstStops(items, StopTexts(items))
    ensures StopTexts(items) == [] <==> forall k :: 0 <= k < |items| ==> !IsStop(items[k])
  {
    var kept := Keep(items, IsStop);
    var unique, out := UniqueTexts(kept), StopTexts(items);
    forall i | 0 <= i < |unique| ensures unique[i] in kept && IsStop(unique[i]) && unique[i] in items {
      assert unique[i] in unique;
      KeepsMember(items, IsStop, unique[i]);
    }
    forall i, j | 0 <= i < j < |unique| ensures FirstAt(items, unique[i]) < FirstAt(items, unique[j]) {
      UniqueOrder(kept, i, j);
      KeepOrder(items, IsStop, unique[i], unique[j]);
    }
    forall k | 0 <= k < |items| && IsStop(items[k]) ensures items[k] in unique {
      KeepsMember(items, IsStop, items[k]);
    }
    hide UniqueTexts, Keep, StopTexts;
    StopsCut(unique, out, items);
  }

  lemma StopsCut(unique: seq<Json>, out: seq<Json>, items: seq<Json>)
    requires DistinctTexts(unique) && out == (if |unique| <= STOP_LIMIT then unique else unique[..STOP_LIMIT])
    requires (forall i :: 0 <= i < |unique| ==> IsStop(unique[i])) && ByFirst(items, unique)
    requires forall k :: 0 <= k < |items| && IsStop(items[k]) ==> items[k] in unique
    ensures FirstStops(items, out) && (out == [] <==> forall k :: 0 <= k < |items| ==> !IsStop(items[k]))
  {
    hide IsStop, DistinctTexts, ByFirst, OnlyLater;
    assert DistinctTexts(out) by { CutDistinct(unique, |out|); }
    CutOrder(unique, out, items);
    CutEmpty(unique, out, items);
  }

  lemma CutDistinct(unique: seq<Json>, n: nat)
    requires DistinctTexts(unique) && n <= |unique|
    ensures DistinctTexts(unique[..n])
  {
  }

  lemma CutOrder(unique: seq<Json>, out: seq<Json>, items: seq<Json>)
    requires ByFirst(items, unique) && out == (if |unique| <= STOP_LIMIT then unique else unique[..STOP_LIMIT])
    requires forall k :: 0 <= k < |items| && IsStop(items[k]) ==> items[k] in unique
    ensures ByFirst(items, out) && OnlyLater(items, out)
  {
    hide IsStop, FirstAt;
    forall k | 0 <= k < |items| && IsStop(items[k]) && items[k] !in out
      ensures |out| == STOP_LIMIT && forall i :: 0 <= i < |out| ==> FirstAt(items, out[i]) < FirstAt(items, items[k])
    {
      var m :| 0 <= m < |unique| && unique[m] == items[k];
      assert m >= |out|;
    }
  }

  lemma CutEmpty(unique: seq<Json>, out: seq<Json>, items: seq<Json>)
    requires out == (if |unique| <= STOP_LIMIT then unique else unique[..STOP_LIMIT])
    requires (forall i :: 0 <= i < |unique| ==> IsStop(unique[i])) && ByFirst(items, unique)
    requires forall k :: 0 <= k < |items| && IsStop(items[k]) ==> items[k] in unique
    ensures out == [] <==> forall k :: 0 <= k < |items| ==> !IsStop(items[k])
  {
    hide IsStop;
    if unique != [] {
      assert unique[0] in items;
    }
  }

  lemma ConfigIsKept(o: Object)
    ensures ConfigKept(o, ConfigFields(o))
  {
    var c := ConfigFields(o);
    P.ConfigGet(o);
    hide ConfigFields, ConfigField, WholeNumber, CappedNumber, StopsKept, ThinkingKept, Picked;
    assert MaxOutputTokens in CONFIG_KEYS && Temperature in CONFIG_KEYS && TopP in CONFIG_KEYS
           && StopSequences in CONFIG_KEYS && ThinkingConfig in CONFIG_KEYS && ResponseModalities in CONFIG_KEYS;
    NumbersAreKept(o, c);
    StopFieldKept(o);
    ThinkingFieldKept(o);
    ModalitiesKept(o);
  }

  lemma ModalitiesKept(o: Object)
    ensures Picked(Get(o, ResponseModalities), ConfigField(o, ResponseModalities), IsModality)
  {
    hide IsModality, Keep;
    KeepPlaces(Elements(o, ResponseModalities), IsModality);
  }

  lemma NumbersAreKept(o: Object, c: Object)
    requires forall k :: k in CONFIG_KEYS ==> Get(c, k) == ConfigField(o, k)
    ensures WholeNumber(Get(o, MaxOutputTokens), Get(c, MaxOutputTokens))
    ensures CappedNumber(Get(o, Temperature), Get(c, Temperature), 2.0) && CappedNumber(Get(o, TopP), Get(c, TopP), 1.0)
  {
    hide StopTexts, Keep, Level;
    assert MaxOutputTokens in CONFIG_KEYS && Temperature in CONFIG_KEYS && TopP in CONFIG_KEYS;
  }

  lemma StopFieldKept(o: Object)
    ensures StopsKept(Get(o, StopSequences), ConfigField(o, StopSequences))
  {
    hide StopTexts, FirstStops, IsStop;
    StopsAreKept(Elements(o, StopSequences));
  }

  lemma ThinkingFieldKept(o: Object)
    ensures ThinkingKept(Get(o, ThinkingConfig), ConfigField(o, ThinkingConfig))
  {
    hide Lower;
  }

  lemma GenerationIsKept(v: Option<Json>)
    ensures GenerationKept(v, CompileGenerationConfig(v))
  {
    hide ConfigFields, ConfigKept;
    if v.Some? && v.value.Obj? { ConfigIsKept(v.value.fields); }
  }

  // ---------------------------------------------------------------------------
  // The calling mode
  // ---------------------------------------------------------------------------

  predicate IsText(j: Json) { j.Text? }

  /** The mode in upper case if Google has it; the allowed names as wire names, in order. */
  predicate CallingKept(w: Names, src: Object, out: Object) {
    && (if GetText(src, Mode).Some? && Upper(src[Mode].s) in {AUTO_MODE, ANY_MODE, NONE_MODE, VALIDATED_MODE}
        then Get(out, Mode) == Some(Text(Upper(src[Mode].s))) else Mode !in out)
    && (var at := Places(ItemsOf(Get(src, AllowedFunctionNames)), IsText);
        if at == [] then AllowedFunctionNames !in out
        else
          && GetArray(out, AllowedFunctionNames).Some? && |out[AllowedFunctionNames].items| == |at|
          && forall i :: 0 <= i < |at| ==>
               out[AllowedFunctionNames].items[i] == Text(Rename(w, ItemsOf(Get(src, AllowedFunctionNames))[at[i]].s)))
    && out.Keys <= {Mode, AllowedFunctionNames}
  }

  predicate ToolConfigKept(w: Names, src: Option<Json>, out: Option<Json>) {
    && (out.Some? ==> out.value.Obj? && out.value.fields.Keys == {FunctionCallingConfig}
                      && GetObject(out.value.fields, FunctionCallingConfig).Some?
                      && GetObject(out.value.fields, FunctionCallingConfig).value != map[]
                      && GetObject(FieldsOf(src), FunctionCallingConfig).Some?)
    && (GetObject(FieldsOf(src), FunctionCallingConfig).Some? ==>
          CallingKept(w, GetObject(FieldsOf(src), FunctionCallingConfig).value, FieldsOf(Get(FieldsOf(out), FunctionCallingConfig))))
  }

  lemma {:induction false} RenamedPlaces(items: seq<Json>, w: Names)
    ensures var at := Places(items, IsText);
      |RenameTexts(items, w)| == |at| && forall i :: 0 <= i < |at| ==> RenameTexts(items, w)[i] == Text(Rename(w, items[at[i]].s))
  {
    hide Rename;
    if items != [] {
      var n := |items| - 1;
      RenamedPlaces(items[..n], w);
      assert items == items[..n] + [items[n]];
      RenamedSnoc(items[..n], items[n], w);
    }
  }

  lemma {:induction false} RenamedSnoc(items: seq<Json>, x: Json, w: Names)
    ensures RenameTexts(items + [x], w) == RenameTexts(items, w) + (if x.Text? then [Text(Rename(w, x.s))] else [])
  {
    hide Rename;
    if items == [] {
      assert items + [x] == [x] && [x][1..] == [];
    } else {
      RenamedSnoc(items[1..], x, w);
      RenamedFirst(items, w);
      RenamedFirst(items + [x], w);
      hide RenameTexts;
      assert (items + [x])[1..] == items[1..] + [x];
    }
  }

  lemma RenamedFirst(items: seq<Json>, w: Names)
    requires items != []
    ensures RenameTexts(items, w) == (if items[0].Text? then [Text(Rename(w, items[0].s))] else []) + RenameTexts(items[1..], w)
  {
  }

  lemma CallingIsKept(o: Object, w: Names)
    ensures CallingKept(w, o, CallingFields(o, w))
  {
    hide Upper, Rename, RenameTexts;
    var c := CallingFields(o, w);
    forall k | k in CALLING_KEYS ensures Get(c, k) == CallingField(o, k, w) {}
    assert Mode in CALLING_KEYS && AllowedFunctionNames in CALLING_KEYS;
    assert Get(c, Mode) == CallingField(o, Mode, w);
    assert Get(c, AllowedFunctionNames) == CallingField(o, AllowedFunctionNames, w);
    RenamedPlaces(Elements(o, AllowedFunctionNames), w);
  }

  lemma ToolConfigIsKept(v: Option<Json>, w: Names)
    ensures ToolConfigKept(w, v, CompileToolConfig(v, w))
  {
    hide CallingFields, CallingKept;
    if v.Some? && v.value.Obj? && GetObject(v.value.fields, FunctionCallingConfig).Some? {
      CallingIsKept(v.value.fields[FunctionCallingConfig].fields, w);
    }
  }

  // ---------------------------------------------------------------------------
  // The whole body
  // ---------------------------------------------------------------------------

  ghost predicate BodyKept(w: Names, pointer: Str -> Option<Name>, src: Object, out: Object) {
    && (if GetArray(src, Contents).Some? then GetArray(out, Contents).Some? && ContentsKept(w, src[Contents].items, out[Contents].items)
        else Contents !in out)
    && Get(out, SystemInstruction) == (if GetObject(src, SystemInstruction).Some? then Get(src, SystemInstruction) else None)
    && Get(out, SessionId) == (if GetText(src, SessionId).Some? && src[SessionId].s != [] then Get(src, SessionId) else None)
    && ToolsKept(w, pointer, ItemsOf(Get(src, Tools)), ItemsOf(Get(out, Tools)))
    && (Tools in out ==> out[Tools].Arr? && out[Tools].items != [])
    && GenerationKept(Get(src, GenerationConfig), Get(out, GenerationConfig))
    && ToolConfigKept(w, Get(src, ToolConfig), Get(out, ToolConfig))
    && out.Keys <= {Contents, SystemInstruction, Tools, GenerationConfig, ToolConfig, SessionId}
  }

  lemma ContentFieldKept(source: Object, w: Names, pointer: Str -> Option<Name>)
    ensures var out := BodyField(source, Contents, w, pointer);
      if GetArray(source, Contents).Some? then out.Some? && out.value.Arr? && ContentsKept(w, source[Contents].items, out.value.items)
      else out.None?
  {
    hide CompileContents, ContentsKept;
    if GetArray(source, Contents).Some? { ContentsAreKept(source[Contents].items, w); }
  }

  lemma ToolFieldKept(source: Object, w: Names, pointer: Str -> Option<Name>)
    ensures var out := BodyField(source, Tools, w, pointer);
      && ToolsKept(w, pointer, ItemsOf(Get(source, Tools)), ItemsOf(out))
      && (out.Some? ==> out.value.Arr? && out.value.items != [])
  {
    hide CompileTools, ToolsKept;
    ToolsAreKept(Elements(source, Tools), w, pointer);
  }

  /**
   * For every source body and renaming: the compiled body keeps every content, part and property at
   * its place but for the names of calls and responses; exactly the named declarations, with their
   * descriptions and sanitized parameters; system instruction and session; every setting within its
   * bounds; and nothing else.
   */
  lemma BodyIsKept(source: Object, w: Names, pointer: Str -> Option<Name>)
    ensures BodyKept(w, pointer, source, CompiledBody(source, w, pointer))
  {
    hide CompiledBody, CompileContents, CompileTools, CompileGenerationConfig, CompileToolConfig,
         ContentsKept, ToolsKept, GenerationKept, ToolConfigKept;
    P.BodyGet(source, w, pointer);
    ContentFieldKept(source, w, pointer);
    ToolFieldKept(source, w, pointer);
    GenerationIsKept(Get(source, GenerationConfig));
    ToolConfigIsKept(Get(source, ToolConfig), w);
    PlainFieldsKept(source, w, pointer);
    hide BodyField;
    assert Contents in BODY_KEYS && SystemInstruction in BODY_KEYS && Tools in BODY_KEYS && GenerationConfig in BODY_KEYS
           && ToolConfig in BODY_KEYS && SessionId in BODY_KEYS;
  }

  lemma PlainFieldsKept(source: Object, w: Names, pointer: Str -> Option<Name>)
    ensures BodyField(source, SystemInstruction, w, pointer) == (if GetObject(source, SystemInstruction).Some? then Get(source, SystemInstruction) else None)
    ensures BodyField(source, SessionId, w, pointer)
         == (if GetText(source, SessionId).Some? && source[SessionId].s != [] then Get(source, SessionId) else None)
    ensures BodyField(source, GenerationConfig, w, pointer) == CompileGenerationConfig(Get(source, GenerationConfig))
    ensures BodyField(source, ToolConfig, w, pointer) == CompileToolConfig(Get(source, ToolConfig), w)
  {
    hide CompileContents, CompileTools, CompileGenerationConfig, CompileToolConfig;
  }
}
