/**
 * Every tool name of a compiled body restores to its source, and compiling a compiled body
 * changes nothing unless a fractional token cap was floored to zero.
 */
module GoogleCompileProofs {
  import opened Prelude
  import opened GoogleJson
  import opened GoogleCodec
  import opened GoogleCompile
  import S = GoogleSchema
  import P = GoogleSchemaProofs

  function RenameAll(w: Names, names: seq<Str>): seq<Str> {
    seq(|names|, i requires 0 <= i < |names| => Rename(w, names[i]))
  }

  lemma RenameAppend(w: Names, a: seq<Str>, b: seq<Str>)
    ensures RenameAll(w, a + b) == RenameAll(w, a) + RenameAll(w, b)
  {
    hide Rename;
  }

  // ---------------------------------------------------------------------------
  // Compiling renames the names, in place
  // ---------------------------------------------------------------------------

  lemma PartNames(part: Json, w: Names)
    ensures NamesOfPart(CompilePart(part, w)) == RenameAll(w, NamesOfPart(part))
  {
    hide Rename;
  }

  lemma {:induction false} PartsNames(parts: seq<Json>, w: Names)
    ensures NamesOfParts(CompileParts(parts, w)) == RenameAll(w, NamesOfParts(parts))
  {
    hide NamesOfPart, CompilePart, Rename, RenameAll;
    if parts == [] {
      NoNamesToRename(w);
    } else {
      PartNames(parts[0], w);
      PartsNames(parts[1..], w);
      RenameAppend(w, NamesOfPart(parts[0]), NamesOfParts(parts[1..]));
      assert CompileParts(parts, w)[1..] == CompileParts(parts[1..], w);
    }
  }

  lemma NoNamesToRename(w: Names)
    ensures RenameAll(w, []) == []
  {
  }

  lemma ContentNames(content: Json, w: Names)
    ensures NamesOfContent(CompileContent(content, w)) == RenameAll(w, NamesOfContent(content))
  {
    hide NamesOfParts, CompileParts, RenameAll;
    NoNamesToRename(w);
    if content.Obj? && GetArray(content.fields, Parts).Some? {
      PartsNames(content.fields[Parts].items, w);
    }
  }

  lemma {:induction false} ContentsNames(contents: seq<Json>, w: Names)
    ensures NamesOfContents(CompileContents(contents, w)) == RenameAll(w, NamesOfContents(contents))
  {
    hide NamesOfContent, CompileContent, RenameAll;
    if contents == [] {
      NoNamesToRename(w);
    } else {
      ContentNames(contents[0], w);
      ContentsNames(contents[1..], w);
      RenameAppend(w, NamesOfContent(contents[0]), NamesOfContents(contents[1..]));
      assert CompileContents(contents, w)[1..] == CompileContents(contents[1..], w);
    }
  }

  lemma {:induction false} DeclaredAppend(a: seq<Json>, b: seq<Json>)
    ensures DeclaredNames(a + b) == DeclaredNames(a) + DeclaredNames(b)
  {
    hide DeclaredName;
    if a == [] {
      assert a + b == b;
    } else {
      assert (a + b)[1..] == a[1..] + b;
      DeclaredAppend(a[1..], b);
    }
  }

  lemma DeclarationName(j: Json, w: Names, pointer: Str -> Option<Name>)
    ensures DeclaredNames(CompileDeclaration(j, w, pointer)) == RenameAll(w, DeclaredName(j))
  {
    hide Rename;
    if j.Obj? && GetText(j.fields, ToolName).Some? {
      var d := CompileDeclaration(j, w, pointer);
      assert DeclarationField(j.fields, ToolName, w, pointer) == Some(d[0].fields[ToolName]);
      assert d[1..] == [];
    }
  }

  lemma {:induction false} DeclarationsNames(ds: seq<Json>, w: Names, pointer: Str -> Option<Name>)
    ensures DeclaredNames(CompileDeclarations(ds, w, pointer)) == RenameAll(w, DeclaredNames(ds))
  {
    hide CompileDeclaration, DeclaredName, RenameAll;
    if ds == [] {
      NoNamesToRename(w);
    } else {
      DeclarationName(ds[0], w, pointer);
      DeclarationsNames(ds[1..], w, pointer);
      DeclaredAppend(CompileDeclaration(ds[0], w, pointer), CompileDeclarations(ds[1..], w, pointer));
      RenameAppend(w, DeclaredName(ds[0]), DeclaredNames(ds[1..]));
    }
  }

  lemma ToolNames(tool: Json, w: Names, pointer: Str -> Option<Name>)
    ensures NamesOfTools(CompileTool(tool, w, pointer)) == RenameAll(w, NamesOfTool(tool))
  {
    hide CompileDeclarations, RenameAll;
    NoNamesToRename(w);
    if tool.Obj? && GetArray(tool.fields, FunctionDeclarations).Some? {
      DeclarationsNames(tool.fields[FunctionDeclarations].items, w, pointer);
      assert |CompileTool(tool, w, pointer)| == 1 ==> CompileTool(tool, w, pointer)[1..] == [];
    }
  }

  lemma {:induction false} ToolsAppend(a: seq<Json>, b: seq<Json>)
    ensures NamesOfTools(a + b) == NamesOfTools(a) + NamesOfTools(b)
  {
    hide NamesOfTool;
    if a == [] {
      assert a + b == b;
    } else {
      assert (a + b)[1..] == a[1..] + b;
      ToolsAppend(a[1..], b);
    }
  }

  lemma {:induction false} ToolsNames(tools: seq<Json>, w: Names, pointer: Str -> Option<Name>)
    ensures NamesOfTools(CompileTools(tools, w, pointer)) == RenameAll(w, NamesOfTools(tools))
  {
    hide CompileTool, NamesOfTool, RenameAll;
    if tools == [] {
      NoNamesToRename(w);
    } else {
      ToolNames(tools[0], w, pointer);
      ToolsNames(tools[1..], w, pointer);
      ToolsAppend(CompileTool(tools[0], w, pointer), CompileTools(tools[1..], w, pointer));
      RenameAppend(w, NamesOfTool(tools[0]), NamesOfTools(tools[1..]));
    }
  }

  lemma BodyItems(source: Object, w: Names, pointer: Str -> Option<Name>)
    ensures var body := CompiledBody(source, w, pointer);
      && Elements(body, Tools) == CompileTools(Elements(source, Tools), w, pointer)
      && Elements(body, Contents) == CompileContents(Elements(source, Contents), w)
  {
    hide CompileTools, CompileContents, CompileGenerationConfig, CompileToolConfig;
    var body := CompiledBody(source, w, pointer);
    assert Tools in BODY_KEYS && Contents in BODY_KEYS;
    assert GetArray(source, Contents).Some? ==> body[Contents] == BodyField(source, Contents, w, pointer).value;
    assert CompileTools(Elements(source, Tools), w, pointer) != [] ==> body[Tools] == BodyField(source, Tools, w, pointer).value;
    assert Tools in body ==> body[Tools] == BodyField(source, Tools, w, pointer).value;
    assert Contents in body ==> body[Contents] == BodyField(source, Contents, w, pointer).value;
    NothingCompiles(w);
  }

  lemma NothingCompiles(w: Names)
    ensures CompileContents([], w) == []
  {
  }

  /** The names of a compiled body are the source's names, each renamed, in the same places. */
  lemma NamesAreRenamed(source: Object, w: Names, pointer: Str -> Option<Name>)
    ensures NamesOf(CompiledBody(source, w, pointer)) == RenameAll(w, NamesOf(source))
  {
    hide CompileTools, CompileContents, NamesOfTools, NamesOfContents, RenameAll, CompiledBody;
    BodyItems(source, w, pointer);
    ToolsNames(Elements(source, Tools), w, pointer);
    ContentsNames(Elements(source, Contents), w);
    RenameAppend(w, NamesOfTools(Elements(source, Tools)), NamesOfContents(Elements(source, Contents)));
  }

  /**
   * Every declaration, call and response name of a compiled body is in Google's grammar and
   * restores to the name at the same place of the source; equal names stay equal and distinct
   * names stay distinct.
   */
  lemma NamesRestore(digest: Str -> Str, source: Object, toWire: Names, fromWire: Names, pointer: Str -> Option<Name>, i: nat, j: nat)
    requires IsCodec(digest, NamesOf(source), toWire, fromWire)
    ensures var sent, names := NamesOf(CompiledBody(source, toWire, pointer)), NamesOf(source);
      && |sent| == |names|
      && (i < |sent| ==> ValidName(sent[i]) && Rename(fromWire, sent[i]) == names[i])
      && (i < |sent| && j < |sent| ==> (sent[i] == sent[j] <==> names[i] == names[j]))
  {
    hide NamesOf, CompiledBody, IsCodec, Rename, ValidName;
    NamesAreRenamed(source, toWire, pointer);
    var names := NamesOf(source);
    if i < |names| { CodecIsInjective(digest, names, toWire, fromWire, names[i], names[i]); }
    if i < |names| && j < |names| { CodecIsInjective(digest, names, toWire, fromWire, names[i], names[j]); }
  }

  // ---------------------------------------------------------------------------
  // Compiling twice
  // ---------------------------------------------------------------------------

  /** A renaming that changes no name. */
  predicate Still(w: Names) {
    forall n :: n in w ==> w[n] == n
  }

  lemma RenameUnderStays(o: Object, k: Name, w: Names)
    requires Still(w)
    ensures RenameUnder(o, k, w) == o
  {
    var call := GetObject(o, k);
    if call.Some? && GetText(call.value, ToolName).Some? {
      assert call.value[ToolName := Text(Rename(w, call.value[ToolName].s))] == call.value;
    }
  }

  lemma {:induction false} PartsStay(parts: seq<Json>, w: Names, w2: Names)
    requires Still(w2)
    ensures CompileParts(CompileParts(parts, w), w2) == CompileParts(parts, w)
  {
    hide RenameUnder;
    if parts != [] {
      PartsStay(parts[1..], w, w2);
      var once := CompileParts(parts, w);
      assert once[1..] == CompileParts(parts[1..], w);
      RenameUnderStays(once[0].fields, FunctionCall, w2);
      RenameUnderStays(once[0].fields, FunctionResponse, w2);
    }
  }

  lemma ContentStays(content: Json, w: Names, w2: Names)
    requires Still(w2)
    ensures CompileContent(CompileContent(content, w), w2) == CompileContent(content, w)
  {
    hide CompileParts;
    if content.Obj? && GetArray(content.fields, Parts).Some? {
      PartsStay(content.fields[Parts].items, w, w2);
    }
  }

  lemma {:induction false} ContentsStay(contents: seq<Json>, w: Names, w2: Names)
    requires Still(w2)
    ensures CompileContents(CompileContents(contents, w), w2) == CompileContents(contents, w)
  {
    hide CompileContent, Still;
    if contents != [] {
      ContentsStay(contents[1..], w, w2);
      ContentStays(contents[0], w, w2);
      assert CompileContents(contents, w)[1..] == CompileContents(contents[1..], w);
    }
  }

  lemma DeclarationStays(j: Json, w: Names, w2: Names, pointer: Str -> Option<Name>)
    requires Still(w2) && j.Obj? && GetText(j.fields, ToolName).Some?
    ensures var d := CompileDeclaration(j, w, pointer);
      |d| == 1 && CompileDeclaration(d[0], w2, pointer) == d
  {
    hide S.SanitizeParameters, Rename;
    var d := CompileDeclaration(j, w, pointer)[0].fields;
    forall k | k in DECLARATION_KEYS ensures Get(d, k) == DeclarationField(j.fields, k, w, pointer) {}
    assert Get(d, ToolName) == DeclarationField(j.fields, ToolName, w, pointer);
    StillMeans(w2, d[ToolName].s);
    P.SanitizeIsIdempotent(if Parameters in j.fields then j.fields[Parameters] else Null, pointer);
    assert Get(d, Parameters) == DeclarationField(j.fields, Parameters, w, pointer);
    assert Get(d, Description) == DeclarationField(j.fields, Description, w, pointer);
    forall k | k in DECLARATION_KEYS ensures DeclarationField(d, k, w2, pointer) == Get(d, k) {}
    assert CompileDeclaration(Obj(d), w2, pointer)[0].fields == d;
  }

  lemma StillMeans(w: Names, n: Str)
    requires Still(w)
    ensures Rename(w, n) == n
  {
  }

  lemma {:induction false} CompileAppend(a: seq<Json>, b: seq<Json>, w: Names, pointer: Str -> Option<Name>)
    ensures CompileDeclarations(a + b, w, pointer) == CompileDeclarations(a, w, pointer) + CompileDeclarations(b, w, pointer)
  {
    hide CompileDeclaration;
    if a == [] {
      assert a + b == b;
    } else {
      assert (a + b)[1..] == a[1..] + b;
      CompileAppend(a[1..], b, w, pointer);
    }
  }

  lemma {:induction false} DeclarationsStay(ds: seq<Json>, w: Names, w2: Names, pointer: Str -> Option<Name>)
    requires Still(w2)
    ensures var once := CompileDeclarations(ds, w, pointer); CompileDeclarations(once, w2, pointer) == once
  {
    hide CompileDeclaration, Still;
    if ds != [] {
      DeclarationsStay(ds[1..], w, w2, pointer);
      var first := CompileDeclaration(ds[0], w, pointer);
      CompileAppend(first, CompileDeclarations(ds[1..], w, pointer), w2, pointer);
      FirstStays(ds[0], w, w2, pointer);
    }
  }

  lemma FirstStays(j: Json, w: Names, w2: Names, pointer: Str -> Option<Name>)
    requires Still(w2)
    ensures var first := CompileDeclaration(j, w, pointer); CompileDeclarations(first, w2, pointer) == first
  {
    if j.Obj? && GetText(j.fields, ToolName).Some? {
      DeclarationStays(j, w, w2, pointer);
      hide CompileDeclaration;
      var first := CompileDeclaration(j, w, pointer);
      assert first[1..] == [];
    }
  }

  lemma {:induction false} CompileToolsAppend(a: seq<Json>, b: seq<Json>, w: Names, pointer: Str -> Option<Name>)
    ensures CompileTools(a + b, w, pointer) == CompileTools(a, w, pointer) + CompileTools(b, w, pointer)
  {
    hide CompileTool;
    if a == [] {
      assert a + b == b;
    } else {
      assert (a + b)[1..] == a[1..] + b;
      CompileToolsAppend(a[1..], b, w, pointer);
    }
  }

  lemma ToolStays(tool: Json, w: Names, w2: Names, pointer: Str -> Option<Name>)
    requires Still(w2)
    ensures var once := CompileTool(tool, w, pointer); CompileTools(once, w2, pointer) == once
  {
    hide CompileDeclarations, Still;
    if tool.Obj? && GetArray(tool.fields, FunctionDeclarations).Some? {
      DeclarationsStay(tool.fields[FunctionDeclarations].items, w, w2, pointer);
      assert |CompileTool(tool, w, pointer)| == 1 ==> CompileTool(tool, w, pointer)[1..] == [];
    }
  }

  lemma {:induction false} ToolsStay(tools: seq<Json>, w: Names, w2: Names, pointer: Str -> Option<Name>)
    requires Still(w2)
    ensures var once := CompileTools(tools, w, pointer); CompileTools(once, w2, pointer) == once
  {
    hide CompileTool, Still;
    if tools != [] {
      ToolsStay(tools[1..], w, w2, pointer);
      ToolStays(tools[0], w, w2, pointer);
      CompileToolsAppend(CompileTool(tools[0], w, pointer), CompileTools(tools[1..], w, pointer), w2, pointer);
    }
  }

  // ---------------------------------------------------------------------------
  // Configuration, twice
  // ---------------------------------------------------------------------------

  lemma {:induction false} KeepAll(items: seq<Json>, p: Json -> bool)
    requires forall i :: 0 <= i < |items| ==> p(items[i])
    ensures Keep(items, p) == items
  {
    if items != [] { KeepAll(items[1..], p); }
  }

  lemma StopsStay(items: seq<Json>)
    ensures StopTexts(StopTexts(items)) == StopTexts(items)
  {
    var unique, stops := UniqueTexts(Keep(items, IsStop)), StopTexts(items);
    forall i | 0 <= i < |stops| ensures IsStop(stops[i]) {
      assert unique[i] in Keep(items, IsStop);
    }
    KeepAll(stops, IsStop);
    assert DistinctTexts(stops);
    DistinctStay(stops);
  }

  lemma LevelStays(raw: Str)
    requires Level(raw).Some?
    ensures Level(Lower(Level(raw).value)) == Level(raw)
  {
    assert Lower(MINIMAL) == MINIMAL && Lower(LOW) == LOW && Lower(MEDIUM) == MEDIUM && Lower(HIGH) == HIGH;
  }

  lemma FloorStays(r: real)
    requires r > 0.0
    ensures var f := r.Floor as real; f.Floor as real == f && (f > 0.0 <==> r >= 1.0)
  {
  }

  /** A positive token cap below one, which is floored to zero. */
  predicate FractionalCap(o: Object) {
    FiniteNumber(o, MaxOutputTokens).Some? && 0.0 < FiniteNumber(o, MaxOutputTokens).value < 1.0
  }

  /** Compiling a compiled setting changes it only when it is such a cap. */
  lemma ConfigFieldStays(o: Object, k: Name, c: Object)
    requires k in CONFIG_KEYS && Get(c, k) == ConfigField(o, k)
    ensures ConfigField(c, k) == Get(c, k) <==> !(k == MaxOutputTokens && FractionalCap(o))
  {
    hide StopTexts, Keep, Level;
    match k {
      case MaxOutputTokens => CapStays(o, c);
      case Temperature =>
      case TopP =>
      case StopSequences => StopsStay(Elements(o, StopSequences));
      case ThinkingConfig => ThinkingStays(o, c);
      case ResponseModalities => KeepAll(Keep(Elements(o, ResponseModalities), IsModality), IsModality);
    }
  }

  lemma CapStays(o: Object, c: Object)
    requires Get(c, MaxOutputTokens) == ConfigField(o, MaxOutputTokens)
    ensures ConfigField(c, MaxOutputTokens) == Get(c, MaxOutputTokens) <==> !FractionalCap(o)
  {
    var n := FiniteNumber(o, MaxOutputTokens);
    if n.Some? && n.value > 0.0 { FloorStays(n.value); }
  }

  lemma ThinkingStays(o: Object, c: Object)
    requires Get(c, ThinkingConfig) == ConfigField(o, ThinkingConfig)
    ensures ConfigField(c, ThinkingConfig) == Get(c, ThinkingConfig)
  {
    hide Level;
    if ConfigField(o, ThinkingConfig).Some? {
      LevelStays(Lower(o[ThinkingConfig].fields[ThinkingLevel].s));
    }
  }

  lemma ConfigGet(o: Object)
    ensures ConfigFields(o).Keys <= CONFIG_KEYS && forall k :: k in CONFIG_KEYS ==> Get(ConfigFields(o), k) == ConfigField(o, k)
  {
    hide ConfigField;
  }

  lemma SameFields(keys: set<Name>, a: Object, b: Object)
    requires a.Keys <= keys && b.Keys <= keys
    requires forall k :: k in keys ==> Get(a, k) == Get(b, k)
    ensures a == b
  {
  }

  /** The fields of a configuration survive a second pass exactly when the cap is not fractional. */
  lemma FieldsStay(o: Object)
    ensures ConfigFields(ConfigFields(o)) == ConfigFields(o) <==> !FractionalCap(o)
  {
    hide ConfigField, FractionalCap, ConfigFields, Get;
    var c := ConfigFields(o);
    ConfigGet(o);
    ConfigGet(c);
    forall k | k in CONFIG_KEYS
      ensures Get(ConfigFields(c), k) == Get(c, k) <==> !(k == MaxOutputTokens && FractionalCap(o))
    {
      ConfigFieldStays(o, k, c);
    }
    assert MaxOutputTokens in CONFIG_KEYS;
    if !FractionalCap(o) { SameFields(CONFIG_KEYS, ConfigFields(c), c); }
  }

  /** The settings of a configuration survive a second pass exactly when the cap is not fractional. */
  lemma ConfigStays(v: Option<Json>)
    ensures var once := CompileGenerationConfig(v);
      CompileGenerationConfig(once) == once <==> !(v.Some? && v.value.Obj? && FractionalCap(v.value.fields))
  {
    hide ConfigField, FractionalCap, ConfigFields, Get;
    if v.Some? && v.value.Obj? {
      var o := v.value.fields;
      FieldsStay(o);
      if FractionalCap(o) {
        FractionalIsKept(o);
        ConfigGet(o);
        assert Get(ConfigFields(o), MaxOutputTokens).Some? by { assert MaxOutputTokens in CONFIG_KEYS; }
      }
    }
  }

  lemma FractionalIsKept(o: Object)
    requires FractionalCap(o)
    ensures ConfigField(o, MaxOutputTokens).Some?
  {
  }

  lemma {:induction false} RenameTextsStay(items: seq<Json>, w: Names, w2: Names)
    requires Still(w2)
    ensures RenameTexts(RenameTexts(items, w), w2) == RenameTexts(items, w)
  {
    hide Rename;
    if items != [] {
      RenameTextsStay(items[1..], w, w2);
      var once := RenameTexts(items, w);
      if items[0].Text? {
        assert once[1..] == RenameTexts(items[1..], w);
        StillMeans(w2, once[0].s);
      } else {
        assert once == RenameTexts(items[1..], w);
      }
    }
  }

  lemma ModeStays(s: Str)
    requires IsMode(Upper(s))
    ensures Upper(Upper(s)) == Upper(s)
  {
  }

  lemma CallingFieldStays(o: Object, k: Name, w: Names, c: Object, w2: Names)
    requires Still(w2) && k in CALLING_KEYS && Get(c, k) == CallingField(o, k, w)
    ensures CallingField(c, k, w2) == Get(c, k)
  {
    hide RenameTexts, IsMode, Still, Upper;
    match k {
      case Mode => if CallingField(o, Mode, w).Some? { ModeStays(o[Mode].s); }
      case AllowedFunctionNames => RenameTextsStay(Elements(o, AllowedFunctionNames), w, w2);
    }
  }

  lemma ToolConfigStays(v: Option<Json>, w: Names, w2: Names)
    requires Still(w2)
    ensures CompileToolConfig(CompileToolConfig(v, w), w2) == CompileToolConfig(v, w)
  {
    hide CallingField, Still;
    if CompileToolConfig(v, w).Some? {
      var o := v.value.fields[FunctionCallingConfig].fields;
      var c := CallingFields(o, w);
      forall k | k in CALLING_KEYS ensures Get(c, k) == CallingField(o, k, w) && CallingField(c, k, w2) == Get(c, k) {
        CallingFieldStays(o, k, w, c, w2);
      }
      assert CallingFields(c, w2) == c;
    }
  }

  // ---------------------------------------------------------------------------
  // The whole body, twice
  // ---------------------------------------------------------------------------

  /** The source's token cap is positive and below one. */
  predicate FractionalBody(source: Object) {
    GetObject(source, GenerationConfig).Some? && FractionalCap(source[GenerationConfig].fields)
  }

  lemma BodyFieldStays(source: Object, k: Name, body: Object, w: Names, w2: Names, pointer: Str -> Option<Name>)
    requires Still(w2) && k in BODY_KEYS && Get(body, k) == BodyField(source, k, w, pointer)
    ensures BodyField(body, k, w2, pointer) == Get(body, k) <==> !(k == GenerationConfig && FractionalBody(source))
  {
    hide CompileContents, CompileTools, CompileGenerationConfig, CompileToolConfig, Still, FractionalCap;
    match k {
      case Contents => ContentsStay(Elements(source, Contents), w, w2);
      case SystemInstruction =>
      case Tools => ToolsStay(Elements(source, Tools), w, w2, pointer);
      case GenerationConfig => ConfigStays(Get(source, GenerationConfig));
      case ToolConfig => ToolConfigStays(Get(source, ToolConfig), w, w2);
      case SessionId =>
    }
  }

  lemma BodyGet(source: Object, w: Names, pointer: Str -> Option<Name>)
    ensures var body := CompiledBody(source, w, pointer);
      body.Keys <= BODY_KEYS && forall k :: k in BODY_KEYS ==> Get(body, k) == BodyField(source, k, w, pointer)
  {
    hide BodyField;
  }

  lemma BodyStays(source: Object, w: Names, w2: Names, pointer: Str -> Option<Name>)
    requires Still(w2)
    ensures var once := CompiledBody(source, w, pointer);
      CompiledBody(once, w2, pointer) == once <==> !FractionalBody(source)
  {
    hide BodyField, FractionalBody, Still, CompiledBody, Get;
    var body := CompiledBody(source, w, pointer);
    var again := CompiledBody(body, w2, pointer);
    BodyGet(source, w, pointer);
    BodyGet(body, w2, pointer);
    forall k | k in BODY_KEYS
      ensures Get(again, k) == Get(body, k) <==> !(k == GenerationConfig && FractionalBody(source))
    {
      BodyFieldStays(source, k, body, w, w2, pointer);
    }
    if FractionalBody(source) {
      assert GenerationConfig in BODY_KEYS;
    } else {
      SameFields(BODY_KEYS, again, body);
    }
  }

  /**
   * Compiling a compiled body, with a codec of its own, gives the same body exactly when the
   * source's token cap was not a fraction below one.
   */
  lemma CompileTwice(digest: Str -> Str, source: Object, w: Names, from: Names, w2: Names, from2: Names, pointer: Str -> Option<Name>)
    requires IsCodec(digest, NamesOf(source), w, from)
    requires var once := CompiledBody(source, w, pointer);
      IsCodec(digest, NamesOf(once), w2, from2) && KeepsLegal(NamesOf(once), w2)
    ensures var once := CompiledBody(source, w, pointer);
      CompiledBody(once, w2, pointer) == once <==> !FractionalBody(source)
  {
    hide IsCodec, CompiledBody, NamesOf, FractionalBody, ValidName, Rename;
    var once := CompiledBody(source, w, pointer);
    forall i | 0 <= i < |NamesOf(once)| ensures ValidName(NamesOf(once)[i]) {
      NamesRestore(digest, source, w, from, pointer, i, i);
    }
    assert Still(w2);
    BodyStays(source, w, w2, pointer);
  }
}
