/**
 * The request compiler (src/adapters/google-wire-compiler.ts): a convenient Gemini-shaped body
 * becomes the body that is sent, with every tool name put through the codec.
 */
module GoogleCompile {
  import opened Prelude
  import opened GoogleJson
  import opened GoogleCodec
  import S = GoogleSchema

  type Names = map<Str, Str>

  // ---------------------------------------------------------------------------
  // The tool names of a body
  // ---------------------------------------------------------------------------

  /** The name of the object under a key, as a list of at most one. */
  function NameUnder(o: Object, k: Name): seq<Str> {
    var call := GetObject(o, k);
    if call.Some? && GetText(call.value, ToolName).Some? then [GetText(call.value, ToolName).value] else []
  }

  function DeclaredName(j: Json): seq<Str> {
    if j.Obj? && GetText(j.fields, ToolName).Some? then [GetText(j.fields, ToolName).value] else []
  }

  function DeclaredNames(declarations: seq<Json>): seq<Str> {
    if declarations == [] then [] else DeclaredName(declarations[0]) + DeclaredNames(declarations[1..])
  }

  function NamesOfTool(tool: Json): seq<Str> {
    if tool.Obj? && GetArray(tool.fields, FunctionDeclarations).Some?
    then DeclaredNames(tool.fields[FunctionDeclarations].items) else []
  }

  function NamesOfTools(tools: seq<Json>): seq<Str> {
    if tools == [] then [] else NamesOfTool(tools[0]) + NamesOfTools(tools[1..])
  }

  function NamesOfPart(part: Json): seq<Str> {
    if part.Obj? then NameUnder(part.fields, FunctionCall) + NameUnder(part.fields, FunctionResponse) else []
  }

  function NamesOfParts(parts: seq<Json>): seq<Str> {
    if parts == [] then [] else NamesOfPart(parts[0]) + NamesOfParts(parts[1..])
  }

  function NamesOfContent(content: Json): seq<Str> {
    if content.Obj? && GetArray(content.fields, Parts).Some? then NamesOfParts(content.fields[Parts].items) else []
  }

  function NamesOfContents(contents: seq<Json>): seq<Str> {
    if contents == [] then [] else NamesOfContent(contents[0]) + NamesOfContents(contents[1..])
  }

  function Elements(o: Object, k: Name): seq<Json> {
    if GetArray(o, k).Some? then o[k].items else []
  }

  /** Declarations first, then calls and responses in order of appearance. */
  function NamesOf(body: Object): seq<Str> {
    NamesOfTools(Elements(body, Tools)) + NamesOfContents(Elements(body, Contents))
  }

  // ---------------------------------------------------------------------------
  // Contents and tools
  // ---------------------------------------------------------------------------

  function RenameUnder(o: Object, k: Name, w: Names): Object {
    var call := GetObject(o, k);
    if call.Some? && GetText(call.value, ToolName).Some?
    then o[k := Obj(call.value[ToolName := Text(Rename(w, call.value[ToolName].s))])] else o
  }

  function CompilePart(part: Json, w: Names): Json {
    if part.Obj? then Obj(RenameUnder(RenameUnder(part.fields, FunctionCall, w), FunctionResponse, w)) else Obj(map[])
  }

  function CompileParts(parts: seq<Json>, w: Names): seq<Json> {
    if parts == [] then [] else [CompilePart(parts[0], w)] + CompileParts(parts[1..], w)
  }

  function CompileContent(content: Json, w: Names): Json {
    if !content.Obj? then Obj(map[])
    else if GetArray(content.fields, Parts).None? then content
    else Obj(content.fields[Parts := Arr(CompileParts(content.fields[Parts].items, w))])
  }

  function CompileContents(contents: seq<Json>, w: Names): seq<Json> {
    if contents == [] then [] else [CompileContent(contents[0], w)] + CompileContents(contents[1..], w)
  }

  const DECLARATION_KEYS: set<Name> := {ToolName, Description, Parameters}

  function DeclarationField(d: Object, k: Name, w: Names, pointer: Str -> Option<Name>): Option<Json>
    requires GetText(d, ToolName).Some?
  {
    match k
    case ToolName => Some(Text(Rename(w, d[ToolName].s)))
    case Description => S.TextOnly(Get(d, Description))
    case Parameters => Some(Obj(S.SanitizeParameters(if Parameters in d then d[Parameters] else Null, pointer)))
    case _ => None
  }

  /** A named declaration, with its parameters sanitized; anything else is dropped. */
  function CompileDeclaration(j: Json, w: Names, pointer: Str -> Option<Name>): seq<Json> {
    if j.Obj? && GetText(j.fields, ToolName).Some? then
      [Obj(map k | k in DECLARATION_KEYS && DeclarationField(j.fields, k, w, pointer).Some?
             :: DeclarationField(j.fields, k, w, pointer).value)]
    else []
  }

  function CompileDeclarations(ds: seq<Json>, w: Names, pointer: Str -> Option<Name>): seq<Json> {
    if ds == [] then [] else CompileDeclaration(ds[0], w, pointer) + CompileDeclarations(ds[1..], w, pointer)
  }

  function CompileTool(tool: Json, w: Names, pointer: Str -> Option<Name>): seq<Json> {
    if !tool.Obj? || GetArray(tool.fields, FunctionDeclarations).None? then []
    else
      var ds := CompileDeclarations(tool.fields[FunctionDeclarations].items, w, pointer);
      if ds != [] then [Obj(map[FunctionDeclarations := Arr(ds)])] else []
  }

  function CompileTools(tools: seq<Json>, w: Names, pointer: Str -> Option<Name>): seq<Json> {
    if tools == [] then [] else CompileTool(tools[0], w, pointer) + CompileTools(tools[1..], w, pointer)
  }

  // ---------------------------------------------------------------------------
  // Configuration
  // ---------------------------------------------------------------------------

  /** The elements a test accepts, in order. */
  function Keep(items: seq<Json>, p: Json -> bool): (r: seq<Json>)
    ensures forall i :: 0 <= i < |r| ==> p(r[i]) && r[i] in items
  {
    if items == [] then [] else (if p(items[0]) then [items[0]] else []) + Keep(items[1..], p)
  }

  function FiniteNumber(o: Object, k: Name): Option<real> {
    if k in o && o[k].Num? then Some(o[k].r) else None
  }

  function Min(a: real, b: real): real {
    if a <= b then a else b
  }

  const STOP_LIMIT: nat := 5

  predicate IsStop(j: Json) {
    j.Text? && j.s != []
  }

  function StopTexts(items: seq<Json>): seq<Json> {
    var unique := UniqueTexts(Keep(items, IsStop));
    if |unique| <= STOP_LIMIT then unique else unique[..STOP_LIMIT]
  }

  const MINIMAL: Str := [109, 105, 110, 105, 109, 97, 108]
  const LOW: Str := [108, 111, 119]
  const MEDIUM: Str := [109, 101, 100, 105, 117, 109]
  const HIGH: Str := [104, 105, 103, 104]
  const XHIGH: Str := [120, 104, 105, 103, 104]
  const MAX: Str := [109, 97, 120]
  const ULTRA: Str := [117, 108, 116, 114, 97]

  /** Google's four thinking levels; the three levels above them count as `high`. */
  function Level(raw: Str): Option<Str> {
    if raw == MINIMAL || raw == LOW || raw == MEDIUM || raw == HIGH then Some(raw)
    else if raw == XHIGH || raw == MAX || raw == ULTRA then Some(HIGH)
    else None
  }

  const TEXT_MODALITY: Str := [84, 69, 88, 84]
  const IMAGE_MODALITY: Str := [73, 77, 65, 71, 69]
  const AUDIO_MODALITY: Str := [65, 85, 68, 73, 79]

  predicate IsModality(j: Json) {
    j.Text? && (j.s == TEXT_MODALITY || j.s == IMAGE_MODALITY || j.s == AUDIO_MODALITY)
  }

  function NonEmptyArray(items: seq<Json>): Option<Json> {
    if items != [] then Some(Arr(items)) else None
  }

  const CONFIG_KEYS: set<Name> := {MaxOutputTokens, Temperature, TopP, StopSequences, ThinkingConfig, ResponseModalities}

  function ConfigField(o: Object, k: Name): Option<Json> {
    match k
    case MaxOutputTokens =>
      var n := FiniteNumber(o, MaxOutputTokens);
      if n.Some? && n.value > 0.0 then Some(Num(n.value.Floor as real)) else None
    case Temperature =>
      var n := FiniteNumber(o, Temperature);
      if n.Some? && n.value >= 0.0 then Some(Num(Min(2.0, n.value))) else None
    case TopP =>
      var n := FiniteNumber(o, TopP);
      if n.Some? && n.value >= 0.0 then Some(Num(Min(1.0, n.value))) else None
    case StopSequences => NonEmptyArray(StopTexts(Elements(o, StopSequences)))
    case ThinkingConfig =>
      var c := GetObject(o, ThinkingConfig);
      if c.Some? && GetText(c.value, ThinkingLevel).Some? && Level(Lower(c.value[ThinkingLevel].s)).Some?
      then Some(Obj(map[ThinkingLevel := Text(Level(Lower(c.value[ThinkingLevel].s)).value)])) else None
    case ResponseModalities => NonEmptyArray(Keep(Elements(o, ResponseModalities), IsModality))
    case _ => None
  }

  /** An object, unless it would be empty. */
  function NonEmptyObject(o: Object): Option<Json> {
    if o != map[] then Some(Obj(o)) else None
  }

  function ConfigFields(o: Object): Object {
    map k | k in CONFIG_KEYS && ConfigField(o, k).Some? :: ConfigField(o, k).value
  }

  function CompileGenerationConfig(v: Option<Json>): Option<Json> {
    if v.Some? && v.value.Obj? then NonEmptyObject(ConfigFields(v.value.fields)) else None
  }

  /** Upper case as far as it can matter for ASCII words: dotless i and long s have ASCII capitals. */
  function UpperUnit(c: CodeUnit): CodeUnit {
    if 97 <= c <= 122 then c - 32 else if c == 0x131 then 73 else if c == 0x17F then 83 else c
  }

  function Upper(s: Str): (r: Str)
    ensures |r| == |s| && forall i :: 0 <= i < |s| ==> r[i] == UpperUnit(s[i])
  {
    seq(|s|, i requires 0 <= i < |s| => UpperUnit(s[i]))
  }

  const AUTO_MODE: Str := [65, 85, 84, 79]
  const ANY_MODE: Str := [65, 78, 89]
  const NONE_MODE: Str := [78, 79, 78, 69]
  const VALIDATED_MODE: Str := [86, 65, 76, 73, 68, 65, 84, 69, 68]

  predicate IsMode(s: Str) {
    s == AUTO_MODE || s == ANY_MODE || s == NONE_MODE || s == VALIDATED_MODE
  }

  function RenameTexts(items: seq<Json>, w: Names): seq<Json> {
    if items == [] then []
    else (if items[0].Text? then [Text(Rename(w, items[0].s))] else []) + RenameTexts(items[1..], w)
  }

  const CALLING_KEYS: set<Name> := {Mode, AllowedFunctionNames}

  function CallingField(o: Object, k: Name, w: Names): Option<Json> {
    match k
    case Mode =>
      if GetText(o, Mode).Some? && IsMode(Upper(o[Mode].s)) then Some(Text(Upper(o[Mode].s))) else None
    case AllowedFunctionNames => NonEmptyArray(RenameTexts(Elements(o, AllowedFunctionNames), w))
    case _ => None
  }

  function CallingFields(o: Object, w: Names): Object {
    map k | k in CALLING_KEYS && CallingField(o, k, w).Some? :: CallingField(o, k, w).value
  }

  function CompileToolConfig(v: Option<Json>, w: Names): Option<Json> {
    if v.Some? && v.value.Obj? && GetObject(v.value.fields, FunctionCallingConfig).Some? then
      var inner := NonEmptyObject(CallingFields(v.value.fields[FunctionCallingConfig].fields, w));
      if inner.Some? then Some(Obj(map[FunctionCallingConfig := inner.value])) else None
    else None
  }

  // ---------------------------------------------------------------------------
  // The whole body
  // ---------------------------------------------------------------------------

  const BODY_KEYS: set<Name> := {Contents, SystemInstruction, Tools, GenerationConfig, ToolConfig, SessionId}

  function BodyField(source: Object, k: Name, w: Names, pointer: Str -> Option<Name>): Option<Json> {
    match k
    case Contents =>
      if GetArray(source, Contents).Some? then Some(Arr(CompileContents(source[Contents].items, w))) else None
    case SystemInstruction => if GetObject(source, SystemInstruction).Some? then Some(source[SystemInstruction]) else None
    case Tools => NonEmptyArray(CompileTools(Elements(source, Tools), w, pointer))
    case GenerationConfig => CompileGenerationConfig(Get(source, GenerationConfig))
    case ToolConfig => CompileToolConfig(Get(source, ToolConfig), w)
    case SessionId => if GetText(source, SessionId).Some? && source[SessionId].s != [] then Some(source[SessionId]) else None
    case _ => None
  }

  function CompiledBody(source: Object, w: Names, pointer: Str -> Option<Name>): Object {
    map k | k in BODY_KEYS && BodyField(source, k, w, pointer).Some? :: BodyField(source, k, w, pointer).value
  }

  function SourceOf(input: Json): Object {
    if input.Obj? then input.fields else map[]
  }

  method CompileGoogleWireBody(digest: Str -> Str, pointer: Str -> Option<Name>, input: Json)
    returns (body: Object, toWire: Names, fromWire: Names)
    requires HexDigest(digest) && Spreads(digest, |NamesOf(SourceOf(input))|)
    ensures IsCodec(digest, NamesOf(SourceOf(input)), toWire, fromWire)
    ensures KeepsLegal(NamesOf(SourceOf(input)), toWire)
    ensures body == CompiledBody(SourceOf(input), toWire, pointer)
  {
    var names := CollectToolNames(SourceOf(input));
    toWire, fromWire := ToolNameCodec(digest, names);
    body := CompiledBody(SourceOf(input), toWire, pointer);
  }

  method CollectToolNames(body: Object) returns (names: seq<Str>)
    ensures names == NamesOf(body)
  {
    hide NamesOfTools, NamesOfContents;
    var declared := CollectDeclared(Elements(body, Tools));
    var used := CollectUsed(Elements(body, Contents));
    names := declared + used;
  }

  method CollectDeclared(tools: seq<Json>) returns (names: seq<Str>)
    ensures names == NamesOfTools(tools)
  {
    hide NamesOfTool;
    names := [];
    var i := 0;
    while i < |tools|
      invariant 0 <= i <= |tools|
      invariant names + NamesOfTools(tools[i..]) == NamesOfTools(tools)
    {
      assert tools[i..][1..] == tools[i + 1..];
      assert NamesOfTools(tools[i..]) == NamesOfTool(tools[i]) + NamesOfTools(tools[i + 1..]);
      names := names + NamesOfTool(tools[i]);
      i := i + 1;
    }
  }

  method CollectUsed(contents: seq<Json>) returns (names: seq<Str>)
    ensures names == NamesOfContents(contents)
  {
    hide NamesOfContent;
    names := [];
    var i := 0;
    while i < |contents|
      invariant 0 <= i <= |contents|
      invariant names + NamesOfContents(contents[i..]) == NamesOfContents(contents)
    {
      assert contents[i..][1..] == contents[i + 1..];
      assert NamesOfContents(contents[i..]) == NamesOfContent(contents[i]) + NamesOfContents(contents[i + 1..]);
      names := names + NamesOfContent(contents[i]);
      i := i + 1;
    }
  }
}
