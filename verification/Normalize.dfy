/** Request normalisation (internal/normalize/gemini/normalize.go). Each pass is a loop that
    edits the tree, proved equal to a function on the member it edits. */
module Normalize {
  import opened Prelude
  import opened Json

  datatype SafetySetting = SafetySetting(category: string, threshold: string)

  datatype Options = Options(safetyMode: string, safetySettings: seq<SafetySetting>)

  const DEFAULT_SAFETY := [
    SafetySetting("HARM_CATEGORY_HARASSMENT", "OFF"),
    SafetySetting("HARM_CATEGORY_HATE_SPEECH", "OFF"),
    SafetySetting("HARM_CATEGORY_SEXUALLY_EXPLICIT", "OFF"),
    SafetySetting("HARM_CATEGORY_DANGEROUS_CONTENT", "OFF"),
    SafetySetting("HARM_CATEGORY_CIVIC_INTEGRITY", "BLOCK_NONE")]

  const SKIP_SIGNATURE := "skip_thought_signature_validator"

  function Mapped<T, U>(items: seq<T>, f: T -> U): (r: seq<U>)
    ensures |r| == |items|
  {
    if items == [] then [] else Mapped(items[..|items| - 1], f) + [f(items[|items| - 1])]
  }

  lemma {:induction false} MappedAt<T, U>(items: seq<T>, f: T -> U, i: nat)
    requires i < |items|
    ensures Mapped(items, f)[i] == f(items[i])
  {
    if i < |items| - 1 {
      MappedAt(items[..|items| - 1], f, i);
    }
  }

  lemma MappedNext<T, U>(items: seq<T>, f: T -> U, i: nat)
    requires i < |items|
    ensures Mapped(items[..i + 1], f) == Mapped(items[..i], f) + [f(items[i])]
  {
    assert items[..i + 1][..i] == items[..i];
  }

  /** Edits a member where it exists. */
  function Update(j: Json, key: string, f: Json -> Json): Json {
    match Get(j, key)
    case None => j
    case Some(v) => With(j, key, f(v))
  }

  /** The text of a member; "" where there is none. */
  function TextOf(j: Json, key: string): string {
    match Get(j, key)
    case None => ""
    case Some(v) => AsText(v)
  }

  /** The trimmed name inside a member, as of a call or a response. */
  function NameIn(part: Json, member: string): string {
    match Get(part, member)
    case None => ""
    case Some(v) => TrimSpace(TextOf(v, "name"))
  }

  // ---- Tools ----

  function DeclFixed(decl: Json): Json {
    Rename(decl, "parameters", "parametersJsonSchema")
  }

  function DeclsFixed(v: Json): Json {
    if v.Arr? then Arr(Mapped(v.items, DeclFixed)) else v
  }

  function ToolFixed(tool: Json): Json {
    Update(Rename(tool, "functionDeclarations", "function_declarations"), "function_declarations", DeclsFixed)
  }

  function ToolsFixed(v: Json): Json {
    if v.Arr? then Arr(Mapped(v.items, ToolFixed)) else v
  }

  /** Replaces one element of an array member. */
  function SetItem(j: Json, key: string, i: nat, v: Json): Json
    requires Get(j, key).Some? && Get(j, key).value.Arr? && i < |Get(j, key).value.items|
  {
    With(j, key, Arr(Get(j, key).value.items[i := v]))
  }

  /** An array member whose first `n` elements have been replaced by `done`. */
  predicate Partly(out: Json, raw: Json, key: string, done: seq<Json>, items: seq<Json>) {
    && Get(raw, key) == Some(Arr(items)) && |done| <= |items|
    && out == With(raw, key, Arr(done + items[|done|..]))
  }

  lemma PartlyNext(out: Json, raw: Json, key: string, done: seq<Json>, items: seq<Json>, v: Json)
    requires Partly(out, raw, key, done, items) && |done| < |items|
    ensures Get(out, key) == Some(Arr(done + items[|done|..]))
    ensures Partly(SetItem(out, key, |done|, v), raw, key, done + [v], items)
    ensures v == items[|done|] ==> SetItem(out, key, |done|, v) == out
  {
    var now := done + items[|done|..];
    WithWith(raw, key, Arr(now), Arr(now[|done| := v]));
    assert now[|done| := v] == done + [v] + items[|done| + 1..];
    WithSame(out, key);
    assert v == items[|done|] ==> now[|done| := v] == now;
  }

  lemma PartlyEnds(out: Json, raw: Json, key: string, done: seq<Json>, items: seq<Json>)
    requires Partly(out, raw, key, done, items) && |done| == |items|
    ensures out == With(raw, key, Arr(done))
  {
    assert done + items[|done|..] == done;
  }

  lemma PartlyStarts(raw: Json, key: string, items: seq<Json>)
    requires Get(raw, key) == Some(Arr(items))
    ensures Partly(raw, raw, key, [], items)
  {
    assert [] + items[0..] == items;
    WithSame(raw, key);
  }

  method NormalizeDeclarations(tool: Json) returns (out: Json)
    ensures out == Update(tool, "function_declarations", DeclsFixed)
  {
    out := tool;
    var decls := Get(tool, "function_declarations");
    if decls.None? || !decls.value.Arr? {
      if decls.Some? {
        WithSame(tool, "function_declarations");
      }
      return;
    }
    var items := decls.value.items;
    PartlyStarts(tool, "function_declarations", items);
    for j := 0 to |items|
      invariant Partly(out, tool, "function_declarations", Mapped(items[..j], DeclFixed), items)
    {
      MappedNext(items, DeclFixed, j);
      var decl := Rename(items[j], "parameters", "parametersJsonSchema");
      PartlyNext(out, tool, "function_declarations", Mapped(items[..j], DeclFixed), items, decl);
      out := SetItem(out, "function_declarations", j, decl);
    }
    assert items[..|items|] == items;
    PartlyEnds(out, tool, "function_declarations", Mapped(items, DeclFixed), items);
  }

  method NormalizeToolDeclarations(raw: Json) returns (out: Json)
    ensures out == Update(raw, "tools", ToolsFixed)
  {
    out := raw;
    var tools := Get(raw, "tools");
    if tools.None? || !tools.value.Arr? {
      if tools.Some? {
        WithSame(raw, "tools");
      }
      return;
    }
    var items := tools.value.items;
    PartlyStarts(raw, "tools", items);
    for i := 0 to |items|
      invariant Partly(out, raw, "tools", Mapped(items[..i], ToolFixed), items)
    {
      MappedNext(items, ToolFixed, i);
      var tool := Rename(items[i], "functionDeclarations", "function_declarations");
      tool := NormalizeDeclarations(tool);
      PartlyNext(out, raw, "tools", Mapped(items[..i], ToolFixed), items, tool);
      out := SetItem(out, "tools", i, tool);
    }
    assert items[..|items|] == items;
    PartlyEnds(out, raw, "tools", Mapped(items, ToolFixed), items);
  }

  // ---- Roles ----

  function RoleText(content: Json): string {
    TextOf(content, "role")
  }

  function RoleOf(content: Json): string {
    TrimSpace(RoleText(content))
  }

  predicate IsRole(role: string) {
    role == "user" || role == "model"
  }

  function NextRole(prev: string): string {
    if prev == "user" then "model" else "user"
  }

  /** The role the pass ends on: the one a later message alternates with. */
  function LastRole(contents: seq<Json>): string {
    if contents == [] then ""
    else
      var role := RoleOf(contents[|contents| - 1]);
      if IsRole(role) then role else NextRole(LastRole(contents[..|contents| - 1]))
  }

  function RolesFixed(contents: seq<Json>): (r: seq<Json>)
    ensures |r| == |contents|
  {
    if contents == [] then []
    else
      var init, last := contents[..|contents| - 1], contents[|contents| - 1];
      RolesFixed(init) + [if IsRole(RoleOf(last)) then last else With(last, "role", Str(NextRole(LastRole(init))))]
  }

  lemma RolesNext(contents: seq<Json>, i: nat)
    requires i < |contents|
    ensures var role := RoleOf(contents[i]);
            var next := NextRole(LastRole(contents[..i]));
            && LastRole(contents[..i + 1]) == (if IsRole(role) then role else next)
            && RolesFixed(contents[..i + 1]) ==
               RolesFixed(contents[..i]) + [if IsRole(role) then contents[i] else With(contents[i], "role", Str(next))]
  {
    assert contents[..i + 1][..i] == contents[..i];
  }

  method NormalizeContentRoles(raw: Json) returns (out: Json)
    requires Get(raw, "contents").Some? && Get(raw, "contents").value.Arr?
    ensures out == With(raw, "contents", Arr(RolesFixed(Get(raw, "contents").value.items)))
  {
    out := raw;
    var items := Get(raw, "contents").value.items;
    var prevRole := "";
    PartlyStarts(raw, "contents", items);
    for idx := 0 to |items|
      invariant Partly(out, raw, "contents", RolesFixed(items[..idx]), items) && prevRole == LastRole(items[..idx])
    {
      RolesNext(items, idx);
      var value := items[idx];
      var role := RoleOf(value);
      PartlyNext(out, raw, "contents", RolesFixed(items[..idx]), items, value);
      if role == "" || !IsRole(role) {
        var newRole := if prevRole == "" then "user" else if prevRole == "user" then "model" else "user";
        PartlyNext(out, raw, "contents", RolesFixed(items[..idx]), items, With(value, "role", Str(newRole)));
        out := SetItem(out, "contents", idx, With(value, "role", Str(newRole)));
        role := newRole;
      }
      prevRole := role;
    }
    assert items[..|items|] == items;
    PartlyEnds(out, raw, "contents", RolesFixed(items), items);
  }

  // ---- Thought signatures ----

  predicate NeedsSignature(part: Json) {
    Get(part, "functionCall").Some? || Get(part, "thoughtSignature").Some?
  }

  function Signed(part: Json): Json {
    if NeedsSignature(part) then With(part, "thoughtSignature", Str(SKIP_SIGNATURE)) else part
  }

  /** The exact text: a padded " model " is accepted as a role but not treated as one here. */
  predicate IsModel(content: Json) {
    RoleText(content) == "model"
  }

  function PartsSigned(v: Json): Json {
    if v.Arr? then Arr(Mapped(v.items, Signed)) else v
  }

  function ContentSigned(content: Json): Json {
    if IsModel(content) then Update(content, "parts", PartsSigned) else content
  }

  method SignParts(content: Json) returns (out: Json)
    ensures out == Update(content, "parts", PartsSigned)
  {
    out := content;
    var parts := Get(content, "parts");
    if parts.None? || !parts.value.Arr? {
      if parts.Some? {
        WithSame(content, "parts");
      }
      return;
    }
    var items := parts.value.items;
    PartlyStarts(content, "parts", items);
    for partIdx := 0 to |items|
      invariant Partly(out, content, "parts", Mapped(items[..partIdx], Signed), items)
    {
      MappedNext(items, Signed, partIdx);
      var part := items[partIdx];
      PartlyNext(out, content, "parts", Mapped(items[..partIdx], Signed), items, Signed(part));
      if Get(part, "functionCall").Some? || Get(part, "thoughtSignature").Some? {
        out := SetItem(out, "parts", partIdx, With(part, "thoughtSignature", Str(SKIP_SIGNATURE)));
      }
    }
    assert items[..|items|] == items;
    PartlyEnds(out, content, "parts", Mapped(items, Signed), items);
  }

  method NormalizeThoughtSignatures(raw: Json) returns (out: Json)
    requires Get(raw, "contents").Some? && Get(raw, "contents").value.Arr?
    ensures out == With(raw, "contents", Arr(Mapped(Get(raw, "contents").value.items, ContentSigned)))
  {
    out := raw;
    var items := Get(raw, "contents").value.items;
    PartlyStarts(raw, "contents", items);
    for contentIdx := 0 to |items|
      invariant Partly(out, raw, "contents", Mapped(items[..contentIdx], ContentSigned), items)
    {
      MappedNext(items, ContentSigned, contentIdx);
      var content := items[contentIdx];
      PartlyNext(out, raw, "contents", Mapped(items[..contentIdx], ContentSigned), items, ContentSigned(content));
      if RoleText(content) != "model" {
        continue;
      }
      var signed := SignParts(content);
      out := SetItem(out, "contents", contentIdx, signed);
    }
    assert items[..|items|] == items;
    PartlyEnds(out, raw, "contents", Mapped(items, ContentSigned), items);
  }

  // ---- Names of function responses ----

  function PartsOf(content: Json): seq<Json> {
    match Get(content, "parts")
    case Some(Arr(items)) => items
    case _ => []
  }

  /** The non-blank names of the calls in a message, in order. */
  function CallNames(parts: seq<Json>): seq<string> {
    if parts == [] then []
    else
      var last := parts[|parts| - 1];
      var name := NameIn(last, "functionCall");
      CallNames(parts[..|parts| - 1]) + if Get(last, "functionCall").Some? && name != "" then [name] else []
  }

  predicate IsResponse(part: Json) {
    Get(part, "functionResponse").Some?
  }

  function ResponseName(part: Json): string {
    NameIn(part, "functionResponse")
  }

  function Responses(parts: seq<Json>): nat {
    if parts == [] then 0
    else Responses(parts[..|parts| - 1]) + if IsResponse(parts[|parts| - 1]) then 1 else 0
  }

  /** `sjson.SetBytes` on "functionResponse.name". */
  function Named(part: Json, name: string): Json
    requires IsResponse(part)
  {
    With(part, "functionResponse", With(Get(part, "functionResponse").value, "name", Str(name)))
  }

  /** The k-th response takes the k-th call's name if its own is blank. */
  function PartFilled(part: Json, k: nat, names: seq<string>): Json {
    if IsResponse(part) && ResponseName(part) == "" && k < |names|
    then Named(part, names[k]) else part
  }

  function Filled(parts: seq<Json>, names: seq<string>): (r: seq<Json>)
    ensures |r| == |parts|
  {
    if parts == [] then []
    else
      var init := parts[..|parts| - 1];
      Filled(init, names) + [PartFilled(parts[|parts| - 1], Responses(init), names)]
  }

  /** The call names a message must answer: those of the model message right before it. */
  function Pending(contents: seq<Json>): seq<string> {
    if contents != [] && IsModel(contents[|contents| - 1]) then CallNames(PartsOf(contents[|contents| - 1])) else []
  }

  function ContentFilled(content: Json, names: seq<string>): Json {
    if IsModel(content) || names == [] then content
    else match Get(content, "parts")
      case Some(Arr(parts)) => With(content, "parts", Arr(Filled(parts, names)))
      case _ => content
  }

  function Backfilled(contents: seq<Json>): (r: seq<Json>)
    ensures |r| == |contents|
  {
    if contents == [] then []
    else
      var init, last := contents[..|contents| - 1], contents[|contents| - 1];
      Backfilled(init) + [ContentFilled(last, Pending(init))]
  }

  lemma FilledNext(parts: seq<Json>, names: seq<string>, i: nat)
    requires i < |parts|
    ensures Responses(parts[..i + 1]) == Responses(parts[..i]) + if IsResponse(parts[i]) then 1 else 0
    ensures Filled(parts[..i + 1], names) ==
            Filled(parts[..i], names) + [PartFilled(parts[i], Responses(parts[..i]), names)]
  {
    assert parts[..i + 1][..i] == parts[..i];
  }

  method CollectCallNames(parts: seq<Json>) returns (names: seq<string>)
    ensures names == CallNames(parts)
  {
    names := [];
    for i := 0 to |parts|
      invariant names == CallNames(parts[..i])
    {
      assert parts[..i + 1][..i] == parts[..i];
      if Get(parts[i], "functionCall").Some? {
        var name := NameIn(parts[i], "functionCall");
        if name != "" {
          names := names + [name];
        }
      }
    }
    assert parts[..|parts|] == parts;
  }

  lemma FillStep(out: Json, content: Json, items: seq<Json>, names: seq<string>, i: nat)
    requires i < |items| && Partly(out, content, "parts", Filled(items[..i], names), items)
    ensures Get(out, "parts").Some? && Get(out, "parts").value.Arr? && |Get(out, "parts").value.items| == |items|
    ensures var v := PartFilled(items[i], Responses(items[..i]), names);
            && Partly(SetItem(out, "parts", i, v), content, "parts", Filled(items[..i + 1], names), items)
            && (v == items[i] ==> SetItem(out, "parts", i, v) == out)
    ensures Responses(items[..i + 1]) == Responses(items[..i]) + if IsResponse(items[i]) then 1 else 0
  {
    FilledNext(items, names, i);
    PartlyNext(out, content, "parts", Filled(items[..i], names), items,
               PartFilled(items[i], Responses(items[..i]), names));
  }

  method FillResponses(content: Json, names: seq<string>) returns (out: Json)
    requires !IsModel(content) && names != []
    ensures out == ContentFilled(content, names)
  {
    out := content;
    var parts := Get(content, "parts");
    if parts.None? || !parts.value.Arr? {
      return;
    }
    var items := parts.value.items;
    var responseIndex := 0;
    PartlyStarts(content, "parts", items);
    for partIdx := 0 to |items|
      invariant Partly(out, content, "parts", Filled(items[..partIdx], names), items)
      invariant responseIndex == Responses(items[..partIdx])
    {
      FillStep(out, content, items, names, partIdx);
      var part := items[partIdx];
      if Get(part, "functionResponse").None? {
        continue;
      }
      var name := NameIn(part, "functionResponse");
      if name == "" && responseIndex < |names| {
        var named := Named(part, names[responseIndex]);
        out := SetItem(out, "parts", partIdx, named);
      }
      responseIndex := responseIndex + 1;
    }
    assert items[..|items|] == items;
    PartlyEnds(out, content, "parts", Filled(items, names), items);
  }

  lemma BackfillNext(items: seq<Json>, i: nat)
    requires i < |items|
    ensures Backfilled(items[..i + 1]) == Backfilled(items[..i]) + [ContentFilled(items[i], Pending(items[..i]))]
    ensures Pending(items[..i + 1]) == if IsModel(items[i]) then CallNames(PartsOf(items[i])) else []
  {
    assert items[..i + 1][..i] == items[..i];
  }

  method BackfillEmptyFunctionResponseNames(raw: Json) returns (out: Json)
    requires Get(raw, "contents").Some? && Get(raw, "contents").value.Arr?
    ensures out == With(raw, "contents", Arr(Backfilled(Get(raw, "contents").value.items)))
  {
    out := raw;
    var items := Get(raw, "contents").value.items;
    var pendingCallNames: seq<string> := [];
    PartlyStarts(raw, "contents", items);
    for contentIdx := 0 to |items|
      invariant Partly(out, raw, "contents", Backfilled(items[..contentIdx]), items)
      invariant pendingCallNames == Pending(items[..contentIdx])
    {
      BackfillNext(items, contentIdx);
      var content := items[contentIdx];
      PartlyNext(out, raw, "contents", Backfilled(items[..contentIdx]), items,
                 ContentFilled(content, pendingCallNames));
      if RoleText(content) == "model" {
        pendingCallNames := CollectCallNames(PartsOf(content));
        continue;
      }
      if |pendingCallNames| == 0 {
        continue;
      }
      var filled := FillResponses(content, pendingCallNames);
      out := SetItem(out, "contents", contentIdx, filled);
      pendingCallNames := [];
    }
    assert items[..|items|] == items;
    PartlyEnds(out, raw, "contents", Backfilled(items), items);
  }

  // ---- Safety settings and the whole request ----

  function SettingJson(setting: SafetySetting): Json {
    Obj(map["category" := Str(setting.category), "threshold" := Str(setting.threshold)])
  }

  function SafetyAttached(j: Json, opts: Options): Json {
    if Canonical(opts.safetyMode) == "off" || Get(j, "safetySettings").Some? then j
    else
      With(j, "safetySettings",
           Arr(Mapped(if opts.safetySettings == [] then DEFAULT_SAFETY else opts.safetySettings, SettingJson)))
  }

  datatype Payload = Blank | Malformed | Parsed(json: Json)

  datatype BadRequest = EmptyBody | InvalidJson | ContentsNotArray

  function SchemaRenamed(config: Json): Json {
    Rename(config, "responseSchema", "responseJsonSchema")
  }

  function ContentsFixed(contents: seq<Json>): seq<Json> {
    Backfilled(Mapped(RolesFixed(contents), ContentSigned))
  }

  function Normalized(j: Json, opts: Options): Result<Json, BadRequest> {
    var renamed := Update(Update(j, "tools", ToolsFixed), "generationConfig", SchemaRenamed);
    match Get(renamed, "contents")
    case None => Ok(SafetyAttached(renamed, opts))
    case Some(Arr(contents)) => Ok(SafetyAttached(With(renamed, "contents", Arr(ContentsFixed(contents))), opts))
    case _ => Err(ContentsNotArray)
  }

  /** The three passes over the messages. */
  method NormalizeContents(raw: Json) returns (out: Json)
    requires Get(raw, "contents").Some? && Get(raw, "contents").value.Arr?
    ensures out == With(raw, "contents", Arr(ContentsFixed(Get(raw, "contents").value.items)))
  {
    ghost var roles := RolesFixed(Get(raw, "contents").value.items);
    ghost var signed := Mapped(roles, ContentSigned);
    WithWith(raw, "contents", Arr(roles), Arr(signed));
    WithWith(raw, "contents", Arr(signed), Arr(Backfilled(signed)));
    out := NormalizeContentRoles(raw);
    out := NormalizeThoughtSignatures(out);
    out := BackfillEmptyFunctionResponseNames(out);
  }

  method NormalizeRequest(payload: Payload, opts: Options) returns (r: Result<Json, BadRequest>)
    ensures r == match payload
                 case Blank => Err(EmptyBody)
                 case Malformed => Err(InvalidJson)
                 case Parsed(j) => Normalized(j, opts)
  {
    if payload.Blank? {
      return Err(EmptyBody);
    }
    if payload.Malformed? {
      return Err(InvalidJson);
    }
    var out := NormalizeToolDeclarations(payload.json);
    out := RenameMember(out, "generationConfig", "responseSchema", "responseJsonSchema");
    var contents := Get(out, "contents");
    if contents.Some? {
      if !contents.value.Arr? {
        return Err(ContentsNotArray);
      }
      out := NormalizeContents(out);
    }
    return Ok(SafetyAttached(out, opts));
  }

  /** `renameJSONPathRaw` two levels deep. */
  method RenameMember(raw: Json, parent: string, from: string, to: string) returns (out: Json)
    ensures out == match Get(raw, parent) case None => raw case Some(p) => With(raw, parent, Rename(p, from, to))
  {
    var p := Get(raw, parent);
    if p.None? {
      return raw;
    }
    if Get(p.value, from).None? {
      WithSame(raw, parent);
      return raw;
    }
    return With(raw, parent, Rename(p.value, from, to));
  }
}
