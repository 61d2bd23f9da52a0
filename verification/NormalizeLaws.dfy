/** What a normalised request holds, member by member, said without the passes that make it
    (internal/normalize/gemini/normalize.go). */
module NormalizeLaws {
  import opened Prelude
  import opened Json
  import opened Normalize
  import opened NormalizeProofs

  // ---- Renamed members ----

  /** `after` has under `to` what `before` had under `from`, or else under `to`; nothing is left
      under `from`, and all else is as it was. Only an object has members. */
  ghost predicate Moved(before: Json, after: Json, from: string, to: string) {
    if !before.Obj? then after == before
    else
      && after.Obj? && Get(after, from).None?
      && Get(after, to) == (if Get(before, from).Some? then Get(before, from) else Get(before, to))
      && forall key :: key !in {from, to} ==> Get(after, key) == Get(before, key)
  }

  lemma RenamedIsMoved(j: Json, from: string, to: string)
    requires from != to
    ensures Moved(j, Rename(j, from, to), from, to)
  {
  }

  /** The declarations of a tool, under either name. */
  function Declarations(tool: Json): Option<Json> {
    if Get(tool, "functionDeclarations").Some? then Get(tool, "functionDeclarations")
    else Get(tool, "function_declarations")
  }

  /** Equally many declarations in the same order, each with its schema under the new name. */
  ghost predicate SameDeclarations(before: Json, after: Json) {
    if !before.Arr? then after == before
    else
      && after.Arr? && |after.items| == |before.items|
      && forall k :: 0 <= k < |before.items| ==>
           Moved(before.items[k], after.items[k], "parameters", "parametersJsonSchema")
  }

  ghost predicate SameTool(before: Json, after: Json) {
    if !before.Obj? then after == before
    else
      && after.Obj? && Get(after, "functionDeclarations").None?
      && (match Declarations(before)
          case None => Get(after, "function_declarations").None?
          case Some(ds) =>
            && Get(after, "function_declarations").Some?
            && SameDeclarations(ds, Get(after, "function_declarations").value))
      && forall key :: key !in {"functionDeclarations", "function_declarations"} ==> Get(after, key) == Get(before, key)
  }

  ghost predicate SameTools(before: Json, after: Json) {
    if !before.Arr? then after == before
    else
      && after.Arr? && |after.items| == |before.items|
      && forall i :: 0 <= i < |before.items| ==> SameTool(before.items[i], after.items[i])
  }

  lemma FixedDeclarations(ds: Json)
    ensures SameDeclarations(ds, DeclsFixed(ds))
  {
    if ds.Arr? {
      forall k | 0 <= k < |ds.items|
        ensures Moved(ds.items[k], DeclsFixed(ds).items[k], "parameters", "parametersJsonSchema")
      {
        MappedAt(ds.items, DeclFixed, k);
        RenamedIsMoved(ds.items[k], "parameters", "parametersJsonSchema");
      }
    }
  }

  lemma FixedTool(tool: Json)
    ensures SameTool(tool, ToolFixed(tool))
  {
    RenamedIsMoved(tool, "functionDeclarations", "function_declarations");
    if tool.Obj? && Declarations(tool).Some? {
      FixedDeclarations(Declarations(tool).value);
    }
  }

  lemma FixedTools(v: Json)
    ensures SameTools(v, ToolsFixed(v))
  {
    if v.Arr? {
      forall i | 0 <= i < |v.items|
        ensures SameTool(v.items[i], ToolsFixed(v).items[i])
      {
        MappedAt(v.items, ToolFixed, i);
        FixedTool(v.items[i]);
      }
    }
  }

  /** Every tool keeps all its declarations, and every declaration its schema, under their new
      names, and nothing else about them changes. */
  lemma ToolsKeepDeclarations(j: Json, opts: Options)
    requires Normalized(j, opts).Ok?
    ensures var r := Normalized(j, opts).value;
            match Get(j, "tools")
            case None => Get(r, "tools").None?
            case Some(tools) => Get(r, "tools").Some? && SameTools(tools, Get(r, "tools").value)
  {
    NormalizedMembers(j, opts);
    if Get(j, "tools").Some? {
      FixedTools(Get(j, "tools").value);
    }
  }

  /** The response schema stands under its new name, and the rest of the configuration stays. */
  lemma SchemaIsKept(j: Json, opts: Options)
    requires Normalized(j, opts).Ok?
    ensures var r := Normalized(j, opts).value;
            match Get(j, "generationConfig")
            case None => Get(r, "generationConfig").None?
            case Some(config) =>
              && Get(r, "generationConfig").Some?
              && Moved(config, Get(r, "generationConfig").value, "responseSchema", "responseJsonSchema")
  {
    NormalizedMembers(j, opts);
    if Get(j, "generationConfig").Some? {
      RenamedIsMoved(Get(j, "generationConfig").value, "responseSchema", "responseJsonSchema");
    }
  }

  // ---- Safety settings ----

  ghost predicate IsSetting(v: Json, setting: SafetySetting) {
    v == Obj(map["category" := Str(setting.category), "threshold" := Str(setting.threshold)])
  }

  /** The categories the gateway turns off when nothing is configured. */
  const DEFAULTS := [
    SafetySetting("HARM_CATEGORY_HARASSMENT", "OFF"),
    SafetySetting("HARM_CATEGORY_HATE_SPEECH", "OFF"),
    SafetySetting("HARM_CATEGORY_SEXUALLY_EXPLICIT", "OFF"),
    SafetySetting("HARM_CATEGORY_DANGEROUS_CONTENT", "OFF"),
    SafetySetting("HARM_CATEGORY_CIVIC_INTEGRITY", "BLOCK_NONE")]

  lemma NormalizedIsAttached(j: Json, opts: Options) returns (fixed: Json)
    requires Normalized(j, opts).Ok?
    ensures Normalized(j, opts).value == SafetyAttached(fixed, opts)
    ensures Get(fixed, "safetySettings") == Get(j, "safetySettings") && (!j.Arr? ==> !fixed.Arr?)
  {
    var renamed := FieldsRenamed(j);
    RenamedMember(j, "safetySettings");
    var contents := Get(renamed, "contents");
    fixed := if contents.Some? then With(renamed, "contents", Arr(ContentsFixed(contents.value.items))) else renamed;
  }

  lemma AttachedSettings(j: Json, opts: Options)
    requires !j.Arr? && Get(j, "safetySettings").None? && Canonical(opts.safetyMode) != "off"
    ensures var r := Get(SafetyAttached(j, opts), "safetySettings");
            var wanted := if opts.safetySettings == [] then DEFAULTS else opts.safetySettings;
            && r.Some? && r.value.Arr? && |r.value.items| == |wanted|
            && forall i :: 0 <= i < |wanted| ==> IsSetting(r.value.items[i], wanted[i])
  {
    var wanted := if opts.safetySettings == [] then DEFAULTS else opts.safetySettings;
    assert DEFAULTS == DEFAULT_SAFETY;
    forall i | 0 <= i < |wanted|
      ensures IsSetting(Mapped(wanted, SettingJson)[i], wanted[i])
    {
      MappedAt(wanted, SettingJson, i);
    }
  }

  /** A request without safety settings gets the configured ones in their order, the defaults where
      there are none, and none at all in mode "off"; its own are kept. */
  lemma SafetyIsAttached(j: Json, opts: Options)
    requires Normalized(j, opts).Ok? && !j.Arr?
    ensures var r := Get(Normalized(j, opts).value, "safetySettings");
            var wanted := if opts.safetySettings == [] then DEFAULTS else opts.safetySettings;
            if Get(j, "safetySettings").Some? || Canonical(opts.safetyMode) == "off" then r == Get(j, "safetySettings")
            else
              && r.Some? && r.value.Arr? && |r.value.items| == |wanted|
              && forall i :: 0 <= i < |wanted| ==> IsSetting(r.value.items[i], wanted[i])
  {
    var fixed := NormalizedIsAttached(j, opts);
    if Get(j, "safetySettings").None? && Canonical(opts.safetyMode) != "off" {
      AttachedSettings(fixed, opts);
    }
  }

  // ---- Messages ----

  /** The text of a message's role, the one it came with or the one it was given. */
  function FinalRole(contents: seq<Json>, i: nat): string
    requires i < |contents|
  {
    RoleText(ContentsFixed(contents)[i])
  }

  /** What becomes of one part, by the role of its message. */
  lemma PartBecomes(contents: seq<Json>, i: nat, k: nat)
    requires GoodContents(contents) && i < |contents| && k < |PartsOf(contents[i])|
    ensures |PartsOf(ContentsFixed(contents)[i])| == |PartsOf(contents[i])|
    ensures FinalRole(contents, i) == RoleText(RolesFixed(contents)[i])
    ensures var before, names := PartsOf(contents[i]), Pending(RolesFixed(contents)[..i]);
            PartsOf(ContentsFixed(contents)[i])[k] ==
            if FinalRole(contents, i) == "model" then Signed(before[k])
            else if names == [] then before[k]
            else PartFilled(before[k], Responses(before[..k]), names)
  {
    var content, names := RolesFixed(contents)[i], Pending(RolesFixed(contents)[..i]);
    ContentsFixedAt(contents, i);
    PendingAfterSigning(contents, i);
    RoledStaysGood(contents, i);
    SignedKeepsRole(content);
    FilledKeepsRole(ContentSigned(content), names);
    SignedParts(content, k);
    if !IsModel(content) && names != [] {
      FilledPartsOf(content, names);
      FilledAt(PartsOf(content), names, k);
    }
  }

  lemma SignedMember(part: Json)
    ensures Get(Signed(part), "thoughtSignature") ==
            if Get(part, "functionCall").Some? || Get(part, "thoughtSignature").Some?
            then Some(Str("skip_thought_signature_validator"))
            else Get(part, "thoughtSignature")
  {
  }

  /** In a model message exactly the parts with a call or a signature carry the skip value; in any
      other message every part keeps what it had. */
  lemma SignaturesAreSkipped(contents: seq<Json>, i: nat, k: nat)
    requires GoodContents(contents) && i < |contents| && k < |PartsOf(contents[i])|
    ensures var before, after := PartsOf(contents[i]), PartsOf(ContentsFixed(contents)[i]);
            && |after| == |before|
            && Get(after[k], "thoughtSignature") ==
               if FinalRole(contents, i) == "model" &&
                  (Get(before[k], "functionCall").Some? || Get(before[k], "thoughtSignature").Some?)
               then Some(Str("skip_thought_signature_validator"))
               else Get(before[k], "thoughtSignature")
  {
    PartBecomes(contents, i, k);
    SignedMember(PartsOf(contents[i])[k]);
  }

  /** A part that calls `name`. */
  predicate Calls(part: Json, name: string) {
    && Get(part, "functionCall").Some?
    && TrimSpace(TextOf(Get(part, "functionCall").value, "name")) == name != ""
  }

  lemma {:induction false} CallNamesAre(parts: seq<Json>, names: seq<string>)
    requires |names| == |parts| && forall k :: 0 <= k < |parts| ==> Calls(parts[k], names[k])
    ensures CallNames(parts) == names
  {
    if parts != [] {
      var n := |parts| - 1;
      CallNamesAre(parts[..n], names[..n]);
      assert Calls(parts[n], names[n]) && names == names[..n] + [names[n]];
    }
  }

  lemma {:induction false} AllResponses(parts: seq<Json>)
    requires forall k :: 0 <= k < |parts| ==> IsResponse(parts[k])
    ensures Responses(parts) == |parts|
  {
    if parts != [] {
      AllResponses(parts[..|parts| - 1]);
    }
  }

  /** A model message of calls followed by a message of responses: each response without a name
      gets that of the call at its place. */
  lemma ResponsesAreNamed(contents: seq<Json>, i: nat, names: seq<string>, k: nat)
    requires GoodContents(contents) && 0 < i < |contents| && RoleText(RolesFixed(contents)[i - 1]) == "model"
    requires |PartsOf(contents[i - 1])| == |names| && k < |names| && k < |PartsOf(contents[i])|
    requires forall c :: 0 <= c < |names| ==> Calls(PartsOf(contents[i - 1])[c], names[c])
    requires forall p :: 0 <= p <= k ==> Get(PartsOf(contents[i])[p], "functionResponse").Some?
    requires RoleText(RolesFixed(contents)[i]) != "model"
    ensures |PartsOf(ContentsFixed(contents)[i])| == |PartsOf(contents[i])|
    ensures var was, now := PartsOf(contents[i])[k], PartsOf(ContentsFixed(contents)[i])[k];
            && Get(now, "functionResponse").Some?
            && (TrimSpace(TextOf(Get(was, "functionResponse").value, "name")) == "" ==>
                  Get(Get(now, "functionResponse").value, "name") == Some(Str(names[k])))
  {
    var before := PartsOf(contents[i]);
    PartBecomes(contents, i, k);
    PendingBefore(contents, i, names);
    AllResponses(before[..k]);
    assert GoodContent(contents[i]) && GoodPart(before[k]);
    NamedPart(before[k], names[k]);
  }

  lemma PendingBefore(contents: seq<Json>, i: nat, names: seq<string>)
    requires GoodContents(contents) && 0 < i < |contents| && RoleText(RolesFixed(contents)[i - 1]) == "model"
    requires |PartsOf(contents[i - 1])| == |names|
    requires forall c :: 0 <= c < |names| ==> Calls(PartsOf(contents[i - 1])[c], names[c])
    ensures Pending(RolesFixed(contents)[..i]) == names
  {
    PendingAt(RolesFixed(contents), i);
    RoledStaysGood(contents, i - 1);
    CallNamesAre(PartsOf(contents[i - 1]), names);
  }

  lemma PendingAt(contents: seq<Json>, i: nat)
    requires 0 < i <= |contents|
    ensures Pending(contents[..i]) == if IsModel(contents[i - 1]) then CallNames(PartsOf(contents[i - 1])) else []
  {
    assert contents[..i][i - 1] == contents[i - 1];
  }
}
