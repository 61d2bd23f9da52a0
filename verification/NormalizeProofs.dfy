/** What normalisation promises: a fixed point, alternating roles, and responses changed only
    by naming them (internal/normalize/gemini/normalize.go). */
module NormalizeProofs {
  import opened Prelude
  import opened Json
  import opened Normalize

  // ---- Roles ----

  lemma RoleSet(content: Json, role: string)
    requires !content.Arr? && IsRole(role)
    ensures var r := With(content, "role", Str(role)); RoleText(r) == role && RoleOf(r) == role
  {
    TrimOfTrimmed(role, IsSpace);
  }

  predicate NoArrays(items: seq<Json>) {
    forall i :: 0 <= i < |items| ==> !items[i].Arr?
  }

  lemma {:induction false} RolesFixedAt(contents: seq<Json>, i: nat)
    requires i < |contents| && NoArrays(contents)
    ensures RolesFixed(contents)[i] ==
            if IsRole(RoleOf(contents[i])) then contents[i]
            else With(contents[i], "role", Str(NextRole(LastRole(contents[..i]))))
    ensures RoleOf(RolesFixed(contents)[i]) == LastRole(contents[..i + 1]) && IsRole(LastRole(contents[..i + 1]))
    ensures !IsRole(RoleOf(contents[i])) ==> LastRole(contents[..i + 1]) == NextRole(LastRole(contents[..i]))
  {
    var init := contents[..|contents| - 1];
    if i < |init| {
      assert NoArrays(init);
      RolesFixedAt(init, i);
      assert init[..i] == contents[..i] && init[..i + 1] == contents[..i + 1] && init[i] == contents[i];
    } else {
      assert contents[..i] == init && contents[..i + 1] == contents;
      if !IsRole(RoleOf(contents[i])) {
        RoleSet(contents[i], NextRole(LastRole(init)));
      }
    }
  }

  /** Every message ends up with a role: a valid one is kept, and one that is filled in is
      "user" at the start and otherwise differs from the role before it. */
  lemma FilledRolesAlternate(contents: seq<Json>, i: nat)
    requires i < |contents| && NoArrays(contents)
    ensures var r := RolesFixed(contents);
            && IsRole(RoleOf(r[i]))
            && (IsRole(RoleOf(contents[i])) ==> r[i] == contents[i])
            && (!IsRole(RoleOf(contents[i])) ==>
                  && r[i] == With(contents[i], "role", Str(RoleOf(r[i])))
                  && (if i == 0 then RoleOf(r[i]) == "user" else RoleOf(r[i]) != RoleOf(r[i - 1])))
  {
    RolesFixedAt(contents, i);
    if i > 0 {
      RolesFixedAt(contents, i - 1);
    } else {
      assert LastRole(contents[..0]) == "";
    }
  }

  lemma {:induction false} ValidRolesStay(contents: seq<Json>)
    requires forall i :: 0 <= i < |contents| ==> IsRole(RoleOf(contents[i]))
    ensures RolesFixed(contents) == contents
  {
    if contents != [] {
      ValidRolesStay(contents[..|contents| - 1]);
      assert contents == contents[..|contents| - 1] + [contents[|contents| - 1]];
    }
  }

  // ---- Passes that are done once ----

  lemma MappedTwice<T>(items: seq<T>, f: T -> T)
    requires forall x :: x in items ==> f(f(x)) == f(x)
    ensures Mapped(Mapped(items, f), f) == Mapped(items, f)
  {
    var once := Mapped(items, f);
    var twice := Mapped(once, f);
    forall i | 0 <= i < |items|
      ensures twice[i] == once[i]
    {
      MappedAt(items, f, i);
      MappedAt(once, f, i);
    }
  }

  lemma DeclsFixedTwice(v: Json)
    ensures DeclsFixed(DeclsFixed(v)) == DeclsFixed(v)
  {
    if v.Arr? {
      forall d | d in v.items
        ensures DeclFixed(DeclFixed(d)) == DeclFixed(d)
      {
        RenameTwice(d, "parameters", "parametersJsonSchema");
      }
      MappedTwice(v.items, DeclFixed);
    }
  }

  lemma ToolFixedTwice(tool: Json)
    ensures ToolFixed(ToolFixed(tool)) == ToolFixed(tool)
  {
    var renamed := Rename(tool, "functionDeclarations", "function_declarations");
    var fixed := ToolFixed(tool);
    assert Get(renamed, "functionDeclarations").None?;
    assert Get(fixed, "functionDeclarations").None?;
    var decls := Get(renamed, "function_declarations");
    if decls.Some? {
      DeclsFixedTwice(decls.value);
      WithWith(renamed, "function_declarations", DeclsFixed(decls.value), Null);
      WithSame(fixed, "function_declarations");
    }
  }

  lemma ToolsFixedTwice(v: Json)
    ensures ToolsFixed(ToolsFixed(v)) == ToolsFixed(v)
  {
    if v.Arr? {
      forall tool | tool in v.items
        ensures ToolFixed(ToolFixed(tool)) == ToolFixed(tool)
      {
        ToolFixedTwice(tool);
      }
      MappedTwice(v.items, ToolFixed);
    }
  }

  /** Signing and naming look at and leave alone a message's role. */
  lemma SignedKeepsRole(content: Json)
    ensures RoleText(ContentSigned(content)) == RoleText(content)
    ensures !content.Arr? ==> !ContentSigned(content).Arr?
  {
  }

  lemma SignedTwice(part: Json)
    ensures Signed(Signed(part)) == Signed(part)
  {
    if NeedsSignature(part) {
      WithWith(part, "thoughtSignature", Str(SKIP_SIGNATURE), Str(SKIP_SIGNATURE));
    }
  }

  lemma ContentSignedTwice(content: Json)
    ensures ContentSigned(ContentSigned(content)) == ContentSigned(content)
  {
    SignedKeepsRole(content);
    var parts := Get(content, "parts");
    if IsModel(content) && parts.Some? {
      var signed := PartsSigned(parts.value);
      if parts.value.Arr? {
        forall part | part in parts.value.items
          ensures Signed(Signed(part)) == Signed(part)
        {
          SignedTwice(part);
        }
        MappedTwice(parts.value.items, Signed);
      }
      WithWith(content, "parts", signed, signed);
    }
  }

  // ---- Names ----

  lemma {:induction false} CallNamesAreNames(parts: seq<Json>)
    ensures forall i :: 0 <= i < |CallNames(parts)| ==>
              CallNames(parts)[i] != "" && TrimSpace(CallNames(parts)[i]) == CallNames(parts)[i]
  {
    if parts != [] {
      CallNamesAreNames(parts[..|parts| - 1]);
      var call := Get(parts[|parts| - 1], "functionCall");
      var text := if call.Some? then TextOf(call.value, "name") else "";
      TrimIsTrimmed(text, IsSpace);
      TrimOfTrimmed(TrimSpace(text), IsSpace);
    }
  }

  /** The response of a part, if it is one, is no array; a scalar becomes an object when named. */
  predicate GoodPart(part: Json) {
    IsResponse(part) ==> !Get(part, "functionResponse").value.Arr?
  }

  predicate GoodContent(content: Json) {
    !content.Arr? && forall i :: 0 <= i < |PartsOf(content)| ==> GoodPart(PartsOf(content)[i])
  }

  /** A part that was given a name is a response of that name. */
  lemma NamedPart(part: Json, name: string)
    requires IsResponse(part) && GoodPart(part)
    ensures var r := Named(part, name);
            && IsResponse(r) && GoodPart(r) && ResponseName(r) == TrimSpace(name)
            && Get(r, "functionResponse").value == With(Get(part, "functionResponse").value, "name", Str(name))
            && forall key :: key != "functionResponse" ==> Get(r, key) == Get(part, key)
  {
  }

  lemma {:induction false} FilledAt(parts: seq<Json>, names: seq<string>, j: nat)
    requires j < |parts|
    ensures Filled(parts, names)[j] == PartFilled(parts[j], Responses(parts[..j]), names)
  {
    var init := parts[..|parts| - 1];
    if j < |init| {
      FilledAt(init, names, j);
      assert init[..j] == parts[..j] && init[j] == parts[j];
    } else {
      assert parts[..j] == init;
    }
  }

  /** A part that was filled is not filled again, and counts as before. */
  lemma PartFilledTwice(part: Json, k: nat, names: seq<string>)
    requires GoodPart(part)
    requires forall i :: 0 <= i < |names| ==> names[i] != "" && TrimSpace(names[i]) == names[i]
    ensures PartFilled(PartFilled(part, k, names), k, names) == PartFilled(part, k, names)
    ensures IsResponse(PartFilled(part, k, names)) == IsResponse(part)
  {
    if IsResponse(part) && k < |names| {
      NamedPart(part, names[k]);
    }
  }

  lemma {:induction false} FilledTwice(parts: seq<Json>, names: seq<string>)
    requires forall i :: 0 <= i < |parts| ==> GoodPart(parts[i])
    requires forall i :: 0 <= i < |names| ==> names[i] != "" && TrimSpace(names[i]) == names[i]
    ensures Filled(Filled(parts, names), names) == Filled(parts, names)
    ensures Responses(Filled(parts, names)) == Responses(parts)
  {
    if parts != [] {
      var init, last := parts[..|parts| - 1], parts[|parts| - 1];
      FilledTwice(init, names);
      PartFilledTwice(last, Responses(init), names);
      assert Filled(parts, names)[..|init|] == Filled(init, names);
    }
  }

  lemma FilledKeepsRole(content: Json, names: seq<string>)
    ensures RoleText(ContentFilled(content, names)) == RoleText(content)
    ensures !content.Arr? ==> !ContentFilled(content, names).Arr?
  {
  }

  lemma ContentFilledTwice(content: Json, names: seq<string>)
    requires GoodContent(content)
    requires forall i :: 0 <= i < |names| ==> names[i] != "" && TrimSpace(names[i]) == names[i]
    ensures ContentFilled(ContentFilled(content, names), names) == ContentFilled(content, names)
  {
    FilledKeepsRole(content, names);
    var parts := Get(content, "parts");
    if !IsModel(content) && names != [] && parts.Some? && parts.value.Arr? {
      assert PartsOf(content) == parts.value.items;
      FilledTwice(parts.value.items, names);
      var filled := Filled(parts.value.items, names);
      WithWith(content, "parts", Arr(filled), Arr(filled));
    }
  }

  /** Naming responses leaves the calls to come the same. */
  lemma BackfillKeepsPending(contents: seq<Json>)
    ensures Pending(Backfilled(contents)) == Pending(contents)
  {
    if contents != [] {
      var init, last := contents[..|contents| - 1], contents[|contents| - 1];
      FilledKeepsRole(last, Pending(init));
    }
  }

  lemma {:induction false} BackfilledTwice(contents: seq<Json>)
    requires forall i :: 0 <= i < |contents| ==> GoodContent(contents[i])
    ensures Backfilled(Backfilled(contents)) == Backfilled(contents)
  {
    if contents != [] {
      var init, last := contents[..|contents| - 1], contents[|contents| - 1];
      BackfilledTwice(init);
      BackfillKeepsPending(init);
      if init != [] {
        CallNamesAreNames(PartsOf(init[|init| - 1]));
      }
      ContentFilledTwice(last, Pending(init));
      assert Backfilled(contents)[..|init|] == Backfilled(init);
    }
  }

  lemma {:induction false} BackfilledAt(contents: seq<Json>, i: nat)
    requires i < |contents|
    ensures Backfilled(contents)[i] == ContentFilled(contents[i], Pending(contents[..i]))
  {
    var init := contents[..|contents| - 1];
    if i < |init| {
      BackfilledAt(init, i);
      assert init[..i] == contents[..i] && init[i] == contents[i];
    } else {
      assert contents[..i] == init;
    }
  }

  // ---- Messages, whole ----

  predicate GoodContents(contents: seq<Json>) {
    forall i :: 0 <= i < |contents| ==> GoodContent(contents[i])
  }

  function Signs(contents: seq<Json>): (r: seq<Json>)
    ensures |r| == |contents|
  {
    Mapped(RolesFixed(contents), ContentSigned)
  }

  /** Each message after all three passes. */
  lemma ContentsFixedAt(contents: seq<Json>, i: nat)
    requires i < |contents|
    ensures Signs(contents)[i] == ContentSigned(RolesFixed(contents)[i])
    ensures ContentsFixed(contents)[i] == ContentFilled(Signs(contents)[i], Pending(Signs(contents)[..i]))
  {
    MappedAt(RolesFixed(contents), ContentSigned, i);
    BackfilledAt(Signs(contents), i);
  }

  /** Signing keeps calls and responses as they are. */
  lemma SignedPart(part: Json)
    ensures forall key :: key != "thoughtSignature" ==> Get(Signed(part), key) == Get(part, key)
    ensures IsResponse(Signed(part)) == IsResponse(part) && GoodPart(Signed(part)) == GoodPart(part)
    ensures ResponseName(Signed(part)) == ResponseName(part)
    ensures NameIn(Signed(part), "functionCall") == NameIn(part, "functionCall")
  {
    var r := Signed(part);
    assert Get(r, "functionResponse") == Get(part, "functionResponse");
    assert Get(r, "functionCall") == Get(part, "functionCall");
  }

  lemma SignedParts(content: Json, j: nat)
    requires j < |PartsOf(content)|
    ensures |PartsOf(ContentSigned(content))| == |PartsOf(content)|
    ensures PartsOf(ContentSigned(content))[j] ==
            if IsModel(content) then Signed(PartsOf(content)[j]) else PartsOf(content)[j]
  {
    var parts := PartsOf(content);
    assert Get(content, "parts") == Some(Arr(parts));
    if IsModel(content) {
      MappedAt(parts, Signed, j);
      assert PartsOf(ContentSigned(content)) == Mapped(parts, Signed);
    }
  }

  lemma SignedStaysGood(content: Json)
    requires GoodContent(content)
    ensures GoodContent(ContentSigned(content))
  {
    if PartsOf(content) == [] {
      assert PartsOf(ContentSigned(content)) == [];
    } else {
      SignedParts(content, 0);
      forall j | 0 <= j < |PartsOf(content)|
        ensures GoodPart(PartsOf(ContentSigned(content))[j])
      {
        SignedParts(content, j);
        SignedPart(PartsOf(content)[j]);
      }
    }
  }

  lemma RoleSetStaysGood(content: Json, v: Json)
    requires GoodContent(content)
    ensures var r := With(content, "role", v);
            && GoodContent(r) && PartsOf(r) == PartsOf(content)
            && forall key :: key != "role" ==> Get(r, key) == Get(content, key)
  {
    var r := With(content, "role", v);
    assert Get(r, "parts") == Get(content, "parts");
    assert PartsOf(r) == PartsOf(content);
    forall i | 0 <= i < |PartsOf(r)|
      ensures GoodPart(PartsOf(r)[i])
    {
      assert GoodPart(PartsOf(content)[i]);
    }
  }

  lemma GoodAreNoArrays(contents: seq<Json>)
    requires GoodContents(contents)
    ensures NoArrays(contents)
  {
    forall i | 0 <= i < |contents|
      ensures !contents[i].Arr?
    {
      assert GoodContent(contents[i]);
    }
  }

  lemma RoledStaysGood(contents: seq<Json>, i: nat)
    requires i < |contents| && GoodContents(contents)
    ensures GoodContent(RolesFixed(contents)[i]) && PartsOf(RolesFixed(contents)[i]) == PartsOf(contents[i])
    ensures forall key :: key != "role" ==> Get(RolesFixed(contents)[i], key) == Get(contents[i], key)
  {
    GoodAreNoArrays(contents);
    RolesFixedAt(contents, i);
    assert GoodContent(contents[i]);
    RoleSetStaysGood(contents[i], Str(NextRole(LastRole(contents[..i]))));
  }

  /** Fixing the messages a second time changes nothing. */
  lemma ContentsFixedTwice(contents: seq<Json>)
    requires GoodContents(contents)
    ensures ContentsFixed(ContentsFixed(contents)) == ContentsFixed(contents)
  {
    var signs, fixed := Signs(contents), ContentsFixed(contents);
    forall i | 0 <= i < |contents|
      ensures IsRole(RoleOf(fixed[i])) && ContentSigned(fixed[i]) == fixed[i] && GoodContent(signs[i])
    {
      ContentsFixedAt(contents, i);
      RolesFixedAt(contents, i);
      RoledStaysGood(contents, i);
      SignedStaysGood(RolesFixed(contents)[i]);
      SignedKeepsRole(RolesFixed(contents)[i]);
      FilledKeepsRole(signs[i], Pending(signs[..i]));
      ContentSignedTwice(RolesFixed(contents)[i]);
    }
    ValidRolesStay(fixed);
    forall i | 0 <= i < |fixed|
      ensures Mapped(fixed, ContentSigned)[i] == fixed[i]
    {
      MappedAt(fixed, ContentSigned, i);
    }
    assert Mapped(fixed, ContentSigned) == fixed;
    BackfilledTwice(signs);
  }

  /** The call names a message answers, read off the roles alone. */
  lemma PendingAfterSigning(contents: seq<Json>, i: nat)
    requires i <= |contents|
    ensures Pending(Signs(contents)[..i]) == Pending(RolesFixed(contents)[..i])
  {
    var signed, roled := Signs(contents), RolesFixed(contents);
    if i == 0 {
      assert signed[..i] == roled[..i] == [];
    } else {
      MappedAt(roled, ContentSigned, i - 1);
      SamePending(signed, roled, i);
    }
  }

  lemma SamePending(signed: seq<Json>, contents: seq<Json>, i: nat)
    requires |signed| == |contents| && 0 < i <= |contents| && signed[i - 1] == ContentSigned(contents[i - 1])
    ensures Pending(signed[..i]) == Pending(contents[..i])
  {
    SignedKeepsRole(contents[i - 1]);
    CallNamesAfterSigning(contents[i - 1]);
    assert signed[..i][i - 1] == signed[i - 1] && contents[..i][i - 1] == contents[i - 1];
  }

  lemma CallNamesAfterSigning(content: Json)
    ensures CallNames(PartsOf(ContentSigned(content))) == CallNames(PartsOf(content))
  {
    var parts := PartsOf(content);
    if parts == [] {
      assert PartsOf(ContentSigned(content)) == [];
    } else if IsModel(content) {
      assert Get(content, "parts") == Some(Arr(parts));
      assert PartsOf(ContentSigned(content)) == Mapped(parts, Signed);
      CallNamesMapped(parts);
    } else {
      assert ContentSigned(content) == content;
    }
  }

  lemma {:induction false} CallNamesMapped(parts: seq<Json>)
    ensures CallNames(Mapped(parts, Signed)) == CallNames(parts)
  {
    if parts != [] {
      var init, last := parts[..|parts| - 1], parts[|parts| - 1];
      CallNamesMapped(init);
      SignedPart(last);
      assert Get(Signed(last), "functionCall") == Get(last, "functionCall");
      assert Mapped(parts, Signed)[..|init|] == Mapped(init, Signed);
    }
  }

  /** A function response changes only where its name is blank: the k-th response of a message
      right after a model message takes the k-th name called there, if there is one. */
  lemma OnlyBlankNamesAreFilled(contents: seq<Json>, i: nat, j: nat)
    requires GoodContents(contents) && i < |contents| && j < |PartsOf(contents[i])|
    ensures var before, after := PartsOf(contents[i]), PartsOf(ContentsFixed(contents)[i]);
            |after| == |before| && IsResponse(after[j]) == IsResponse(before[j])
    ensures var before, after := PartsOf(contents[i]), PartsOf(ContentsFixed(contents)[i]);
            var names := Pending(RolesFixed(contents)[..i]);
            var k := Responses(before[..j]);
            IsResponse(before[j]) ==>
              var response := Get(before[j], "functionResponse").value;
              Get(after[j], "functionResponse").value ==
              if !IsModel(RolesFixed(contents)[i]) && ResponseName(before[j]) == "" && k < |names|
              then With(response, "name", Str(names[k])) else response
    ensures forall key :: key !in {"thoughtSignature", "functionResponse"} ==>
              Get(PartsOf(ContentsFixed(contents)[i])[j], key) == Get(PartsOf(contents[i])[j], key)
  {
    var content := RolesFixed(contents)[i];
    var names := Pending(RolesFixed(contents)[..i]);
    ContentsFixedAt(contents, i);
    PendingAfterSigning(contents, i);
    RoledStaysGood(contents, i);
    SignedParts(content, j);
    SignedKeepsRole(content);
    var part := PartsOf(content)[j];
    SignedPart(part);
    if !IsModel(content) && names != [] {
      assert ContentSigned(content) == content;
      FilledAt(PartsOf(content), names, j);
      FilledPartsOf(content, names);
      if IsResponse(part) && Responses(PartsOf(content)[..j]) < |names| {
        NamedPart(part, names[Responses(PartsOf(content)[..j])]);
      }
    }
  }

  lemma FilledPartsOf(content: Json, names: seq<string>)
    requires !IsModel(content) && names != [] && PartsOf(content) != []
    ensures PartsOf(ContentFilled(content, names)) == Filled(PartsOf(content), names)
  {
    assert Get(content, "parts") == Some(Arr(PartsOf(content)));
  }

  /** Of a message nothing but role and parts changes. */
  lemma OtherMembersStay(contents: seq<Json>, i: nat, key: string)
    requires GoodContents(contents) && i < |contents| && key !in {"role", "parts"}
    ensures |ContentsFixed(contents)| == |contents| && Get(ContentsFixed(contents)[i], key) == Get(contents[i], key)
  {
    ContentsFixedAt(contents, i);
    RoledStaysGood(contents, i);
    OtherMember(RolesFixed(contents)[i], Pending(Signs(contents)[..i]), key);
  }

  lemma OtherMember(content: Json, names: seq<string>, key: string)
    requires key != "parts"
    ensures Get(ContentFilled(ContentSigned(content), names), key) == Get(content, key)
  {
  }

  // ---- The whole request ----

  /** No message, and no function response in one, is an array. */
  predicate GoodBody(j: Json) {
    match Get(j, "contents")
    case Some(Arr(contents)) => GoodContents(contents)
    case _ => true
  }

  predicate Attached(j: Json, opts: Options) {
    SafetyAttached(j, opts) == j
  }

  lemma UpdateGet(j: Json, key: string, f: Json -> Json, other: string)
    ensures Get(Update(j, key, f), other) ==
            if other == key && Get(j, key).Some? then Some(f(Get(j, key).value)) else Get(j, other)
  {
  }

  lemma SettledBody(j: Json, opts: Options)
    requires Get(j, "tools").Some? ==> ToolsFixed(Get(j, "tools").value) == Get(j, "tools").value
    requires Get(j, "generationConfig").Some? ==>
               SchemaRenamed(Get(j, "generationConfig").value) == Get(j, "generationConfig").value
    requires Get(j, "contents").Some? ==>
               Get(j, "contents").value.Arr? &&
               ContentsFixed(Get(j, "contents").value.items) == Get(j, "contents").value.items
    requires Attached(j, opts)
    ensures Normalized(j, opts) == Ok(j)
  {
    if Get(j, "tools").Some? {
      WithSame(j, "tools");
    }
    if Get(j, "generationConfig").Some? {
      WithSame(j, "generationConfig");
    }
    if Get(j, "contents").Some? {
      WithSame(j, "contents");
    }
  }

  lemma AttachedFacts(j: Json, opts: Options)
    ensures Attached(SafetyAttached(j, opts), opts)
    ensures forall key :: key != "safetySettings" ==> Get(SafetyAttached(j, opts), key) == Get(j, key)
    ensures Get(j, "safetySettings").Some? ==> SafetyAttached(j, opts) == j
  {
  }

  function FieldsRenamed(j: Json): Json {
    Update(Update(j, "tools", ToolsFixed), "generationConfig", SchemaRenamed)
  }

  lemma RenamedMember(j: Json, key: string)
    ensures Get(FieldsRenamed(j), key) ==
            match Get(j, key)
            case None => None
            case Some(v) =>
              Some(if key == "tools" then ToolsFixed(v) else if key == "generationConfig" then SchemaRenamed(v) else v)
  {
    UpdateGet(j, "tools", ToolsFixed, key);
    UpdateGet(j, "tools", ToolsFixed, "generationConfig");
    UpdateGet(Update(j, "tools", ToolsFixed), "generationConfig", SchemaRenamed, key);
  }

  /** What the request's members become. */
  lemma NormalizedMembers(j: Json, opts: Options)
    requires Normalized(j, opts).Ok?
    ensures var r := Normalized(j, opts).value;
            && Get(r, "tools") == (match Get(j, "tools") case None => None case Some(v) => Some(ToolsFixed(v)))
            && Get(r, "generationConfig") ==
               (match Get(j, "generationConfig") case None => None case Some(v) => Some(SchemaRenamed(v)))
            && Get(r, "contents") ==
               (match Get(j, "contents") case Some(Arr(cs)) => Some(Arr(ContentsFixed(cs))) case _ => None)
            && Attached(r, opts)
    ensures var r := Normalized(j, opts).value;
            forall key :: key !in {"tools", "generationConfig", "contents", "safetySettings"} ==>
              Get(r, key) == Get(j, key)
    ensures Get(j, "safetySettings").Some? ==>
              Get(Normalized(j, opts).value, "safetySettings") == Get(j, "safetySettings")
  {
    var renamed := FieldsRenamed(j);
    RenamedMember(j, "tools");
    RenamedMember(j, "generationConfig");
    RenamedMember(j, "contents");
    RenamedMember(j, "safetySettings");
    var contents := Get(renamed, "contents");
    var fixed :=
      if contents.Some? then With(renamed, "contents", Arr(ContentsFixed(contents.value.items))) else renamed;
    AttachedFacts(fixed, opts);
    forall key | key !in {"tools", "generationConfig", "contents", "safetySettings"}
      ensures Get(Normalized(j, opts).value, key) == Get(j, key)
    {
      RenamedMember(j, key);
    }
  }

  /** Normalising a normalised request changes nothing. */
  lemma NormalizeTwice(j: Json, opts: Options)
    requires GoodBody(j) && Normalized(j, opts).Ok?
    ensures Normalized(Normalized(j, opts).value, opts) == Normalized(j, opts)
  {
    var r := Normalized(j, opts).value;
    NormalizedMembers(j, opts);
    if Get(j, "tools").Some? {
      ToolsFixedTwice(Get(j, "tools").value);
    }
    if Get(j, "generationConfig").Some? {
      RenameTwice(Get(j, "generationConfig").value, "responseSchema", "responseJsonSchema");
    }
    if Get(j, "contents").Some? {
      ContentsFixedTwice(Get(j, "contents").value.items);
    }
    SettledBody(r, opts);
  }

  /** It fails exactly when there are contents that are not an array. */
  lemma RefusedExactly(j: Json, opts: Options)
    ensures Normalized(j, opts).Err? <==> Get(j, "contents").Some? && !Get(j, "contents").value.Arr?
  {
    RenamedMember(j, "contents");
  }
}
