/** Reading a thinking configuration from a model suffix or a request body, and writing the
    validated one back (internal/thinking/thinking.go). */
module ThinkingApply {
  import opened Prelude
  import opened Json
  import opened Thinking

  const GENERATION := "generationConfig"
  const THINKING := "thinkingConfig"
  const LEVEL := "thinkingLevel"
  const LEVEL_SNAKE := "thinking_level"
  const BUDGET := "thinkingBudget"
  const BUDGET_SNAKE := "thinking_budget"
  const THOUGHTS := "includeThoughts"
  const THOUGHTS_SNAKE := "include_thoughts"

  // ---- The model suffix ----

  datatype Suffix = NoSuffix | Suffix(model: string, raw: string)

  /** The last position of `c`, -1 if there is none. */
  function LastIndex(s: string, c: char): (r: int)
    ensures -1 <= r < |s|
    ensures r >= 0 ==> s[r] == c
  {
    if s == "" then -1 else if s[|s| - 1] == c then |s| - 1 else LastIndex(s[..|s| - 1], c)
  }

  function ParseSuffix(model: string): Suffix {
    var m := TrimSpace(model);
    var open := LastIndex(m, '(');
    if open == -1 || m[|m| - 1] != ')' then NoSuffix
    else Suffix(TrimSpace(m[..open]), TrimSpace(m[open + 1..|m| - 1]))
  }

  /** `strconv.ParseInt` to 64 bits, for values that are not negative. */
  function ParseNumericSuffix(raw: string): Option<nat> {
    var s := TrimSpace(raw);
    var digits := if s != "" && s[0] in {'+', '-'} then s[1..] else s;
    match if digits == "" then None else Digits(digits)
    case None => None
    case Some(n) => if s[0] == '-' then (if n == 0 then Some(0) else None) else if n < TWO_63 then Some(n) else None
  }

  function SuffixConfig(raw: string): Option<Config> {
    var word := Canonical(raw);
    if word == "none" then Some(Config(ModeNone, 0, ""))
    else if word == "auto" || word == "-1" then Some(Config(ModeAuto, -1, ""))
    else if word in STANDARD_ORDER then Some(Config(ModeLevel, 0, word))
    else match ParseNumericSuffix(raw)
      case None => None
      case Some(n) => Some(if n == 0 then Config(ModeNone, 0, "") else Config(ModeBudget, n, ""))
  }

  // ---- The request body ----

  function Field(body: Json, key: string): Option<Json> {
    GetIn(body, [GENERATION, THINKING, key])
  }

  function Either(body: Json, key: string, snake: string): Option<Json> {
    if Field(body, key).Some? then Field(body, key) else Field(body, snake)
  }

  function LevelConfig(text: string): Config {
    var word := Canonical(text);
    if word == "none" then Config(ModeNone, 0, "")
    else if word == "auto" then Config(ModeAuto, -1, "")
    else if word == "" then ZERO_CONFIG
    else Config(ModeLevel, 0, word)
  }

  function BudgetConfig(budget: int): Config {
    if budget == 0 then Config(ModeNone, 0, "")
    else if budget == -1 then Config(ModeAuto, -1, "")
    else Config(ModeBudget, budget, "")
  }

  function ExtractConfig(body: Json): Config {
    match Either(body, LEVEL, LEVEL_SNAKE)
    case Some(level) => LevelConfig(AsText(level))
    case None =>
      match Either(body, BUDGET, BUDGET_SNAKE)
      case Some(budget) => BudgetConfig(AsInt(budget))
      case None => ZERO_CONFIG
  }

  predicate HasThinkingConfig(c: Config) {
    !c.mode.ModeBudget? || c.budget != 0 || c.level != ""
  }

  function ShownThoughts(body: Json): Option<bool> {
    match Either(body, THOUGHTS, THOUGHTS_SNAKE)
    case Some(v) => Some(AsBool(v))
    case None => None
  }

  // ---- Writing it back ----

  function UpperChar(c: char): char {
    if 'a' <= c <= 'z' then (c as int - 32) as char else c
  }

  function ToUpper(s: string): string {
    seq(|s|, i requires 0 <= i < |s| => UpperChar(s[i]))
  }

  function LevelToApiEnum(level: string): string {
    match level
    case "minimal" => "MINIMAL"
    case "low" => "LOW"
    case "medium" => "MEDIUM"
    case "high" => "HIGH"
    case "xhigh" => "HIGH"
    case "max" => "HIGH"
    case _ => ToUpper(TrimSpace(level))
  }

  function Put(body: Json, key: string, v: Json): Json {
    SetIn(body, [GENERATION, THINKING, key], v)
  }

  function Drop(body: Json, key: string): Json {
    DeleteIn(body, [GENERATION, THINKING, key])
  }

  function ApplyLevelFormat(body: Json, c: Config): Json {
    var r := Drop(Drop(Drop(Drop(body, BUDGET), BUDGET_SNAKE), LEVEL_SNAKE), THOUGHTS_SNAKE);
    match c.mode
    case ModeNone =>
      var hidden := Put(r, THOUGHTS, Bool(false));
      if c.level != "" then Put(hidden, LEVEL, Str(LevelToApiEnum(c.level))) else hidden
    case ModeLevel =>
      var shown := ShownThoughts(body);
      Put(Put(r, LEVEL, Str(LevelToApiEnum(c.level))), THOUGHTS, Bool(if shown.Some? then shown.value else true))
    case _ => r
  }

  function ApplyBudgetFormat(body: Json, c: Config): Json {
    var r := Drop(Drop(Drop(Drop(body, LEVEL), LEVEL_SNAKE), BUDGET_SNAKE), THOUGHTS_SNAKE);
    var thoughts :=
      match (c.mode, ShownThoughts(body))
      case (ModeNone, _) => false
      case (_, Some(shown)) => shown
      case (ModeAuto, _) => true
      case _ => c.budget > 0;
    Put(Put(r, BUDGET, Num(c.budget)), THOUGHTS, Bool(thoughts))
  }

  /** A disabled model that has levels still gets one, with its thoughts hidden. */
  predicate WritesLevel(c: Config, support: Support) {
    c.mode.ModeLevel? || (c.mode.ModeNone? && |support.levels| > 0)
  }

  function ApplyGemini(body: Json, c: Config, support: Support): Json {
    if WritesLevel(c, support) then ApplyLevelFormat(body, c) else ApplyBudgetFormat(body, c)
  }

  function StripThinkingConfig(body: Json): Json {
    DeleteIn(body, [GENERATION, THINKING])
  }

  // ---- `Apply` ----

  datatype ModelInfo = ModelInfo(thinking: Option<Support>, supportsThinking: bool)

  datatype Problem = BadSuffix(raw: string) | InvalidJson | UnknownModel | Refused(refusal: Refusal)

  /** The suffix wins over the body; `None` is a body that is empty or not JSON. */
  function ConfigFor(body: Option<Json>, model: string): Result<Config, Problem> {
    match ParseSuffix(model)
    case Suffix(_, raw) =>
      (match SuffixConfig(raw) case None => Err(BadSuffix(raw)) case Some(c) => Ok(c))
    case NoSuffix => Ok(if body.Some? then ExtractConfig(body.value) else ZERO_CONFIG)
  }

  predicate Off(mode: string) {
    EqualFold(TrimSpace(mode), "off")
  }

  /** What `Apply` does with the config it found. */
  function ApplyConfig(body: Option<Json>, c: Config, fromSuffix: bool, info: Option<ModelInfo>, strict: bool)
    : Result<Option<Json>, Problem>
  {
    if !HasThinkingConfig(c) then Ok(body)
    else if body.None? then Err(InvalidJson)
    else if info.None? then Err(UnknownModel)
    else if info.value.thinking.None? || !info.value.supportsThinking then Ok(Some(StripThinkingConfig(body.value)))
    else match Validate(c, info.value.thinking, strict, fromSuffix)
      case Err(e) => Err(Refused(e))
      case Ok(v) => Ok(Some(ApplyGemini(body.value, v, info.value.thinking.value)))
  }

  function Apply(body: Option<Json>, model: string, info: Option<ModelInfo>, mode: string, strict: bool)
    : Result<Option<Json>, Problem>
  {
    if Off(mode) then Ok(body)
    else match ConfigFor(body, model)
      case Err(e) => Err(e)
      case Ok(c) => ApplyConfig(body, c, ParseSuffix(model).Suffix?, info, strict)
  }

  // ---- The members of thinkingConfig ----

  type Fields = map<string, Json>

  function FieldsOf(body: Json): Fields {
    match GetIn(body, [GENERATION, THINKING])
    case Some(Obj(fields)) => fields
    case _ => map[]
  }

  function WithFields(body: Json, m: Fields): Json {
    SetIn(body, [GENERATION, THINKING], Obj(m))
  }

  /** No array where an object is needed. */
  predicate Writable(body: Json) {
    && !body.Arr?
    && (Get(body, GENERATION).Some? ==> !Get(body, GENERATION).value.Arr?)
    && (GetIn(body, [GENERATION, THINKING]).Some? ==> !GetIn(body, [GENERATION, THINKING]).value.Arr?)
  }

  lemma PathTails(key: string)
    ensures [GENERATION, THINKING, key][1..] == [THINKING, key] && [THINKING, key][1..] == [key] && [key][1..] == []
    ensures [GENERATION, THINKING][1..] == [THINKING] && [THINKING][1..] == []
  {
  }

  function ThinkingOf(body: Json): Option<Json> {
    match Get(body, GENERATION)
    case None => None
    case Some(g) => Get(g, THINKING)
  }

  lemma PathsUnfold(body: Json, key: string, v: Json)
    ensures GetIn(body, [GENERATION, THINKING]) == ThinkingOf(body)
    ensures Field(body, key) == match ThinkingOf(body) case None => None case Some(t) => Get(t, key)
    ensures var g := if Get(body, GENERATION).Some? then Get(body, GENERATION).value else Obj(map[]);
            var t := if Get(g, THINKING).Some? then Get(g, THINKING).value else Obj(map[]);
            && SetIn(body, [GENERATION, THINKING], v) == With(body, GENERATION, With(g, THINKING, v))
            && Put(body, key, v) == With(body, GENERATION, With(g, THINKING, With(t, key, v)))
            && Drop(body, key) == (if ThinkingOf(body).None? then body
                                   else With(body, GENERATION, With(g, THINKING, Without(t, key))))
  {
    PathTails(key);
    var g := if Get(body, GENERATION).Some? then Get(body, GENERATION).value else Obj(map[]);
    var t := if Get(g, THINKING).Some? then Get(g, THINKING).value else Obj(map[]);
    assert GetIn(t, [key]) == Get(t, key);
    assert Get(g, THINKING).Some? ==> GetIn(g, [THINKING, key]) == GetIn(t, [key]);
    assert Get(g, THINKING).None? ==> GetIn(g, [THINKING, key]).None?;
    assert GetIn(g, [THINKING]) == Get(g, THINKING);
    assert SetIn(t, [key], v) == With(t, key, v);
    assert SetIn(g, [THINKING, key], v) == With(g, THINKING, With(t, key, v));
    assert SetIn(g, [THINKING], v) == With(g, THINKING, v);
    assert DeleteIn(t, [key]) == Without(t, key);
    if ThinkingOf(body).Some? {
      assert DeleteIn(g, [THINKING, key]) == With(g, THINKING, Without(t, key));
    } else if Get(body, GENERATION).Some? {
      assert DeleteIn(g, [THINKING, key]) == g;
      WithSame(body, GENERATION);
    }
  }

  lemma FieldIs(body: Json, key: string)
    ensures Field(body, key) == if key in FieldsOf(body) then Some(FieldsOf(body)[key]) else None
  {
    PathsUnfold(body, key, Null);
  }

  /** The laws of the lens: what was put is read back, and the last write wins. */
  lemma WriteFacts(body: Json, m: Fields, n: Fields)
    requires Writable(body)
    ensures var r := WithFields(body, m);
            Writable(r) && ThinkingOf(r) == Some(Obj(m)) && FieldsOf(r) == m && WithFields(r, n) == WithFields(body, n)
  {
    var r := WithFields(body, m);
    PathsUnfold(body, LEVEL, Obj(m));
    PathsUnfold(body, LEVEL, Obj(n));
    var g := if Get(body, GENERATION).Some? then Get(body, GENERATION).value else Obj(map[]);
    var h := With(g, THINKING, Obj(m));
    WithWith(g, THINKING, Obj(m), Obj(n));
    WithWith(body, GENERATION, h, With(g, THINKING, Obj(n)));
    assert r == With(body, GENERATION, h);
    PathsUnfold(r, LEVEL, Obj(n));
  }

  lemma PutIs(body: Json, key: string, v: Json)
    requires Writable(body)
    ensures Put(body, key, v) == WithFields(body, FieldsOf(body)[key := v])
  {
    PathsUnfold(body, key, v);
    PathsUnfold(body, key, Obj(FieldsOf(body)[key := v]));
  }

  lemma DropIs(body: Json, key: string, m: Fields)
    requires Writable(body)
    ensures var r := Drop(body, key);
            Writable(r) && FieldsOf(r) == FieldsOf(body) - {key} && WithFields(r, m) == WithFields(body, m)
  {
    PathsUnfold(body, key, Null);
    var t := ThinkingOf(body);
    if t.Some? && t.value.Obj? {
      var fields := t.value.fields;
      PathsUnfold(body, key, Obj(fields - {key}));
      assert Drop(body, key) == WithFields(body, fields - {key});
      WriteFacts(body, fields - {key}, m);
    } else if t.Some? {
      WithSame(body.fields[GENERATION], THINKING);
      WithSame(body, GENERATION);
      assert Drop(body, key) == body;
    }
  }

  lemma DropsAre(body: Json, a: string, b: string, c: string, d: string, m: Fields)
    requires Writable(body)
    ensures var r := Drop(Drop(Drop(Drop(body, a), b), c), d);
            Writable(r) && FieldsOf(r) == FieldsOf(body) - {a, b, c, d} && WithFields(r, m) == WithFields(body, m)
  {
    var r1 := Drop(body, a);
    DropIs(body, a, m);
    DropIs(r1, b, m);
    DropIs(Drop(r1, b), c, m);
    DropIs(Drop(Drop(r1, b), c), d, m);
    assert FieldsOf(body) - {a} - {b} - {c} - {d} == FieldsOf(body) - {a, b, c, d};
  }

  lemma PutsAre(body: Json, k: string, v: Json, l: string, w: Json)
    requires Writable(body)
    ensures Put(Put(body, k, v), l, w) == WithFields(body, FieldsOf(body)[k := v][l := w])
  {
    PutIs(body, k, v);
    WriteFacts(body, FieldsOf(body)[k := v], FieldsOf(body)[k := v][l := w]);
    PutIs(Put(body, k, v), l, w);
  }

  // ---- What is written, as a map ----

  function EitherOf(m: Fields, key: string, snake: string): Option<Json> {
    if key in m then Some(m[key]) else if snake in m then Some(m[snake]) else None
  }

  function ShownIn(m: Fields): Option<bool> {
    match EitherOf(m, THOUGHTS, THOUGHTS_SNAKE)
    case Some(v) => Some(AsBool(v))
    case None => None
  }

  function ExtractFrom(m: Fields): Config {
    match EitherOf(m, LEVEL, LEVEL_SNAKE)
    case Some(level) => LevelConfig(AsText(level))
    case None =>
      match EitherOf(m, BUDGET, BUDGET_SNAKE)
      case Some(budget) => BudgetConfig(AsInt(budget))
      case None => ZERO_CONFIG
  }

  lemma ReadsAre(body: Json)
    ensures ExtractConfig(body) == ExtractFrom(FieldsOf(body)) && ShownThoughts(body) == ShownIn(FieldsOf(body))
  {
    FieldIs(body, LEVEL);
    FieldIs(body, LEVEL_SNAKE);
    FieldIs(body, BUDGET);
    FieldIs(body, BUDGET_SNAKE);
    FieldIs(body, THOUGHTS);
    FieldIs(body, THOUGHTS_SNAKE);
  }

  const NOT_LEVEL := {BUDGET, BUDGET_SNAKE, LEVEL_SNAKE, THOUGHTS_SNAKE}
  const NOT_BUDGET := {LEVEL, LEVEL_SNAKE, BUDGET_SNAKE, THOUGHTS_SNAKE}

  function ThoughtsFor(m: Fields, c: Config): bool {
    match (c.mode, ShownIn(m))
    case (ModeNone, _) => false
    case (_, Some(shown)) => shown
    case (ModeBudget, None) => c.budget > 0
    case _ => true
  }

  function Rewritten(m: Fields, c: Config, support: Support): Fields {
    if WritesLevel(c, support) then
      (m - NOT_LEVEL)[LEVEL := Str(LevelToApiEnum(c.level))][THOUGHTS := Bool(ThoughtsFor(m, c))]
    else
      (m - NOT_BUDGET)[BUDGET := Num(c.budget)][THOUGHTS := Bool(ThoughtsFor(m, c))]
  }

  lemma LevelWritten(body: Json, c: Config, support: Support)
    requires Writable(body) && WritesLevel(c, support) && c.level != ""
    ensures ApplyLevelFormat(body, c) == WithFields(body, Rewritten(FieldsOf(body), c, support))
  {
    ReadsAre(body);
    var m := Rewritten(FieldsOf(body), c, support);
    var level, thoughts := Str(LevelToApiEnum(c.level)), Bool(ThoughtsFor(FieldsOf(body), c));
    DropsAre(body, BUDGET, BUDGET_SNAKE, LEVEL_SNAKE, THOUGHTS_SNAKE, m);
    var r := Drop(Drop(Drop(Drop(body, BUDGET), BUDGET_SNAKE), LEVEL_SNAKE), THOUGHTS_SNAKE);
    if c.mode.ModeNone? {
      PutsAre(r, THOUGHTS, thoughts, LEVEL, level);
      assert FieldsOf(r)[THOUGHTS := thoughts][LEVEL := level] == FieldsOf(r)[LEVEL := level][THOUGHTS := thoughts];
    } else {
      PutsAre(r, LEVEL, level, THOUGHTS, thoughts);
    }
  }

  lemma BudgetWritten(body: Json, c: Config, support: Support)
    requires Writable(body) && !WritesLevel(c, support)
    ensures ApplyBudgetFormat(body, c) == WithFields(body, Rewritten(FieldsOf(body), c, support))
  {
    ReadsAre(body);
    DropsAre(body, LEVEL, LEVEL_SNAKE, BUDGET_SNAKE, THOUGHTS_SNAKE, Rewritten(FieldsOf(body), c, support));
    var r := Drop(Drop(Drop(Drop(body, LEVEL), LEVEL_SNAKE), BUDGET_SNAKE), THOUGHTS_SNAKE);
    PutsAre(r, BUDGET, Num(c.budget), THOUGHTS, Bool(ThoughtsFor(FieldsOf(body), c)));
  }

  /** Only thinkingConfig is rewritten. */
  lemma WrittenIs(body: Json, c: Config, support: Support)
    requires Writable(body) && (WritesLevel(c, support) ==> c.level != "")
    ensures ApplyGemini(body, c, support) == WithFields(body, Rewritten(FieldsOf(body), c, support))
  {
    if WritesLevel(c, support) {
      LevelWritten(body, c, support);
    } else {
      BudgetWritten(body, c, support);
    }
  }

  // ---- The normal form ----

  const API_LEVELS := {"MINIMAL", "LOW", "MEDIUM", "HIGH"}

  /** Exactly one of level and budget, the flag, and no snake-case member. */
  predicate NormalForm(m: Fields) {
    && THOUGHTS in m && m[THOUGHTS].Bool?
    && (LEVEL in m <==> BUDGET !in m)
    && (LEVEL in m ==> m[LEVEL].Str? && m[LEVEL].chars in API_LEVELS)
    && (BUDGET in m ==> m[BUDGET].Num?)
    && {LEVEL_SNAKE, BUDGET_SNAKE, THOUGHTS_SNAKE} !! m.Keys
  }

  /** The levels the API has, and the two it has not. */
  const OFFICIAL := {"minimal", "low", "medium", "high"}
  const TOP := {"xhigh", "max"}

  /** Every listed level is one of the six that configuration accepts. */
  predicate StandardLevels(support: Support) {
    forall i :: 0 <= i < |support.levels| ==> LevelIndex(support.levels[i]) != -1
  }

  predicate GoodModel(support: Support) {
    GoodSupport(support) && StandardLevels(support)
  }

  lemma Respelled(level: string, api: string)
    requires |api| == |level| > 0 && !IsSpace(level[0]) && !IsSpace(level[|level| - 1])
    requires forall i :: 0 <= i < |api| ==> LowerChar(api[i]) == level[i] == LowerChar(level[i])
    ensures Canonical(level) == level == Canonical(api)
  {
    TrimOfTrimmed(level, IsSpace);
    TrimOfTrimmed(api, IsSpace);
    assert ToLower(api) == level && ToLower(level) == level;
  }

  /** The API spelling of an official level reads back as that level. */
  lemma OfficialRoundTrip(level: string)
    requires level in OFFICIAL
    ensures Canonical(level) == level
    ensures LevelToApiEnum(level) in API_LEVELS
    ensures LevelConfig(LevelToApiEnum(level)) == Config(ModeLevel, 0, level)
  {
    Respelled(level, LevelToApiEnum(level));
  }

  /** What a standard level is read back as: itself, or "high" for the two above it. */
  function Reread(level: string): string {
    if level in TOP then "high" else level
  }

  lemma StandardIsOfficialOrTop(level: string)
    requires LevelIndex(level) != -1 && Canonical(level) == level
    ensures level in OFFICIAL || level in TOP
    ensures level in TOP <==> LevelIndex(level) >= 4
  {
  }

  lemma StandardRereads(level: string)
    requires level in OFFICIAL || level in TOP
    ensures LevelToApiEnum(level) in API_LEVELS
    ensures LevelConfig(LevelToApiEnum(level)) == Config(ModeLevel, 0, Reread(level))
    ensures LevelToApiEnum(level) == LevelToApiEnum(Reread(level)) && Reread(level) in OFFICIAL
  {
    OfficialRoundTrip(Reread(level));
  }

  lemma SuffixExtracted(raw: string)
    requires SuffixConfig(raw).Some?
    ensures Extracted(SuffixConfig(raw).value)
  {
    CanonicalTwice(raw);
    if Canonical(raw) in STANDARD_ORDER {
      StandardLevel(Canonical(raw));
      SpecialWords();
    }
  }

  lemma LevelExtracted(text: string)
    requires HasThinkingConfig(LevelConfig(text))
    ensures Extracted(LevelConfig(text))
  {
    CanonicalTwice(text);
  }

  lemma BodyExtracted(body: Json)
    requires HasThinkingConfig(ExtractConfig(body))
    ensures Extracted(ExtractConfig(body))
  {
    var level := Either(body, LEVEL, LEVEL_SNAKE);
    if level.Some? {
      LevelExtracted(AsText(level.value));
    }
  }

  /** Both extractors yield configs of the shapes validation expects. */
  lemma ConfigIsExtracted(body: Option<Json>, model: string)
    requires ConfigFor(body, model).Ok? && HasThinkingConfig(ConfigFor(body, model).value)
    ensures Extracted(ConfigFor(body, model).value)
  {
    match ParseSuffix(model)
    case Suffix(_, raw) => SuffixExtracted(raw);
    case NoSuffix => BodyExtracted(body.value);
  }

  // ---- What validation hands to the writer ----

  /** A level comes from the list, unless it is the "medium" that stands in for "auto"; a budget
      is in the range, or is what an empty range makes of it. */
  predicate Writes(v: Config, support: Support) {
    && (WritesLevel(v, support) ==>
          && support.levels != [] && (v.level in OFFICIAL || v.level in TOP)
          && (HasLevel(support.levels, v.level) || v.level == "medium"))
    && (v.mode.ModeBudget? ==>
          && !Detect(support).LevelOnly? && 0 <= v.budget
          && (if EmptyRange(support) then v.budget == 0 || v.budget == support.min
              else support.min <= v.budget <= support.max))
    && (v.mode.ModeNone? ==> v.budget == if support.zeroAllowed then 0 else support.min)
    && (v.mode.ModeAuto? ==> support.dynamicAllowed && v.budget == -1)
  }

  lemma FoldedLevelIsCanonical(c: Config, support: Support)
    requires Extracted(c) && GoodSupport(support) && Converted(c, support).Ok?
    ensures var f := Folded(Converted(c, support).value.0);
            && (f.mode.ModeLevel? ==> Canonical(f.level) == f.level)
            && (f.mode.ModeNone? ==> f.level == "")
            && (f.mode.ModeBudget? ==> (f.budget < -1 <==> c.mode.ModeBudget? && c.budget < -1))
  {
    if Detect(support).LevelOnly? && c.mode.ModeBudget? && c.budget > 0 {
      var l := ConvertBudgetToLevel(c.budget).value;
      BudgetAsLevel(c.budget, support.levels);
      ClampedCanonical(l, support.levels);
    }
  }

  lemma ClampedCanonical(level: string, levels: seq<string>)
    requires Canonical(level) == level
    ensures Canonical(Clamped(level, levels)) == Clamped(level, levels)
  {
    var r := Clamped(level, levels);
    if r != level {
      var best := BestIndex(LevelIndex(level), levels);
      StandardIndex(best);
    }
  }

  /** Between the stages: the level is canonical, and the budget negative only if it came so. */
  predicate Stage(v: Config, c: Config) {
    && (v.mode.ModeLevel? ==> Canonical(v.level) == v.level)
    && (v.mode.ModeNone? ==> v.level == "" && v.budget == 0)
    && (v.mode.ModeBudget? ==> v.budget != 0 && (v.budget < -1 <==> c.mode.ModeBudget? && c.budget < -1))
    && (v.mode.ModeAuto? <==> c.mode.ModeAuto?)
  }

  lemma LevelledStage(c: Config, support: Support, clampAllowed: bool)
    requires Extracted(c) && GoodSupport(support) && Converted(c, support).Ok?
    requires Levelled(Folded(Converted(c, support).value.0), support, clampAllowed).Ok?
    ensures var v := Levelled(Folded(Converted(c, support).value.0), support, clampAllowed).value;
            Stage(v, c) && Shaped(v, support)
  {
    FoldedLevelIsCanonical(c, support);
    FoldedShape(c, support);
    var f := Folded(Converted(c, support).value.0);
    if f.mode.ModeLevel? {
      ClampedCanonical(f.level, support.levels);
    }
  }

  lemma ListedIsStandard(support: Support, level: string)
    requires StandardLevels(support) && HasLevel(support.levels, level)
    ensures LevelIndex(level) != -1 && support.levels != []
  {
  }

  /** The settled level, for a config whose stage has one or gets one. */
  lemma SettledLevel(l: Config, support: Support)
    requires GoodModel(support) && Shaped(l, support) && WritesLevel(Settled(l, support), support)
    requires (l.mode.ModeLevel? ==> Canonical(l.level) == l.level) && (l.mode.ModeNone? ==> l.level == "")
    requires l.mode.ModeAuto? ==> l.level == ""
    ensures var v := Settled(l, support);
            && support.levels != [] && (v.level in OFFICIAL || v.level in TOP)
            && (HasLevel(support.levels, v.level) || v.level == "medium")
  {
    var v := Settled(l, support);
    if v.level != "medium" {
      if !l.mode.ModeLevel? {
        CanonicalTwice(support.levels[0]);
        assert HasLevel(support.levels, v.level);
      }
      ListedIsStandard(support, v.level);
      StandardIsOfficialOrTop(v.level);
    }
  }

  lemma SettledBudget(l: Config, support: Support)
    requires GoodSupport(support) && Shaped(l, support) && !l.mode.ModeLevel?
    ensures var v := Settled(l, support);
            && (v.mode.ModeBudget? ==>
                  && !Detect(support).LevelOnly? && 0 <= v.budget
                  && (if EmptyRange(support) then v.budget == 0 || v.budget == support.min
                      else support.min <= v.budget <= support.max))
            && (v.mode.ModeNone? ==> v.budget == if support.zeroAllowed then 0 else support.min)
            && (v.mode.ModeAuto? ==> support.dynamicAllowed && v.budget == -1)
  {
  }

  lemma SettledWrites(l: Config, support: Support)
    requires GoodModel(support) && Shaped(l, support)
    requires (l.mode.ModeLevel? ==> Canonical(l.level) == l.level) && (l.mode.ModeNone? ==> l.level == "")
    requires l.mode.ModeAuto? ==> l.level == ""
    ensures Writes(Settled(l, support), support)
  {
    if WritesLevel(Settled(l, support), support) {
      SettledLevel(l, support);
    }
    if !l.mode.ModeLevel? {
      SettledBudget(l, support);
    }
  }

  /** The budget of an enabled model comes out as 0. */
  predicate LandsOnZero(c: Config, support: Support) {
    && !Detect(support).LevelOnly? && support.min == 0
    && ((c.mode.ModeBudget? && c.budget < -1) ||
        (c.mode.ModeAuto? && !support.dynamicAllowed && !support.zeroAllowed && support.max < 2))
  }

  lemma SettledZero(l: Config, c: Config, support: Support)
    requires GoodSupport(support) && !EmptyRange(support) && Stage(l, c) && Shaped(l, support)
    ensures var v := Settled(l, support);
            v.mode.ModeBudget? && v.budget == 0 <==> LandsOnZero(l, support)
  {
  }

  /** What validation accepts is fit to be written; where the range is not empty it lands on a
      zero budget exactly when a negative budget is raised to it or the middle of [0, 1] taken. */
  lemma ValidatedWrites(c: Config, support: Support, strict: bool, fromSuffix: bool)
    requires Extracted(c) && GoodModel(support) && Validate(c, Some(support), strict, fromSuffix).Ok?
    ensures var v := Validate(c, Some(support), strict, fromSuffix).value;
            && Writes(v, support)
            && (!EmptyRange(support) ==> (v.mode.ModeBudget? && v.budget == 0 <==> LandsOnZero(c, support)))
  {
    var l := Levelled(Folded(Converted(c, support).value.0), support, !strict || fromSuffix).value;
    LevelledStage(c, support, !strict || fromSuffix);
    assert c.mode.ModeAuto? ==> l == c;
    SettledWrites(l, support);
    if !EmptyRange(support) {
      SettledZero(l, c, support);
    }
  }

  // ---- The second time ----

  lemma LevelMembers(m: Fields, v: Config, support: Support)
    requires WritesLevel(v, support)
    ensures var n := Rewritten(m, v, support);
            && NOT_LEVEL !! n.Keys && {LEVEL, THOUGHTS} <= n.Keys
            && n[LEVEL] == Str(LevelToApiEnum(v.level)) && n[THOUGHTS] == Bool(ThoughtsFor(m, v))
  {
  }

  lemma BudgetMembers(m: Fields, v: Config, support: Support)
    requires !WritesLevel(v, support)
    ensures var n := Rewritten(m, v, support);
            && NOT_BUDGET !! n.Keys && {BUDGET, THOUGHTS} <= n.Keys
            && n[BUDGET] == Num(v.budget) && n[THOUGHTS] == Bool(ThoughtsFor(m, v))
  {
  }

  /** The written value is read back. */
  lemma ReExtract(m: Fields, v: Config, support: Support)
    requires Writes(v, support)
    ensures var n := Rewritten(m, v, support);
            && NormalForm(n) && ShownIn(n) == Some(ThoughtsFor(m, v))
            && ExtractFrom(n) ==
               (if WritesLevel(v, support) then Config(ModeLevel, 0, Reread(v.level)) else BudgetConfig(v.budget))
  {
    if WritesLevel(v, support) {
      LevelMembers(m, v, support);
      StandardRereads(v.level);
    } else {
      BudgetMembers(m, v, support);
    }
  }

  lemma FittingBudgetStays(budget: int, support: Support, strict: bool, fromSuffix: bool)
    requires GoodSupport(support) && !Detect(support).LevelOnly? && support.min <= budget <= support.max && budget > 0
    ensures Validate(Config(ModeBudget, budget, ""), Some(support), strict, fromSuffix) ==
            Ok(Config(ModeBudget, budget, ""))
  {
  }

  lemma NoneAndAutoStay(support: Support, strict: bool, fromSuffix: bool)
    requires GoodSupport(support)
    ensures Validate(Config(ModeNone, 0, ""), Some(support), strict, fromSuffix) ==
            Ok(Config(ModeNone, if support.zeroAllowed then 0 else support.min,
                      if support.levels == [] then "" else Canonical(support.levels[0])))
    ensures support.dynamicAllowed ==>
              Validate(Config(ModeAuto, -1, ""), Some(support), strict, fromSuffix) == Ok(Config(ModeAuto, -1, ""))
  {
  }

  /** Rewriting again with a value of the same kind changes nothing exactly if the value and the
      flag are the same. */
  lemma RewriteAgain(m: Fields, v: Config, w: Config, support: Support)
    requires WritesLevel(v, support) == WritesLevel(w, support)
    ensures var n := Rewritten(m, v, support);
            Rewritten(n, w, support) == n <==>
            && ThoughtsFor(n, w) == ThoughtsFor(m, v)
            && (if WritesLevel(v, support) then LevelToApiEnum(v.level) == LevelToApiEnum(w.level)
                else v.budget == w.budget)
  {
    var n := Rewritten(m, v, support);
    if WritesLevel(v, support) {
      LevelMembers(m, v, support);
      LevelMembers(n, w, support);
      assert n - NOT_LEVEL == n;
      assert n[LEVEL := n[LEVEL]][THOUGHTS := n[THOUGHTS]] == n;
    } else {
      BudgetMembers(m, v, support);
      BudgetMembers(n, w, support);
      assert n - NOT_BUDGET == n;
      assert n[BUDGET := n[BUDGET]][THOUGHTS := n[THOUGHTS]] == n;
    }
  }

  // ---- Reading a level again ----

  /** A standard level that is not listed has a listed stand-in. */
  lemma StandIn(level: string, support: Support)
    requires StandardLevels(support) && support.levels != [] && level in OFFICIAL && !HasLevel(support.levels, level)
    ensures Clamped(level, support.levels) != level && HasLevel(support.levels, Clamped(level, support.levels))
  {
    OfficialIsStandard(level);
    ClampedIsNearest(level, support.levels);
    assert LevelIndex(support.levels[0]) != -1;
  }

  /** A level that is not listed becomes another one, or is refused where checking is strict. */
  lemma LevelAgain(level: string, support: Support, strict: bool)
    requires GoodModel(support) && support.levels != [] && level in OFFICIAL
    ensures var r := Validate(Config(ModeLevel, 0, level), Some(support), strict, false);
            if HasLevel(support.levels, level) then r == Ok(Config(ModeLevel, 0, level))
            else if strict then r == Err(LevelNotAllowed(level))
            else r == Ok(Config(ModeLevel, 0, Clamped(level, support.levels)))
  {
    var c := Config(ModeLevel, 0, level);
    assert Converted(c, support) == Ok((c, false)) && Folded(c) == c;
    if !HasLevel(support.levels, level) {
      StandIn(level, support);
    }
  }

  lemma OfficialIsStandard(level: string)
    requires level in OFFICIAL
    ensures LevelIndex(level) != -1
  {
    OfficialRoundTrip(level);
  }

  predicate ListsIndex(levels: seq<string>, k: int) {
    exists i :: 0 <= i < |levels| && LevelIndex(levels[i]) == k
  }

  /** Listing a standard level is listing its index. */
  lemma ListedAt(levels: seq<string>, k: nat)
    requires k < 6
    ensures HasLevel(levels, STANDARD_ORDER[k]) <==> ListsIndex(levels, k)
  {
    StandardIndex(k);
    if HasLevel(levels, STANDARD_ORDER[k]) {
      var i :| 0 <= i < |levels| && Canonical(levels[i]) == Canonical(STANDARD_ORDER[k]);
      assert LevelIndex(levels[i]) == k;
    }
    if i :| 0 <= i < |levels| && LevelIndex(levels[i]) == k {
      SameIndexSameLevel(levels[i], STANDARD_ORDER[k]);
    }
  }

  /** The listed index nearest to that of "high". */
  lemma HighIndexGoesUp(levels: seq<string>)
    requires !ListsIndex(levels, 3) && (ListsIndex(levels, 4) || ListsIndex(levels, 5))
    ensures ListsIndex(levels, BestIndex(3, levels))
    ensures BestIndex(3, levels) >= 4 <==> !ListsIndex(levels, 2) && (ListsIndex(levels, 4) || !ListsIndex(levels, 1))
  {
    BestIndexIs(3, levels);
    var best := BestIndex(3, levels);
    forall k | 0 <= k < 6 && ListsIndex(levels, k)
      ensures best != -1 && !Nearer(3, k, best)
    {
      var i :| 0 <= i < |levels| && LevelIndex(levels[i]) == k;
    }
    assert ListsIndex(levels, best);
  }

  /** Reading HIGH back where "high" is not listed ends at one of the two levels above it. */
  lemma HighGoesUp(support: Support)
    requires GoodModel(support) && !HasLevel(support.levels, "high")
    requires HasLevel(support.levels, "xhigh") || HasLevel(support.levels, "max")
    ensures Clamped("high", support.levels) in TOP <==>
            !HasLevel(support.levels, "medium") &&
            (HasLevel(support.levels, "xhigh") || !HasLevel(support.levels, "low"))
  {
    var levels := support.levels;
    ListedAt(levels, 1);
    ListedAt(levels, 2);
    ListedAt(levels, 3);
    ListedAt(levels, 4);
    ListedAt(levels, 5);
    assert STANDARD_ORDER[1] == "low" && STANDARD_ORDER[2] == "medium" && STANDARD_ORDER[3] == "high";
    assert STANDARD_ORDER[4] == "xhigh" && STANDARD_ORDER[5] == "max";
    HighIndexGoesUp(levels);
    HighIsClamped(levels);
  }

  lemma HighIsClamped(levels: seq<string>)
    requires !HasLevel(levels, "high") && levels != [] && 0 <= BestIndex(3, levels) < 6
    ensures Clamped("high", levels) == STANDARD_ORDER[BestIndex(3, levels)]
    ensures Clamped("high", levels) in TOP <==> BestIndex(3, levels) >= 4
  {
    StandardIndex(3);
    assert STANDARD_ORDER[3] == "high";
  }

  /** HIGH, written for one of the two levels above "high", is sent as HIGH again. */
  predicate HighStays(support: Support, strict: bool) {
    || HasLevel(support.levels, "high")
    || (!strict && !HasLevel(support.levels, "medium") &&
        (HasLevel(support.levels, "xhigh") || !HasLevel(support.levels, "low")))
  }

  /** Without a suffix, what was written is read back to the same effect. */
  predicate ReadsBackSame(v: Config, m: Fields, support: Support, strict: bool) {
    if WritesLevel(v, support) then
      if v.level in TOP then HighStays(support, strict) else HasLevel(support.levels, v.level)
    else if v.mode.ModeAuto? then true
    else if v.budget > 0 then v.budget <= support.max
    else
      || v.mode.ModeNone?
      || (support.levels == [] && (support.zeroAllowed || support.min == 0) && ShownIn(m) != Some(true))
  }

  /** The second reading is accepted and rewrites the members to themselves. */
  predicate Settles(n: Fields, support: Support, strict: bool) {
    var second := Validate(ExtractFrom(n), Some(support), strict, false);
    second.Ok? && Rewritten(n, second.value, support) == n
  }

  lemma OnlyOfficialSpeltSame(a: string, b: string)
    requires (a in OFFICIAL || a in TOP) && b in OFFICIAL
    ensures LevelToApiEnum(a) == LevelToApiEnum(b) <==> Reread(a) == b
  {
  }

  lemma LevelSettles(m: Fields, v: Config, support: Support, strict: bool)
    requires GoodModel(support) && Writes(v, support) && WritesLevel(v, support)
    ensures var second := Validate(ExtractFrom(Rewritten(m, v, support)), Some(support), strict, false);
            && (second.Ok? ==> WritesLevel(second.value, support) && second.value.level != "")
            && (Settles(Rewritten(m, v, support), support, strict) <==> ReadsBackSame(v, m, support, strict))
  {
    var n, again := Rewritten(m, v, support), Reread(v.level);
    ReExtract(m, v, support);
    StandardRereads(v.level);
    LevelAgain(again, support, strict);
    if HasLevel(support.levels, again) {
      RewriteAgain(m, v, Config(ModeLevel, 0, again), support);
    } else if !strict {
      StandIn(again, support);
      ClampedSettles(m, v, support);
    }
  }

  lemma ClampedSettles(m: Fields, v: Config, support: Support)
    requires GoodModel(support) && Writes(v, support) && WritesLevel(v, support)
    requires !HasLevel(support.levels, Reread(v.level))
    ensures var w := Config(ModeLevel, 0, Clamped(Reread(v.level), support.levels));
            && w.level != ""
            && (Rewritten(Rewritten(m, v, support), w, support) == Rewritten(m, v, support) <==>
                v.level in TOP && HighStays(support, false))
  {
    var again := Reread(v.level);
    var other := Clamped(again, support.levels);
    StandardRereads(v.level);
    StandIn(again, support);
    ReExtract(m, v, support);
    RewriteAgain(m, v, Config(ModeLevel, 0, other), support);
    OfficialRoundTrip(again);
    ClampedCanonical(again, support.levels);
    ListedIsStandard(support, other);
    StandardIsOfficialOrTop(other);
    OnlyOfficialSpeltSame(other, again);
    if v.level in TOP {
      HighGoesUp(support);
    }
  }

  lemma BudgetSettles(m: Fields, v: Config, support: Support, strict: bool)
    requires GoodModel(support) && Writes(v, support) && !WritesLevel(v, support)
    ensures var second := Validate(ExtractFrom(Rewritten(m, v, support)), Some(support), strict, false);
            && (second.Ok? && WritesLevel(second.value, support) ==> second.value.level != "")
            && (Settles(Rewritten(m, v, support), support, strict) <==> ReadsBackSame(v, m, support, strict))
  {
    var n := Rewritten(m, v, support);
    ReExtract(m, v, support);
    NoneAndAutoStay(support, strict, false);
    if v.mode.ModeAuto? {
      RewriteAgain(m, v, Config(ModeAuto, -1, ""), support);
    } else if v.budget > 0 {
      PositiveSettles(m, v, support, strict);
    } else {
      ZeroSettles(m, v, support, strict);
    }
  }

  lemma PositiveSettles(m: Fields, v: Config, support: Support, strict: bool)
    requires GoodModel(support) && Writes(v, support) && !WritesLevel(v, support) && !v.mode.ModeAuto? && v.budget > 0
    ensures Settles(Rewritten(m, v, support), support, strict) <==> v.budget <= support.max
    ensures var second := Validate(ExtractFrom(Rewritten(m, v, support)), Some(support), strict, false);
            second.Ok? ==> second.value.mode.ModeBudget?
  {
    ReExtract(m, v, support);
    if v.budget <= support.max {
      FittingBudgetStays(v.budget, support, strict, false);
      RewriteAgain(m, v, Config(ModeBudget, v.budget, ""), support);
    } else {
      EmptyRangeBudget(v.budget, support, strict, false);
      RewriteAgain(m, v, Config(ModeBudget, 0, ""), support);
    }
  }

  lemma ZeroSettles(m: Fields, v: Config, support: Support, strict: bool)
    requires GoodModel(support) && Writes(v, support) && !WritesLevel(v, support) && v.budget == 0
    ensures Settles(Rewritten(m, v, support), support, strict) <==> ReadsBackSame(v, m, support, strict)
    ensures var second := Validate(ExtractFrom(Rewritten(m, v, support)), Some(support), strict, false);
            second.Ok? && (WritesLevel(second.value, support) ==> second.value.level != "")
  {
    var n := Rewritten(m, v, support);
    ReExtract(m, v, support);
    NoneAndAutoStay(support, strict, false);
    var w := Validate(ExtractFrom(n), Some(support), strict, false).value;
    if support.levels == [] {
      RewriteAgain(m, v, w, support);
    } else {
      BudgetMembers(m, v, support);
      LevelMembers(n, w, support);
      FirstLevelNotBlank(support);
    }
  }

  lemma FirstLevelNotBlank(support: Support)
    requires StandardLevels(support) && support.levels != []
    ensures Canonical(support.levels[0]) != ""
  {
    assert LevelIndex(support.levels[0]) != -1;
  }

  // ---- Main results ----

  function Supporting(support: Support): Option<ModelInfo> {
    Some(ModelInfo(Some(support), true))
  }

  /** `Apply` reaches its writing step for a model with this support. */
  predicate Writing(body: Json, model: string, support: Support, mode: string, strict: bool) {
    && !Off(mode) && Writable(body) && GoodModel(support)
    && ConfigFor(Some(body), model).Ok? && HasThinkingConfig(ConfigFor(Some(body), model).value)
    && Apply(Some(body), model, Supporting(support), mode, strict).Ok?
  }

  /** The config that is written. */
  function Validated(body: Json, model: string, support: Support, mode: string, strict: bool): Config
    requires Writing(body, model, support, mode, strict)
  {
    Validate(ConfigFor(Some(body), model).value, Some(support), strict, ParseSuffix(model).Suffix?).value
  }

  lemma WritingMeans(body: Json, model: string, support: Support, mode: string, strict: bool)
    requires Writing(body, model, support, mode, strict)
    ensures Apply(Some(body), model, Supporting(support), mode, strict) ==
            Ok(Some(ApplyGemini(body, Validated(body, model, support, mode, strict), support)))
  {
  }

  lemma WritingStep(body: Json, model: string, support: Support, mode: string, strict: bool) returns (r: Json)
    requires Writing(body, model, support, mode, strict)
    ensures var v := Validated(body, model, support, mode, strict);
            && Writes(v, support)
            && r == ApplyGemini(body, v, support) == WithFields(body, Rewritten(FieldsOf(body), v, support))
            && Writable(r) && FieldsOf(r) == Rewritten(FieldsOf(body), v, support)
    ensures Apply(Some(body), model, Supporting(support), mode, strict) == Ok(Some(r))
  {
    var v := Validated(body, model, support, mode, strict);
    WritingMeans(body, model, support, mode, strict);
    ConfigIsExtracted(Some(body), model);
    ValidatedWrites(ConfigFor(Some(body), model).value, support, strict, ParseSuffix(model).Suffix?);
    r := ApplyGemini(body, v, support);
    if WritesLevel(v, support) {
      LevelNotBlank(v, support);
    }
    WrittenIs(body, v, support);
    WriteFacts(body, Rewritten(FieldsOf(body), v, support), map[]);
  }

  lemma LevelNotBlank(v: Config, support: Support)
    requires Writes(v, support) && WritesLevel(v, support)
    ensures v.level != ""
  {
  }

  /** A successful `Apply` that writes a config leaves exactly one of level and budget, the
      flag, no snake-case member, and everything outside thinkingConfig as it was. */
  lemma ApplyReachesNormalForm(body: Json, model: string, support: Support, mode: string, strict: bool)
    requires Writing(body, model, support, mode, strict)
    ensures var r := Apply(Some(body), model, Supporting(support), mode, strict).value.value;
            NormalForm(FieldsOf(r)) && r == WithFields(body, FieldsOf(r))
  {
    var r := WritingStep(body, model, support, mode, strict);
    ReExtract(FieldsOf(body), Validated(body, model, support, mode, strict), support);
  }

  /** Applying it again with the same model changes nothing exactly if the model has a suffix or
      what was written is read back to the same effect. */
  lemma ApplyTwice(body: Json, model: string, support: Support, mode: string, strict: bool)
    requires Writing(body, model, support, mode, strict)
    ensures var r := Apply(Some(body), model, Supporting(support), mode, strict).value;
            Apply(r, model, Supporting(support), mode, strict) == Ok(r) <==>
            || ParseSuffix(model).Suffix?
            || ReadsBackSame(Validated(body, model, support, mode, strict), FieldsOf(body), support, strict)
  {
    var v := Validated(body, model, support, mode, strict);
    var r := WritingStep(body, model, support, mode, strict);
    if ParseSuffix(model).Suffix? {
      SuffixAgain(body, r, v, support);
    } else {
      ConfigFromBody(r, model);
      ReadAgain(body, r, v, support, strict);
    }
  }

  lemma SuffixAgain(body: Json, r: Json, v: Config, support: Support)
    requires Writable(body) && Writable(r) && Writes(v, support)
    requires r == WithFields(body, Rewritten(FieldsOf(body), v, support))
    requires FieldsOf(r) == Rewritten(FieldsOf(body), v, support)
    ensures ApplyGemini(r, v, support) == r
  {
    ReExtract(FieldsOf(body), v, support);
    RewriteAgain(FieldsOf(body), v, v, support);
    SecondWriting(body, r, v, v, support);
  }

  /** The second `Apply` of a model without a suffix. */
  lemma ReadAgain(body: Json, r: Json, v: Config, support: Support, strict: bool)
    requires GoodModel(support)
    requires Writable(body) && Writable(r) && Writes(v, support)
    requires r == WithFields(body, Rewritten(FieldsOf(body), v, support))
    requires FieldsOf(r) == Rewritten(FieldsOf(body), v, support)
    ensures ApplyConfig(Some(r), ExtractFrom(FieldsOf(r)), false, Supporting(support), strict) == Ok(Some(r)) <==>
            ReadsBackSame(v, FieldsOf(body), support, strict)
  {
    var m, n := FieldsOf(body), FieldsOf(r);
    ReExtract(m, v, support);
    RereadHasConfig(v, support);
    if WritesLevel(v, support) {
      LevelSettles(m, v, support, strict);
    } else {
      BudgetSettles(m, v, support, strict);
    }
    var second := Validate(ExtractFrom(n), Some(support), strict, false);
    if second.Ok? {
      SecondWriting(body, r, v, second.value, support);
    }
  }

  lemma RereadHasConfig(v: Config, support: Support)
    requires Writes(v, support)
    ensures HasThinkingConfig(
              if WritesLevel(v, support) then Config(ModeLevel, 0, Reread(v.level)) else BudgetConfig(v.budget))
  {
  }

  lemma SecondWriting(body: Json, r: Json, v: Config, w: Config, support: Support)
    requires Writable(body) && Writable(r)
    requires r == WithFields(body, Rewritten(FieldsOf(body), v, support))
    requires FieldsOf(r) == Rewritten(FieldsOf(body), v, support)
    requires WritesLevel(w, support) ==> w.level != ""
    ensures ApplyGemini(r, w, support) == r <==> Rewritten(FieldsOf(r), w, support) == FieldsOf(r)
  {
    var n := FieldsOf(r);
    var again := Rewritten(n, w, support);
    WrittenIs(r, w, support);
    WriteFacts(r, again, n);
    WriteFacts(body, n, again);
    WriteFacts(body, n, n);
  }

  /** With the four official levels, a maximum of at least 2 where there are budgets, a budget
      of at least -1 asked for, and "auto" either possible or answered from the list, that is
      always so. */
  lemma ApplySettles(body: Json, model: string, support: Support, mode: string, strict: bool)
    requires Writing(body, model, support, mode, strict)
    requires forall i :: 0 <= i < |support.levels| ==> Canonical(support.levels[i]) in OFFICIAL
    requires !EmptyRange(support) && (support.max > 0 ==> support.max >= 2)
    requires var c := ConfigFor(Some(body), model).value;
             (c.mode.ModeBudget? ==> c.budget >= -1) && !MediumUnchecked(c, support)
    ensures var r := Apply(Some(body), model, Supporting(support), mode, strict).value;
            Apply(r, model, Supporting(support), mode, strict) == Ok(r)
  {
    var c, v := ConfigFor(Some(body), model).value, Validated(body, model, support, mode, strict);
    var fromSuffix := ParseSuffix(model).Suffix?;
    ConfigIsExtracted(Some(body), model);
    WritingMeans(body, model, support, mode, strict);
    ValidatedWrites(c, support, strict, fromSuffix);
    AcceptedConfigsRespectModel(c, support, strict, fromSuffix);
    if WritesLevel(v, support) {
      OfficialListed(c, v, support, strict, fromSuffix);
    }
    ApplyTwice(body, model, support, mode, strict);
  }

  /** Where only official levels are listed and "auto" is not answered with another, the level
      that is written is listed and official. */
  lemma OfficialListed(c: Config, v: Config, support: Support, strict: bool, fromSuffix: bool)
    requires Extracted(c) && GoodModel(support) && Validate(c, Some(support), strict, fromSuffix) == Ok(v)
    requires forall i :: 0 <= i < |support.levels| ==> Canonical(support.levels[i]) in OFFICIAL
    requires WritesLevel(v, support) && Writes(v, support) && !SlipsThrough(c, support)
    ensures HasLevel(support.levels, v.level) && v.level !in TOP
  {
    AcceptedConfigsRespectModel(c, support, strict, fromSuffix);
    if v.mode.ModeNone? {
      NoneLevel(c, v, support, strict, fromSuffix);
      CanonicalTwice(support.levels[0]);
      assert HasLevel(support.levels, v.level);
    }
    var i :| 0 <= i < |support.levels| && Canonical(support.levels[i]) == Canonical(v.level);
    if v.level in TOP {
      TopIsCanonical(v.level);
      assert false;
    }
  }

  lemma TopIsCanonical(level: string)
    requires level in TOP
    ensures Canonical(level) == level
  {
    StandardIndex(4);
    StandardIndex(5);
    assert STANDARD_ORDER[4] == "xhigh" && STANDARD_ORDER[5] == "max";
  }

  lemma NoneLevel(c: Config, v: Config, support: Support, strict: bool, fromSuffix: bool)
    requires Extracted(c) && GoodModel(support) && Validate(c, Some(support), strict, fromSuffix) == Ok(v)
    requires v.mode.ModeNone? && support.levels != []
    ensures v.level == Canonical(support.levels[0])
  {
    LevelledStage(c, support, !strict || fromSuffix);
  }

  /** A level above "high" is sent as HIGH and read back as "high": the second `Apply` changes
      nothing exactly if that is sent as HIGH again, and where checking is strict and "high" is not
      listed it is refused altogether. */
  lemma TopLevelAgain(body: Json, model: string, support: Support, mode: string, strict: bool)
    requires Writing(body, model, support, mode, strict)
    ensures var v := Validated(body, model, support, mode, strict);
            var r := Apply(Some(body), model, Supporting(support), mode, strict).value;
            ParseSuffix(model).NoSuffix? && WritesLevel(v, support) && v.level in TOP ==>
              && (Apply(r, model, Supporting(support), mode, strict) == Ok(r) <==> HighStays(support, strict))
              && (strict && !HasLevel(support.levels, "high") ==>
                    Apply(r, model, Supporting(support), mode, strict) == Err(Refused(LevelNotAllowed("high"))))
  {
    var v := Validated(body, model, support, mode, strict);
    if ParseSuffix(model).NoSuffix? && WritesLevel(v, support) && v.level in TOP {
      ApplyTwice(body, model, support, mode, strict);
      var r := WritingStep(body, model, support, mode, strict);
      ReExtract(FieldsOf(body), v, support);
      ConfigFromBody(r, model);
      RereadHasConfig(v, support);
      LevelAgain("high", support, strict);
    }
  }

  /** The request that asks for a level and nothing else. */
  function LevelRequest(level: string): Json {
    Obj(map[GENERATION := Obj(map[THINKING := Obj(map[LEVEL := Str(level)])])])
  }

  lemma LevelRequestReads(level: string)
    ensures Writable(LevelRequest(level)) && FieldsOf(LevelRequest(level)) == map[LEVEL := Str(level)]
  {
    PathsUnfold(LevelRequest(level), LEVEL, Null);
  }

  lemma LevelRequestAsks(level: string)
    requires level in TOP
    ensures ExtractFrom(FieldsOf(LevelRequest(level))) == Config(ModeLevel, 0, level)
  {
    LevelRequestReads(level);
    TopIsCanonical(level);
  }

  lemma ListedLevelStays(level: string, support: Support)
    requires level in TOP && HasLevel(support.levels, level) && GoodModel(support)
    ensures Validate(Config(ModeLevel, 0, level), Some(support), true, false) == Ok(Config(ModeLevel, 0, level))
  {
    TopIsCanonical(level);
  }

  lemma LevelRequestWrites(level: string, model: string, support: Support, mode: string)
    requires level in TOP && HasLevel(support.levels, level) && GoodModel(support)
    ensures !Off(mode) && ParseSuffix(model).NoSuffix? ==>
              && Writing(LevelRequest(level), model, support, mode, true)
              && Validated(LevelRequest(level), model, support, mode, true) == Config(ModeLevel, 0, level)
  {
    if !Off(mode) && ParseSuffix(model).NoSuffix? {
      LevelRequestReads(level);
      LevelRequestAsks(level);
      ListedLevelStays(level, support);
      ConfigFromBody(LevelRequest(level), model);
    }
  }

  /** For instance, in strict mode a model that lists `xhigh` or `max` but not "high" accepts the
      request for that level, and refuses what it made of it. */
  lemma TopLevelRefusesItself(level: string, model: string, support: Support, mode: string)
    requires level in TOP && HasLevel(support.levels, level) && !HasLevel(support.levels, "high")
    requires GoodModel(support)
    ensures !Off(mode) && ParseSuffix(model).NoSuffix? ==>
              var r := Apply(Some(LevelRequest(level)), model, Supporting(support), mode, true);
              && Writing(LevelRequest(level), model, support, mode, true) && r.Ok?
              && Apply(r.value, model, Supporting(support), mode, true) == Err(Refused(LevelNotAllowed("high")))
  {
    var body := LevelRequest(level);
    if !Off(mode) && ParseSuffix(model).NoSuffix? {
      LevelRequestWrites(level, model, support, mode);
      TopLevelAgain(body, model, support, mode, true);
    }
  }

  lemma ConfigFromBody(body: Json, model: string)
    requires ParseSuffix(model).NoSuffix?
    ensures ConfigFor(Some(body), model) == Ok(ExtractFrom(FieldsOf(body)))
  {
    ReadsAre(body);
  }

  /** A budget the model allows reaches the writing step and is written as it is. */
  lemma FittingBudgetIsWritten(body: Json, model: string, support: Support, mode: string, strict: bool, budget: int)
    requires Writable(body)
    requires ExtractFrom(FieldsOf(body)) == Config(ModeBudget, budget, "")
    requires GoodModel(support) && !Detect(support).LevelOnly?
    requires 0 < budget && support.min <= budget <= support.max
    ensures !Off(mode) && ParseSuffix(model).NoSuffix? ==>
              && Writing(body, model, support, mode, strict)
              && var r := Apply(Some(body), model, Supporting(support), mode, strict).value;
                 r.Some? && BUDGET in FieldsOf(r.value) && FieldsOf(r.value)[BUDGET] == Num(budget)
  {
    if !Off(mode) && ParseSuffix(model).NoSuffix? {
      var c := Config(ModeBudget, budget, "");
      ConfigFromBody(body, model);
      FittingBudgetStays(budget, support, strict, false);
      var r := ApplyGemini(body, c, support);
      assert ApplyConfig(Some(body), c, false, Supporting(support), strict) == Ok(Some(r));
      WrittenIs(body, c, support);
      WriteFacts(body, Rewritten(FieldsOf(body), c, support), map[]);
      BudgetMembers(FieldsOf(body), c, support);
    }
  }

  /** Where nothing is written, a second `Apply` changes nothing either. */
  lemma UnwrittenStays(body: Option<Json>, model: string, info: Option<ModelInfo>, mode: string, strict: bool)
    requires Apply(body, model, info, mode, strict).Ok?
    requires info.None? || info.value.thinking.None? || !info.value.supportsThinking || Off(mode) ||
             !HasThinkingConfig(ConfigFor(body, model).value)
    ensures var r := Apply(body, model, info, mode, strict).value;
            Apply(r, model, info, mode, strict) == Ok(r)
  {
    if !Off(mode) && HasThinkingConfig(ConfigFor(body, model).value) {
      StripFacts(body.value);
    }
  }

  lemma StripFacts(body: Json)
    ensures var r := StripThinkingConfig(body); StripThinkingConfig(r) == r && ExtractConfig(r) == ZERO_CONFIG
  {
    var r := StripThinkingConfig(body);
    assert [GENERATION, THINKING][1..] == [THINKING];
    PathsUnfold(r, LEVEL, Null);
    ReadsAre(r);
    if Get(body, GENERATION).Some? {
      var g := Get(body, GENERATION).value;
      assert DeleteIn(g, [THINKING]) == Without(g, THINKING);
      assert r == With(body, GENERATION, Without(g, THINKING));
      assert Without(Without(g, THINKING), THINKING) == Without(g, THINKING);
      assert DeleteIn(Without(g, THINKING), [THINKING]) == Without(g, THINKING);
      assert Get(r, GENERATION) == Some(Without(g, THINKING));
      WithSame(r, GENERATION);
    }
  }
}
