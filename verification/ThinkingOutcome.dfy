/** What a request for thinking comes to, kind by kind, said without the steps that get it there
    (internal/thinking/thinking.go). */
module ThinkingOutcome {
  import opened Prelude
  import opened Json
  import opened Thinking
  import opened ThinkingApply

  // ---- Budgets ----

  function Distance(a: int, b: int): nat {
    if a < b then b - a else a - b
  }

  /** `r` is the value between `lo` and `hi` that is nearest to `value`. */
  ghost predicate NearestBetween(value: int, lo: int, hi: int, r: int) {
    lo <= r <= hi && forall x :: lo <= x <= hi ==> Distance(value, r) <= Distance(value, x)
  }

  lemma NearestIs(value: int, lo: int, hi: int, r: int)
    requires lo <= hi && r == if value < lo then lo else if value > hi then hi else value
    ensures NearestBetween(value, lo, hi, r)
  {
  }

  predicate TakesBudgets(support: Support) {
    Configurable(support) && !EmptyRange(support) && support.max > 0
  }

  /** Asking for a budget in the range gets it. One outside it is refused where checking is strict
      and the request came in the body, and otherwise becomes the nearest one in the range. */
  lemma BudgetOutcome(budget: int, support: Support, strict: bool, fromSuffix: bool)
    requires TakesBudgets(support) && budget != 0 && budget != -1
    ensures var r := Validate(Config(ModeBudget, budget, ""), Some(support), strict, fromSuffix);
            if strict && !fromSuffix && !(support.min <= budget <= support.max) then r == Err(BudgetOutOfRange(budget))
            else r.Ok? && r.value.mode.ModeBudget? && r.value.level == "" &&
                 NearestBetween(budget, support.min, support.max, r.value.budget)
  {
    var r := Validate(Config(ModeBudget, budget, ""), Some(support), strict, fromSuffix);
    if r.Ok? {
      NearestIs(budget, support.min, support.max, r.value.budget);
    }
  }

  /** The budgets that the levels stand for. */
  const LEVEL_BUDGETS := map[
    "minimal" := 512, "low" := 1024, "medium" := 8192, "high" := 24576, "xhigh" := 32768, "max" := 128000]

  lemma StandardBudget(level: string)
    ensures level in LEVEL_BUDGETS <==> level in STANDARD_ORDER
    ensures level in LEVEL_BUDGETS ==> ConvertLevelToBudget(level) == Some(LEVEL_BUDGETS[level])
  {
    assert STANDARD_ORDER[0] == "minimal" && STANDARD_ORDER[1] == "low" && STANDARD_ORDER[2] == "medium";
    assert STANDARD_ORDER[3] == "high" && STANDARD_ORDER[4] == "xhigh" && STANDARD_ORDER[5] == "max";
    if level in LEVEL_BUDGETS {
      StandardLevel(level);
    }
  }

  /** A model with budgets only takes the budget a level stands for, brought into its range and
      never refused; any other word is. */
  lemma LevelAtBudgetModel(level: string, support: Support, strict: bool, fromSuffix: bool)
    requires TakesBudgets(support) && support.levels == [] && Extracted(Config(ModeLevel, 0, level))
    ensures var r := Validate(Config(ModeLevel, 0, level), Some(support), strict, fromSuffix);
            if level !in LEVEL_BUDGETS then r == Err(UnknownLevel(level))
            else r.Ok? && r.value.mode.ModeBudget? && r.value.level == "" &&
                 NearestBetween(LEVEL_BUDGETS[level], support.min, support.max, r.value.budget)
  {
    StandardBudget(level);
    if level !in LEVEL_BUDGETS {
      UnknownWord(level);
    } else {
      var r := Validate(Config(ModeLevel, 0, level), Some(support), strict, fromSuffix);
      NearestIs(LEVEL_BUDGETS[level], support.min, support.max, r.value.budget);
    }
  }

  lemma UnknownWord(level: string)
    requires Extracted(Config(ModeLevel, 0, level)) && level !in LEVEL_BUDGETS
    ensures ConvertLevelToBudget(level).None?
  {
  }

  // ---- Levels ----

  /** `r` is the listed level nearest to `level` in the standard order, the lower of two as near. */
  predicate NearestListed(level: string, levels: seq<string>, r: string) {
    && HasLevel(levels, r) && LevelIndex(r) != -1
    && forall i :: 0 <= i < |levels| && LevelIndex(levels[i]) != -1 ==>
         var mine, other := Distance(LevelIndex(level), LevelIndex(r)),
                            Distance(LevelIndex(level), LevelIndex(levels[i]));
         mine < other || (mine == other && LevelIndex(r) <= LevelIndex(levels[i]))
  }

  lemma ClampedIsNearestListed(level: string, levels: seq<string>)
    requires levels != [] && LevelIndex(level) != -1 && forall i :: 0 <= i < |levels| ==> LevelIndex(levels[i]) != -1
    ensures NearestListed(level, levels, Clamped(level, levels))
  {
    ClampedIsNearest(level, levels);
    assert LevelIndex(levels[0]) != -1;
  }

  predicate TakesLevels(support: Support) {
    Configurable(support) && support.levels != [] && StandardLevels(support)
  }

  /** A listed level is granted. Any other is refused where checking is strict and the request
      came in the body; a standard one otherwise becomes the nearest that is listed. */
  lemma LevelOutcome(level: string, support: Support, strict: bool, fromSuffix: bool)
    requires TakesLevels(support) && Extracted(Config(ModeLevel, 0, level))
    ensures var r := Validate(Config(ModeLevel, 0, level), Some(support), strict, fromSuffix);
            if HasLevel(support.levels, level) then r == Ok(Config(ModeLevel, 0, level))
            else if LevelIndex(level) == -1 || (strict && !fromSuffix) then r == Err(LevelNotAllowed(level))
            else r.Ok? && r.value.mode.ModeLevel? && r.value.budget == 0 &&
                 NearestListed(level, support.levels, r.value.level)
  {
    if LevelIndex(level) != -1 {
      ClampedIsNearestListed(level, support.levels);
    }
  }

  /** `level` is the least level whose own budget covers `budget`; beyond "high" it is "xhigh". */
  predicate Covers(level: string, budget: int) {
    if budget > LEVEL_BUDGETS["high"] then level == "xhigh"
    else
      && level in LEVEL_BUDGETS && budget <= LEVEL_BUDGETS[level]
      && forall other :: other in LEVEL_BUDGETS && budget <= LEVEL_BUDGETS[other] ==>
           LEVEL_BUDGETS[level] <= LEVEL_BUDGETS[other]
  }

  /** A model with levels only takes the level that covers a budget, brought among its own
      whether checking is strict or not; a budget below -1 stands for none. */
  lemma BudgetAtLevelModel(budget: int, support: Support, strict: bool, fromSuffix: bool) returns (level: string)
    requires TakesLevels(support) && Detect(support).LevelOnly? && budget != 0 && budget != -1
    ensures var r := Validate(Config(ModeBudget, budget, ""), Some(support), strict, fromSuffix);
            if budget < -1 then r == Err(NoLevelFor(budget))
            else Covers(level, budget) && r.Ok? && r.value.mode.ModeLevel? && r.value.budget == 0 &&
                 NearestListed(level, support.levels, r.value.level)
  {
    level := "";
    if budget > 0 {
      level := ConvertBudgetToLevel(budget).value;
      CoveringLevel(budget);
      BudgetAsLevel(budget, support.levels);
      ClampedIsNearestListed(level, support.levels);
    }
  }

  lemma CoveringLevel(budget: int)
    requires budget > 0
    ensures ConvertBudgetToLevel(budget).Some?
    ensures var level := ConvertBudgetToLevel(budget).value; Covers(level, budget) && LevelIndex(level) != -1
  {
    StandardBudget(ConvertBudgetToLevel(budget).value);
    StandardLevel(ConvertBudgetToLevel(budget).value);
  }

  // ---- On, off and automatic ----

  /** Off is budget 0 where the model allows it and its minimum where it does not, with the first
      listed level if there is one. */
  lemma OffOutcome(support: Support, strict: bool, fromSuffix: bool)
    requires Configurable(support)
    ensures Validate(Config(ModeNone, 0, ""), Some(support), strict, fromSuffix) ==
            Ok(Config(ModeNone, if support.zeroAllowed then 0 else support.min,
                      if support.levels == [] then "" else Canonical(support.levels[0])))
  {
  }

  /** Automatic stays so where the model allows it. Otherwise it is "medium" at a model with levels
      only, and the middle of the range at any other; where that is 0, off if allowed and the
      minimum if not. */
  lemma AutoOutcome(support: Support, strict: bool, fromSuffix: bool)
    requires Configurable(support) && !EmptyRange(support) && support.min + support.max < TWO_63
    ensures var r := Validate(Config(ModeAuto, -1, ""), Some(support), strict, fromSuffix);
            if support.dynamicAllowed then r == Ok(Config(ModeAuto, -1, ""))
            else if Detect(support).LevelOnly? then r == Ok(Config(ModeLevel, 0, "medium"))
            else if support.min + support.max >= 2
            then r == Ok(Config(ModeBudget, (support.min + support.max) / 2, ""))
            else if !support.zeroAllowed then r == Ok(Config(ModeBudget, support.min, ""))
            else r == Validate(Config(ModeNone, 0, ""), Some(support), strict, fromSuffix)
  {
  }

  /** A range whose bounds add up beyond 64 bits has no middle: automatic is off or the minimum. */
  lemma AutoOverflows(support: Support, strict: bool, fromSuffix: bool)
    requires Configurable(support) && support.min + support.max >= TWO_63 && !support.dynamicAllowed
    requires !EmptyRange(support)
    ensures Validate(Config(ModeAuto, -1, ""), Some(support), strict, fromSuffix) ==
            if support.zeroAllowed then Validate(Config(ModeNone, 0, ""), Some(support), strict, fromSuffix)
            else Ok(Config(ModeBudget, support.min, ""))
  {
  }

  /** A model without any support accepts nothing but off. */
  lemma UnsupportedOutcome(c: Config, strict: bool, fromSuffix: bool)
    ensures Validate(c, None, strict, fromSuffix) == if c.mode.ModeNone? then Ok(c) else Err(NotSupported)
  {
  }

  // ---- What is written ----

  /** The API's names of the levels. */
  const API_NAMES := map[
    "minimal" := "MINIMAL", "low" := "LOW", "medium" := "MEDIUM", "high" := "HIGH", "xhigh" := "HIGH", "max" := "HIGH"]

  /** Everything `Apply` may touch. */
  const THINKING_MEMBERS := {LEVEL, LEVEL_SNAKE, BUDGET, BUDGET_SNAKE, THOUGHTS, THOUGHTS_SNAKE}

  /** A level is written for a level, and for off at a model that has levels. */
  predicate AsLevel(v: Config, support: Support) {
    v.mode.ModeLevel? || (v.mode.ModeNone? && support.levels != [])
  }

  lemma ApiName(v: Config, support: Support)
    requires Writes(v, support) && AsLevel(v, support)
    ensures v.level in API_NAMES && LevelToApiEnum(v.level) == API_NAMES[v.level]
  {
  }

  lemma RewrittenMembers(m: Fields, v: Config, support: Support)
    requires Writes(v, support)
    ensures var n := Rewritten(m, v, support);
            && (if AsLevel(v, support)
                then v.level in API_NAMES && LEVEL in n && n[LEVEL] == Str(API_NAMES[v.level])
                else BUDGET in n && n[BUDGET] == Num(v.budget))
            && forall key :: key !in THINKING_MEMBERS ==> (key in n <==> key in m) && (key in m ==> n[key] == m[key])
  {
    if AsLevel(v, support) {
      ApiName(v, support);
      LevelMembers(m, v, support);
    } else {
      BudgetMembers(m, v, support);
    }
  }

  /** A written level stands under its API name, a written budget as its number, and all else but
      the flag is as it was. */
  lemma WrittenMembers(body: Json, model: string, support: Support, mode: string, strict: bool)
    requires Writing(body, model, support, mode, strict)
    ensures var v := Validated(body, model, support, mode, strict);
            var r := Apply(Some(body), model, Supporting(support), mode, strict).value;
            && r.Some?
            && (if AsLevel(v, support)
                then v.level in API_NAMES && Get(ThinkingIn(r.value), LEVEL) == Some(Str(API_NAMES[v.level]))
                else Get(ThinkingIn(r.value), BUDGET) == Some(Num(v.budget)))
            && forall key :: key !in THINKING_MEMBERS ==> Get(ThinkingIn(r.value), key) == Get(ThinkingIn(body), key)
  {
    var r := WritingStep(body, model, support, mode, strict);
    RewrittenMembers(FieldsOf(body), Validated(body, model, support, mode, strict), support);
    FieldsAreMembers(body);
    FieldsAreMembers(r);
  }

  /** Thoughts are hidden where thinking is off. Otherwise the body's own wish is kept, and without
      one they are shown, unless the budget came out as 0. */
  lemma WrittenThoughts(body: Json, model: string, support: Support, mode: string, strict: bool)
    requires Writing(body, model, support, mode, strict)
    ensures var v := Validated(body, model, support, mode, strict);
            var r := Apply(Some(body), model, Supporting(support), mode, strict).value;
            var asked := Get(ThinkingIn(body), THOUGHTS);
            var askedSnake := Get(ThinkingIn(body), THOUGHTS_SNAKE);
            && r.Some?
            && Get(ThinkingIn(r.value), THOUGHTS) == Some(Bool(
                 if v.mode.ModeNone? then false
                 else if asked.Some? then AsBool(asked.value)
                 else if askedSnake.Some? then AsBool(askedSnake.value)
                 else !v.mode.ModeBudget? || v.budget != 0))
  {
    var r := WritingStep(body, model, support, mode, strict);
    var v := Validated(body, model, support, mode, strict);
    FieldsAreMembers(body);
    FieldsAreMembers(r);
    if WritesLevel(v, support) {
      LevelMembers(FieldsOf(body), v, support);
    } else {
      BudgetMembers(FieldsOf(body), v, support);
    }
  }

  /** The thinkingConfig of a body; an empty one where there is none. */
  function ThinkingIn(body: Json): Json {
    match Get(body, "generationConfig")
    case None => Obj(map[])
    case Some(g) =>
      match Get(g, "thinkingConfig")
      case None => Obj(map[])
      case Some(t) => t
  }

  lemma FieldsAreMembers(body: Json)
    ensures forall key ::
      Get(ThinkingIn(body), key) == if key in FieldsOf(body) then Some(FieldsOf(body)[key]) else None
  {
    PathsUnfold(body, LEVEL, Null);
  }

  /** A budget that is asked for, in the body or as a suffix, is written as the nearest one the
      model allows, unless a strict check refuses it. */
  lemma RequestedBudgetIsWritten(
      body: Json, model: string, support: Support, mode: string, strict: bool, budget: int)
    requires Writable(body) && TakesBudgets(support) && StandardLevels(support) && budget != 0 && budget != -1
    ensures !Off(mode) && ConfigFor(Some(body), model) == Ok(Config(ModeBudget, budget, "")) ==>
              var r := Apply(Some(body), model, Supporting(support), mode, strict);
              if strict && ParseSuffix(model).NoSuffix? && !(support.min <= budget <= support.max)
              then r == Err(Refused(BudgetOutOfRange(budget)))
              else
                && r.Ok? && r.value.Some?
                && var written := Get(ThinkingIn(r.value.value), BUDGET);
                   written.Some? && written.value.Num? &&
                   NearestBetween(budget, support.min, support.max, written.value.number)
  {
    if !Off(mode) && ConfigFor(Some(body), model) == Ok(Config(ModeBudget, budget, "")) {
      BudgetOutcome(budget, support, strict, ParseSuffix(model).Suffix?);
      if !(strict && ParseSuffix(model).NoSuffix? && !(support.min <= budget <= support.max)) {
        WrittenMembers(body, model, support, mode, strict);
      }
    }
  }
}
