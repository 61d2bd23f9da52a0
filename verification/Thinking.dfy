/** Thinking configuration: modes, levels and budgets (internal/thinking/thinking.go). */
module Thinking {
  import opened Prelude

  datatype Mode = ModeBudget | ModeLevel | ModeNone | ModeAuto

  datatype Config = Config(mode: Mode, budget: int, level: string)

  const ZERO_CONFIG := Config(ModeBudget, 0, "")

  const TWO_63: int := 0x8000_0000_0000_0000
  type Int64 = x: int | -TWO_63 <= x < TWO_63

  datatype Support = Support(
    min: Int64,
    max: Int64,
    zeroAllowed: bool,
    dynamicAllowed: bool,
    levels: seq<string>)

  datatype Refusal =
    | NotSupported
    | UnknownLevel(level: string)
    | NoLevelFor(budget: int)
    | LevelNotAllowed(level: string)
    | BudgetOutOfRange(budget: int)

  // ---- Levels and budgets ----

  const STANDARD_ORDER := ["minimal", "low", "medium", "high", "xhigh", "max"]

  /** `levelIndex`: the position in the standard order, or -1. */
  function LevelIndex(level: string): int {
    match Canonical(level)
    case "minimal" => 0
    case "low" => 1
    case "medium" => 2
    case "high" => 3
    case "xhigh" => 4
    case "max" => 5
    case _ => -1
  }

  function ConvertLevelToBudget(level: string): Option<int> {
    match Canonical(level)
    case "none" => Some(0)
    case "auto" => Some(-1)
    case "minimal" => Some(512)
    case "low" => Some(1024)
    case "medium" => Some(8192)
    case "high" => Some(24576)
    case "xhigh" => Some(32768)
    case "max" => Some(128000)
    case _ => None
  }

  function ConvertBudgetToLevel(budget: int): Option<string> {
    if budget < -1 then None
    else if budget == -1 then Some("auto")
    else if budget == 0 then Some("none")
    else if budget <= 512 then Some("minimal")
    else if budget <= 1024 then Some("low")
    else if budget <= 8192 then Some("medium")
    else if budget <= 24576 then Some("high")
    else Some("xhigh")
  }

  /** The budget a level stands for stands for that level, except beyond the largest one. */
  lemma LevelBudgetLevel(level: string)
    requires ConvertLevelToBudget(level).Some?
    ensures ConvertBudgetToLevel(ConvertLevelToBudget(level).value) ==
            Some(if Canonical(level) == "max" then "xhigh" else Canonical(level))
  {
  }

  predicate HasLevel(levels: seq<string>, target: string) {
    exists i :: 0 <= i < |levels| && Canonical(levels[i]) == Canonical(target)
  }

  function Abs(n: int): nat {
    if n < 0 then -n else n
  }

  /** Index `a` is a better stand-in for `pos` than `b`. */
  predicate Nearer(pos: int, a: int, b: int) {
    Abs(pos - a) < Abs(pos - b) || (Abs(pos - a) == Abs(pos - b) && a < b)
  }

  /** The best standard level among those listed, -1 if there is none. */
  function BestIndex(pos: int, levels: seq<string>): int {
    if levels == [] then -1
    else
      var best, idx := BestIndex(pos, levels[..|levels| - 1]), LevelIndex(levels[|levels| - 1]);
      if idx != -1 && (best == -1 || Nearer(pos, idx, best)) then idx else best
  }

  function Clamped(level: string, levels: seq<string>): string {
    if levels == [] || HasLevel(levels, level) || LevelIndex(level) == -1 then level
    else
      var best := BestIndex(LevelIndex(level), levels);
      if 0 <= best < 6 then STANDARD_ORDER[best] else level
  }

  lemma {:induction false} BestIndexIs(pos: int, levels: seq<string>)
    ensures var best := BestIndex(pos, levels);
            && -1 <= best < 6
            && (best != -1 ==> exists i :: 0 <= i < |levels| && LevelIndex(levels[i]) == best)
            && forall i :: 0 <= i < |levels| && LevelIndex(levels[i]) != -1 ==>
                 best != -1 && !Nearer(pos, LevelIndex(levels[i]), best)
  {
    if levels != [] {
      var init := levels[..|levels| - 1];
      BestIndexIs(pos, init);
      forall i | 0 <= i < |levels|
        ensures i < |init| ==> init[i] == levels[i]
      {
      }
      var best := BestIndex(pos, init);
      if best != -1 {
        var i :| 0 <= i < |init| && LevelIndex(init[i]) == best;
        assert LevelIndex(levels[i]) == best;
      }
    }
  }

  lemma StandardIndex(i: int)
    requires 0 <= i < 6
    ensures Canonical(STANDARD_ORDER[i]) == STANDARD_ORDER[i] && LevelIndex(STANDARD_ORDER[i]) == i
  {
    TrimOfTrimmed(STANDARD_ORDER[i], IsSpace);
    assert ToLower("minimal") == "minimal" && ToLower("low") == "low" && ToLower("medium") == "medium";
    assert ToLower("high") == "high" && ToLower("xhigh") == "xhigh" && ToLower("max") == "max";
  }

  lemma StandardLevel(level: string)
    requires level in STANDARD_ORDER
    ensures Canonical(level) == level && LevelIndex(level) != -1
  {
    var i :| 0 <= i < 6 && STANDARD_ORDER[i] == level;
    StandardIndex(i);
  }

  lemma SpecialWords()
    ensures Canonical("none") == "none" && Canonical("auto") == "auto"
    ensures LevelIndex("none") == -1 && LevelIndex("auto") == -1
  {
    TrimOfTrimmed("none", IsSpace);
    TrimOfTrimmed("auto", IsSpace);
    assert ToLower("none") == "none" && ToLower("auto") == "auto";
  }

  lemma SameIndexSameLevel(a: string, b: string)
    requires LevelIndex(a) == LevelIndex(b) != -1
    ensures Canonical(a) == Canonical(b) == STANDARD_ORDER[LevelIndex(a)]
  {
  }

  /** An unlisted standard level becomes the nearest listed one, the lower one of two as near;
      it stays only if no standard level is listed. */
  lemma ClampedIsNearest(level: string, levels: seq<string>)
    requires levels != [] && LevelIndex(level) != -1
    ensures var r := Clamped(level, levels);
            && LevelIndex(r) != -1
            && (HasLevel(levels, r) <==> exists i :: 0 <= i < |levels| && LevelIndex(levels[i]) != -1)
            && forall i :: 0 <= i < |levels| && LevelIndex(levels[i]) != -1 ==>
                 !Nearer(LevelIndex(level), LevelIndex(levels[i]), LevelIndex(r))
  {
    var pos := LevelIndex(level);
    BestIndexIs(pos, levels);
    if HasLevel(levels, level) {
      var i :| 0 <= i < |levels| && Canonical(levels[i]) == Canonical(level);
      assert LevelIndex(levels[i]) == pos;
    } else {
      var best := BestIndex(pos, levels);
      if best != -1 {
        StandardIndex(best);
        var i :| 0 <= i < |levels| && LevelIndex(levels[i]) == best;
        SameIndexSameLevel(levels[i], STANDARD_ORDER[best]);
      } else {
        assert !HasLevel(levels, Clamped(level, levels));
      }
    }
  }

  method ClampLevel(level: string, supported: seq<string>) returns (r: string)
    ensures r == Clamped(level, supported)
  {
    if |supported| == 0 || HasLevel(supported, level) {
      return level;
    }
    var pos := LevelIndex(level);
    if pos == -1 {
      return level;
    }
    var bestIdx := -1;
    var bestDist := |STANDARD_ORDER| + 1;
    for i := 0 to |supported|
      invariant bestIdx == BestIndex(pos, supported[..i]) && -1 <= bestIdx < 6
      invariant bestDist == if bestIdx == -1 then |STANDARD_ORDER| + 1 else Abs(pos - bestIdx)
    {
      assert supported[..i + 1][..i] == supported[..i];
      var idx := LevelIndex(supported[i]);
      if idx == -1 {
        continue;
      }
      var dist := Abs(pos - idx);
      if dist < bestDist || (dist == bestDist && idx < bestIdx) {
        bestIdx := idx;
        bestDist := dist;
      }
    }
    assert supported[..|supported|] == supported;
    if bestIdx >= 0 {
      return STANDARD_ORDER[bestIdx];
    }
    return level;
  }

  function ClampBudget(value: int, support: Support): int {
    if value == -1 then value
    else if value == 0 && !support.zeroAllowed then (if support.min > 0 then support.min else value)
    else if support.min == 0 && support.max == 0 then value
    else if value < support.min then (if value == 0 && support.zeroAllowed then 0 else support.min)
    else if value > support.max then support.max
    else value
  }

  // ---- What a model can do ----

  datatype Capability = NoThinking | BudgetOnly | LevelOnly | Hybrid

  function Detect(support: Support): Capability {
    var hasBudget, hasLevels := support.min > 0 || support.max > 0, |support.levels| > 0;
    if hasBudget && hasLevels then Hybrid
    else if hasBudget then BudgetOnly
    else if hasLevels then LevelOnly
    else NoThinking
  }

  /** The 64-bit sum, wrapping around. */
  function Sum64(a: Int64, b: Int64): Int64 {
    if a + b >= TWO_63 then a + b - 2 * TWO_63 else if a + b < -TWO_63 then a + b + 2 * TWO_63 else a + b
  }

  /** Division toward zero. */
  function Half(x: int): int {
    if x >= 0 then x / 2 else -(-x / 2)
  }

  function ConvertAutoToMidRange(c: Config, support: Support): Config {
    if |support.levels| > 0 && support.min == 0 && support.max == 0 then Config(ModeLevel, 0, "medium")
    else
      var mid := Half(Sum64(support.min, support.max));
      if mid <= 0 && support.zeroAllowed then c.(mode := ModeNone, budget := 0)
      else c.(mode := ModeBudget, budget := if mid <= 0 then support.min else mid)
  }

  // ---- `ValidateConfig`, stage by stage ----

  /** Levels become budgets, or budgets levels, where the model has only one of them. The
      flag says that the budget came from a level. */
  function Converted(c: Config, support: Support): Result<(Config, bool), Refusal> {
    match Detect(support)
    case BudgetOnly =>
      if !c.mode.ModeLevel? || c.level == "auto" then Ok((c, false))
      else (match ConvertLevelToBudget(c.level)
            case None => Err(UnknownLevel(c.level))
            case Some(b) => Ok((Config(ModeBudget, b, ""), true)))
    case LevelOnly =>
      if !c.mode.ModeBudget? then Ok((c, false))
      else (match ConvertBudgetToLevel(c.budget)
            case None => Err(NoLevelFor(c.budget))
            case Some(l) => Ok((Config(ModeLevel, 0, Clamped(l, support.levels)), false)))
    case _ => Ok((c, false))
  }

  function Folded(c: Config): Config {
    var c1 := if c.mode.ModeLevel? && c.level == "none" then Config(ModeNone, 0, "") else c;
    var c2 := if c1.mode.ModeLevel? && c1.level == "auto" then Config(ModeAuto, -1, "") else c1;
    if c2.mode.ModeBudget? && c2.budget == 0 then c2.(mode := ModeNone, level := "") else c2
  }

  function Levelled(c: Config, support: Support, clampAllowed: bool): Result<Config, Refusal> {
    if support.levels == [] || !c.mode.ModeLevel? || HasLevel(support.levels, c.level) then Ok(c)
    else
      var l := if clampAllowed then Clamped(c.level, support.levels) else c.level;
      if HasLevel(support.levels, l) then Ok(c.(level := l)) else Err(LevelNotAllowed(l))
  }

  predicate BudgetRefused(c: Config, support: Support) {
    && c.mode.ModeBudget? && (support.min != 0 || support.max != 0)
    && (c.budget < support.min || c.budget > support.max || (c.budget == 0 && !support.zeroAllowed))
  }

  function Settled(c: Config, support: Support): Config {
    var c1 := if c.mode.ModeAuto? && !support.dynamicAllowed then ConvertAutoToMidRange(c, support) else c;
    var c2 := if c1.mode.ModeLevel? then c1 else c1.(budget := ClampBudget(c1.budget, support));
    if c2.mode.ModeNone? && |support.levels| > 0 && c2.level == "" then c2.(level := Canonical(support.levels[0]))
    else c2
  }

  function Validate(c: Config, model: Option<Support>, strict: bool, fromSuffix: bool): Result<Config, Refusal> {
    match model
    case None => if c.mode.ModeNone? then Ok(c) else Err(NotSupported)
    case Some(support) =>
      match Converted(c, support)
      case Err(e) => Err(e)
      case Ok(converted) =>
        match Levelled(Folded(converted.0), support, !strict || fromSuffix)
        case Err(e) => Err(e)
        case Ok(levelled) =>
          if strict && !fromSuffix && !converted.1 && BudgetRefused(levelled, support)
          then Err(BudgetOutOfRange(levelled.budget))
          else Ok(Settled(levelled, support))
  }

  method ValidateConfig(c: Config, model: Option<Support>, strictValidation: bool, fromSuffix: bool)
    returns (r: Result<Config, Refusal>)
    ensures r == Validate(c, model, strictValidation, fromSuffix)
  {
    var config := c;
    if model.None? {
      if !config.mode.ModeNone? {
        return Err(NotSupported);
      }
      return Ok(config);
    }
    var support := model.value;
    var allowClampUnsupported := !strictValidation || fromSuffix;
    var strictBudget := strictValidation && !fromSuffix;
    var budgetDerivedFromLevel := false;

    match Detect(support) {
      case BudgetOnly =>
        if config.mode.ModeLevel? && config.level != "auto" {
          var budget := ConvertLevelToBudget(config.level);
          if budget.None? {
            return Err(UnknownLevel(config.level));
          }
          config := config.(mode := ModeBudget, budget := budget.value, level := "");
          budgetDerivedFromLevel := true;
        }
      case LevelOnly =>
        if config.mode.ModeBudget? {
          var level := ConvertBudgetToLevel(config.budget);
          if level.None? {
            return Err(NoLevelFor(config.budget));
          }
          var clamped := ClampLevel(level.value, support.levels);
          config := config.(mode := ModeLevel, level := clamped, budget := 0);
        }
      case _ =>
    }

    if config.mode.ModeLevel? && config.level == "none" {
      config := config.(mode := ModeNone, budget := 0, level := "");
    }
    if config.mode.ModeLevel? && config.level == "auto" {
      config := config.(mode := ModeAuto, budget := -1, level := "");
    }
    if config.mode.ModeBudget? && config.budget == 0 {
      config := config.(mode := ModeNone, level := "");
    }

    if |support.levels| > 0 && config.mode.ModeLevel? && !HasLevel(support.levels, config.level) {
      if allowClampUnsupported {
        var clamped := ClampLevel(config.level, support.levels);
        config := config.(level := clamped);
      }
      if !HasLevel(support.levels, config.level) {
        return Err(LevelNotAllowed(config.level));
      }
    }

    if strictBudget && config.mode.ModeBudget? && !budgetDerivedFromLevel {
      var min, max := support.min, support.max;
      if min != 0 || max != 0 {
        if config.budget < min || config.budget > max || (config.budget == 0 && !support.zeroAllowed) {
          return Err(BudgetOutOfRange(config.budget));
        }
      }
    }

    if config.mode.ModeAuto? && !support.dynamicAllowed {
      config := ConvertAutoToMidRange(config, support);
    }
    if config.mode.ModeBudget? || config.mode.ModeAuto? || config.mode.ModeNone? {
      config := config.(budget := ClampBudget(config.budget, support));
    }
    if config.mode.ModeNone? && |support.levels| > 0 && config.level == "" {
      config := config.(level := Canonical(support.levels[0]));
    }
    return Ok(config);
  }

  // ---- Accepted configs respect the model ----

  /** What extraction from a body or a model suffix can yield. */
  predicate Extracted(c: Config) {
    match c.mode
    case ModeBudget => c.level == "" && c.budget != 0 && c.budget != -1
    case ModeLevel => c.budget == 0 && c.level == Canonical(c.level) && c.level !in {"", "none", "auto"}
    case ModeNone => c.budget == 0 && c.level == ""
    case ModeAuto => c.budget == -1 && c.level == ""
  }

  /** What configuration accepts: no negative bound, and no minimum above a maximum unless the
      maximum is left at 0. */
  predicate Configurable(support: Support) {
    0 <= support.min && 0 <= support.max && (support.max > 0 ==> support.min <= support.max)
  }

  predicate GoodSupport(support: Support) {
    Configurable(support) && !Detect(support).NoThinking?
  }

  /** A minimum with the maximum left at 0. */
  predicate EmptyRange(support: Support) {
    support.max < support.min
  }

  predicate Respects(c: Config, support: Support) {
    match c.mode
    case ModeBudget => support.min <= c.budget <= support.max
    case ModeLevel => HasLevel(support.levels, c.level)
    case ModeNone => c.budget == if support.zeroAllowed then 0 else support.min
    case ModeAuto => support.dynamicAllowed && c.budget == -1
  }

  /** A level-only model without dynamic thinking answers "auto" with "medium", listed or not. */
  predicate MediumUnchecked(c: Config, support: Support) {
    && c.mode.ModeAuto? && Detect(support).LevelOnly? && !support.dynamicAllowed
    && !HasLevel(support.levels, "medium")
  }

  /** The request ends as a budget, which an empty range cannot hold. */
  predicate EndsAsBudget(c: Config, support: Support) {
    || c.mode.ModeBudget?
    || (c.mode.ModeLevel? && support.levels == [])
    || (c.mode.ModeAuto? && !support.dynamicAllowed && !(support.min == 1 && support.zeroAllowed))
  }

  lemma MidRangeRespects(c: Config, support: Support)
    requires GoodSupport(support) && !EmptyRange(support) && !Detect(support).LevelOnly? && c.mode.ModeAuto?
    ensures var r := ConvertAutoToMidRange(c, support);
            (r.mode == ModeBudget && support.min <= r.budget <= support.max) || (r.mode == ModeNone && r.budget == 0)
  {
  }

  /** Clamping into an empty range yields its minimum or 0. */
  lemma ClampToEmpty(value: int, support: Support)
    requires Configurable(support) && EmptyRange(support) && value != -1 && value != 0
    ensures ClampBudget(value, support) == if value < support.min then support.min else 0
  {
  }

  lemma ClampRespects(c: Config, support: Support)
    requires GoodSupport(support) && (c.mode.ModeNone? ==> c.budget == 0)
    requires c.mode.ModeBudget? ==> !EmptyRange(support)
    requires c.mode.ModeBudget? ==>
               !Detect(support).LevelOnly? && c.budget != -1 && (c.budget == 0 ==> support.min == 0)
    ensures var r := c.(budget := ClampBudget(c.budget, support));
            c.mode.ModeBudget? || c.mode.ModeNone? ==> Respects(r, support)
  {
  }

  /** What the first stages leave for the last one. */
  predicate Shaped(c: Config, support: Support) {
    match c.mode
    case ModeBudget => c.budget != 0 && c.budget != -1 && !Detect(support).LevelOnly?
    case ModeLevel => HasLevel(support.levels, c.level)
    case ModeNone => c.budget == 0
    case ModeAuto => c.budget == -1
  }

  /** A budget turned into a level is no special word. */
  lemma BudgetAsLevel(budget: int, levels: seq<string>)
    requires levels != [] && budget > 0
    ensures ConvertBudgetToLevel(budget).Some?
    ensures Canonical(ConvertBudgetToLevel(budget).value) == ConvertBudgetToLevel(budget).value
    ensures Clamped(ConvertBudgetToLevel(budget).value, levels) !in {"none", "auto"}
  {
    var l := ConvertBudgetToLevel(budget).value;
    assert l in STANDARD_ORDER by {
      assert STANDARD_ORDER[0] == "minimal" && STANDARD_ORDER[1] == "low" && STANDARD_ORDER[2] == "medium";
      assert STANDARD_ORDER[3] == "high" && STANDARD_ORDER[4] == "xhigh";
    }
    StandardLevel(l);
    ClampedIsNearest(l, levels);
    SpecialWords();
  }

  lemma FoldedShape(c: Config, support: Support)
    requires Extracted(c) && GoodSupport(support) && Converted(c, support).Ok?
    ensures var f := Folded(Converted(c, support).value.0);
            && (f.mode.ModeAuto? <==> c.mode.ModeAuto?)
            && (f.mode.ModeLevel? ==> support.levels != [])
            && (f.mode.ModeLevel? || Shaped(f, support))
  {
    if Detect(support).LevelOnly? && c.mode.ModeBudget? {
      BudgetAsLevel(c.budget, support.levels);
    }
  }

  lemma SettledRespects(c: Config, support: Support)
    requires GoodSupport(support) && !EmptyRange(support) && Shaped(c, support)
    ensures Respects(Settled(c, support), support) <==> !MediumUnchecked(c, support)
  {
    if c.mode.ModeAuto? && !support.dynamicAllowed && !Detect(support).LevelOnly? {
      MidRangeRespects(c, support);
      ClampRespects(ConvertAutoToMidRange(c, support), support);
    } else if c.mode.ModeBudget? || c.mode.ModeNone? {
      ClampRespects(c, support);
    }
  }

  lemma SettledInEmptyRange(c: Config, support: Support)
    requires Configurable(support) && EmptyRange(support) && Shaped(c, support)
    ensures Respects(Settled(c, support), support) <==>
            !(c.mode.ModeBudget? ||
              (c.mode.ModeAuto? && !support.dynamicAllowed && !(support.min == 1 && support.zeroAllowed)))
  {
    if c.mode.ModeNone? {
      ClampRespects(c, support);
    }
  }

  /** Which mode a request is in when it comes to the last stage. */
  lemma StageOf(c: Config, support: Support, clampAllowed: bool)
    requires Extracted(c) && GoodSupport(support) && Converted(c, support).Ok?
    requires Levelled(Folded(Converted(c, support).value.0), support, clampAllowed).Ok?
    ensures var l := Levelled(Folded(Converted(c, support).value.0), support, clampAllowed).value;
            && Shaped(l, support) && (l.mode.ModeAuto? <==> c.mode.ModeAuto?)
            && (EmptyRange(support) ==>
                  (l.mode.ModeBudget? <==> c.mode.ModeBudget? || (c.mode.ModeLevel? && support.levels == [])))
  {
    FoldedShape(c, support);
    SpecialWords();
  }

  /** A model that declares no capability: a budget or level goes through unchecked. */
  lemma NoCapabilityChecksNothing(c: Config, support: Support, strict: bool, fromSuffix: bool)
    requires Extracted(c) && Configurable(support) && Detect(support).NoThinking?
    ensures Validate(c, Some(support), strict, fromSuffix).Ok?
    ensures var r := Validate(c, Some(support), strict, fromSuffix).value;
            && (c.mode.ModeBudget? || c.mode.ModeLevel? ==> r == c)
            && (Respects(r, support) <==> !c.mode.ModeBudget? && !c.mode.ModeLevel?)
  {
  }

  /** The requests whose accepted form does not obey the model: "auto" at a level-only model
      that cannot do it and lists no medium, any budget or level where no capability is declared,
      and any budget where the range is empty. */
  predicate SlipsThrough(c: Config, support: Support) {
    || MediumUnchecked(c, support)
    || (Detect(support).NoThinking? && (c.mode.ModeBudget? || c.mode.ModeLevel?))
    || (EmptyRange(support) && EndsAsBudget(c, support))
  }

  /** Every accepted config obeys the model's limits, but for exactly those requests. */
  lemma AcceptedConfigsRespectModel(c: Config, support: Support, strict: bool, fromSuffix: bool)
    requires Extracted(c) && Configurable(support)
    requires Validate(c, Some(support), strict, fromSuffix).Ok?
    ensures Respects(Validate(c, Some(support), strict, fromSuffix).value, support) <==> !SlipsThrough(c, support)
  {
    if Detect(support).NoThinking? {
      NoCapabilityChecksNothing(c, support, strict, fromSuffix);
    } else {
      var l := Levelled(Folded(Converted(c, support).value.0), support, !strict || fromSuffix).value;
      StageOf(c, support, !strict || fromSuffix);
      if EmptyRange(support) {
        SettledInEmptyRange(l, support);
      } else {
        SettledRespects(l, support);
      }
    }
  }

  /** And such a request is accepted, whether checking is strict or not: "auto" comes out as a
      level the model does not list. */
  lemma AutoBecomesMedium(support: Support, strict: bool, fromSuffix: bool)
    requires GoodSupport(support) && MediumUnchecked(Config(ModeAuto, -1, ""), support)
    ensures Validate(Config(ModeAuto, -1, ""), Some(support), strict, fromSuffix) == Ok(Config(ModeLevel, 0, "medium"))
    ensures !Respects(Config(ModeLevel, 0, "medium"), support)
  {
  }

  /** In an empty range a requested budget is refused if checking is strict, and otherwise comes
      out as the minimum if it was below that, and as 0 if it was not. */
  lemma EmptyRangeBudget(budget: int, support: Support, strict: bool, fromSuffix: bool)
    requires Configurable(support) && EmptyRange(support) && budget != 0 && budget != -1
    ensures Validate(Config(ModeBudget, budget, ""), Some(support), strict, fromSuffix) ==
            if strict && !fromSuffix then Err(BudgetOutOfRange(budget))
            else Ok(Config(ModeBudget, if budget < support.min then support.min else 0, ""))
  {
    ClampToEmpty(budget, support);
  }
}
