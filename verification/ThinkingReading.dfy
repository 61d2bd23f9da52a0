/** How a request for thinking is read off a model's name and a body
    (internal/thinking/thinking.go). */
module ThinkingReading {
  import opened Prelude
  import opened Json
  import opened Thinking
  import opened ThinkingApply
  import opened ThinkingOutcome

  // ---- Numbers ----

  lemma {:induction false} DigitsOfDecimal(n: nat)
    ensures Decimal(n) != "" && Digits(Decimal(n)) == Some(n)
    ensures forall i :: 0 <= i < |Decimal(n)| ==> '0' <= Decimal(n)[i] <= '9'
  {
    if n >= 10 {
      DigitsOfDecimal(n / 10);
      var head, last := Decimal(n / 10), [('0' as int + n % 10) as char];
      assert (head + last)[..|head|] == head;
    } else {
      assert Decimal(n)[..0] == "";
    }
  }

  /** A number in its decimal writing, as JSON text or as a string, is read as that number. */
  lemma DecimalIsRead(n: int)
    ensures AsInt(Num(n)) == n && AsInt(Str(Decimal(n))) == n
  {
    if n >= 0 {
      DigitsOfDecimal(n);
    } else {
      DigitsOfDecimal(-n);
      assert ("-" + Decimal(-n))[1..] == Decimal(-n);
    }
  }

  // ---- Suffixes ----

  /** What stands in the last pair of brackets at the end of a model's name is its suffix. */
  lemma SuffixIsSplit(name: string, raw: string)
    requires (name == "" || !IsSpace(name[0])) && '(' !in raw
    ensures ParseSuffix(name + "(" + raw + ")") == Suffix(TrimSpace(name), TrimSpace(raw))
  {
    var m := name + "(" + raw + ")";
    assert m[0] == if name == "" then '(' else name[0];
    TrimOfTrimmed(m, IsSpace);
    LastOpening(name, raw + ")");
    assert m == name + "(" + (raw + ")");
    assert m[..|name|] == name && m[|name| + 1..|m| - 1] == raw;
  }

  lemma {:induction false} LastOpening(name: string, rest: string)
    requires '(' !in rest
    ensures LastIndex(name + "(" + rest, '(') == |name|
    decreases |rest|
  {
    var s := name + "(" + rest;
    if rest == "" {
      assert s == name + "(";
    } else {
      LastOpening(name, rest[..|rest| - 1]);
      assert s[..|s| - 1] == name + "(" + rest[..|rest| - 1];
    }
  }

  /** A name without brackets at its end has none. */
  lemma NoSuffixWithoutBrackets(name: string)
    requires TrimSpace(name) == "" || TrimSpace(name)[|TrimSpace(name)| - 1] != ')' || '(' !in TrimSpace(name)
    ensures ParseSuffix(name).NoSuffix?
  {
  }

  /** A suffix names a level, off or automatic, in any case, or is a number: 0 means off. */
  lemma WordSuffix(raw: string)
    ensures Canonical(raw) in STANDARD_ORDER ==> SuffixConfig(raw) == Some(Config(ModeLevel, 0, Canonical(raw)))
    ensures Canonical(raw) == "none" ==> SuffixConfig(raw) == Some(Config(ModeNone, 0, ""))
    ensures Canonical(raw) in {"auto", "-1"} ==> SuffixConfig(raw) == Some(Config(ModeAuto, -1, ""))
  {
    if Canonical(raw) in STANDARD_ORDER {
      StandardLevel(Canonical(raw));
      SpecialWords();
      assert LevelIndex("-1") == -1;
    }
  }

  lemma DecimalIsTrimmed(n: nat)
    ensures TrimSpace(Decimal(n)) == Decimal(n)
  {
    DigitsOfDecimal(n);
    TrimOfTrimmed(Decimal(n), IsSpace);
  }

  lemma DecimalIsNoWord(n: nat)
    ensures Canonical(Decimal(n)) !in {"none", "auto", "-1"} && Canonical(Decimal(n)) !in STANDARD_ORDER
  {
    DigitsOfDecimal(n);
    DecimalIsTrimmed(n);
    var word := ToLower(Decimal(n));
    assert '0' <= word[0] <= '9';
    forall i | 0 <= i < 6
      ensures STANDARD_ORDER[i] != word
    {
      assert STANDARD_ORDER[i][0] > '9';
    }
  }

  lemma DecimalParses(n: nat)
    ensures ParseNumericSuffix(Decimal(n)) == if n < TWO_63 then Some(n) else None
  {
    DigitsOfDecimal(n);
    DecimalIsTrimmed(n);
  }

  lemma NumberSuffix(n: nat)
    ensures SuffixConfig(Decimal(n)) ==
            if n == 0 then Some(Config(ModeNone, 0, ""))
            else if n < TWO_63 then Some(Config(ModeBudget, n, ""))
            else None
  {
    DecimalIsNoWord(n);
    DecimalParses(n);
  }

  /** The suffix wins over the body. */
  lemma SuffixWins(body: Json, other: Json, model: string)
    requires ParseSuffix(model).Suffix?
    ensures ConfigFor(Some(body), model) == ConfigFor(Some(other), model)
    ensures ConfigFor(Some(body), model).Err? <==> SuffixConfig(ParseSuffix(model).raw).None?
  {
  }

  // ---- Bodies ----

  /** The member under its own name, or else under its snake-case one. */
  function Asked(body: Json, key: string, snake: string): Option<Json> {
    if Get(ThinkingIn(body), key).Some? then Get(ThinkingIn(body), key) else Get(ThinkingIn(body), snake)
  }

  lemma AskedIs(body: Json, key: string, snake: string)
    ensures Asked(body, key, snake) == Either(body, key, snake)
  {
    PathsUnfold(body, key, Null);
    PathsUnfold(body, snake, Null);
  }

  /** A level in the body wins over a budget: "none" is off, "auto" automatic, a blank one no
      request at all. */
  lemma LevelIsRead(body: Json)
    ensures var level := Asked(body, "thinkingLevel", "thinking_level");
            level.Some? ==>
              var word := Canonical(AsText(level.value));
              && (word == "none" ==> ExtractConfig(body) == Config(ModeNone, 0, ""))
              && (word == "auto" ==> ExtractConfig(body) == Config(ModeAuto, -1, ""))
              && (word == "" ==> !HasThinkingConfig(ExtractConfig(body)))
              && (word !in {"none", "auto", ""} ==> ExtractConfig(body) == Config(ModeLevel, 0, word))
  {
    AskedIs(body, LEVEL, LEVEL_SNAKE);
  }

  /** Without a level a budget is: 0 off and -1 automatic; without either there is no request. */
  lemma BudgetIsRead(body: Json)
    requires Asked(body, "thinkingLevel", "thinking_level").None?
    ensures var budget := Asked(body, "thinkingBudget", "thinking_budget");
            if budget.None? then !HasThinkingConfig(ExtractConfig(body))
            else
              var n := AsInt(budget.value);
              && (n == 0 ==> ExtractConfig(body) == Config(ModeNone, 0, ""))
              && (n == -1 ==> ExtractConfig(body) == Config(ModeAuto, -1, ""))
              && (n !in {0, -1} ==> ExtractConfig(body) == Config(ModeBudget, n, ""))
  {
    AskedIs(body, LEVEL, LEVEL_SNAKE);
    AskedIs(body, BUDGET, BUDGET_SNAKE);
  }
}
