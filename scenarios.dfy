/** Concrete conversations with the assistant, each answered from the rules alone. Longer
    queries are written as words joined with `+`: the verifier evaluates a long string
    literal character by character, which is far more costly than reasoning about the
    separate words. */
module Scenarios {
  import opened Text
  import opened Chatbot

  /** A capitalised keyword is recognised, and a strategy question naming no strategy gets
      the clarification prompt. */
  lemma CapitalisedStrategy()
    ensures Respond("Strategy") == StrategyClarification
  {
    var l := "strategy";
    assert Lower("Strategy") == l;
    assert !Contains(l, "ma") by { ContainsHasChars(l, "ma", 0); }
    RespondRules("Strategy");
  }

  /** A capitalised backtest question gets the backtest reply. */
  lemma CapitalisedBacktest()
    ensures Respond("Backtest") == BacktestReply
  {
    var l := "backtest";
    assert Lower("Backtest") == l;
    assert !Contains(l, "strategy") by { ContainsHasChars(l, "strategy", 6); }
    assert !Contains(l, "risk") by { ContainsHasChars(l, "risk", 0); }
    assert !Contains(l, "optimize") by { ContainsHasChars(l, "optimize", 0); }
    RespondRules("Backtest");
  }

  /** "ma" is a plain substring test, so it fires inside "management": a strategy question
      about management gets the moving-average reply. */
  lemma MaMatchesInsideWords()
    ensures Respond("strategy " + "management") == MovingAverageReply
  {
    var q := "strategy " + "management";
    assert Lower(q) == q by { LowerFixedPoint(q); }
    assert Contains(q, "strategy") by { ContainsAt(q, "strategy", 0); }
    assert Contains(q, "ma") by { ContainsAt(q, "ma", 9); }
    RespondRules(q);
  }

  /** "strategy" is tested before "risk", so this question gets the strategy prompt. */
  lemma StrategyBeatsRisk()
    ensures Respond("your " + "strategy " + "risk") == StrategyClarification
  {
    var q := "your " + "strategy " + "risk";
    assert Lower(q) == q by { LowerFixedPoint(q); }
    assert Contains(q, "strategy") by { ContainsAt(q, "strategy", 5); }
    assert !Contains(q, "ma") by { ContainsHasChars(q, "ma", 0); }
    assert !Contains(q, "moving average") by { ContainsHasChars(q, "moving average", 0); }
    RespondRules(q);
  }

  /** "risk" is tested before "backtest". */
  lemma RiskBeatsBacktest()
    ensures Respond("backtest " + "my " + "risk") == RiskReply
  {
    var q := "backtest " + "my " + "risk";
    assert Lower(q) == q by { LowerFixedPoint(q); }
    assert !Contains(q, "strategy") by { ContainsHasChars(q, "strategy", 6); }
    assert Contains(q, "risk") by { ContainsAt(q, "risk", 12); }
    RespondRules(q);
  }

  /** A query with no keyword gets the default prompt. */
  lemma NoKeyword()
    ensures Respond("Hello") == DefaultReply
  {
    var l := "hello";
    assert Lower("Hello") == l;
    assert !Contains(l, "risk") by { ContainsHasChars(l, "risk", 0); }
    RespondRules("Hello");
  }

  /** Risk levels are matched exactly, so a differently cased or unknown level gets the
      "medium" advice. */
  lemma RiskLevelIsCaseSensitive()
    ensures GetRiskAdvice("LOW") == GetRiskAdvice("medium")
    ensures GetRiskAdvice("nonsense") == GetRiskAdvice("medium")
  {
  }
}
