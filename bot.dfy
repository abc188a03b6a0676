/** The rule-based trading assistant `SimpleChatbot`: a greeting picker, an ordered chain
    of keyword rules that answers a free-text query with one of six canned replies, a
    templated strategy-analysis answer and a risk-advice lookup with a default. */
module Chatbot {
  import opened Text
  import opened Rules

  /** The three greetings built by the constructor. */
  const Greetings: seq<string> := [
    "Hello! How can I assist you with your trading strategies today?",
    "Hi there! Ready to optimize your trading strategies?",
    "Welcome! How can I help you with your trading goals?"
  ]

  /** The canned replies built by the constructor, keyed by topic. */
  const StrategyResponses: map<string, string> := map[
    "ma" := "Moving Average strategy analysis: Fast MA crosses above/below Slow MA generate signals.",
    "risk" := "Risk management is crucial. I recommend starting with 1-2% risk per trade.",
    "optimize" := "Strategy optimization involves testing different parameter combinations.",
    "backtest" := "Backtesting helps validate strategy performance using historical data."
  ]

  const MovingAverageReply := StrategyResponses["ma"]
  const RiskReply := StrategyResponses["risk"]
  const OptimizeReply := StrategyResponses["optimize"]
  const BacktestReply := StrategyResponses["backtest"]

  /** Answer to a strategy question that names no particular strategy. */
  const StrategyClarification := "Let me help you analyze your trading strategy. Could you provide more details?"

  /** Answer when no keyword is recognised. */
  const DefaultReply := "I'm here to assist with trading strategies and risk management. Could you clarify your question?"

  /** Every reply `Respond` can give. */
  const Replies: set<string> :=
    {MovingAverageReply, StrategyClarification, RiskReply, OptimizeReply, BacktestReply, DefaultReply}

  /** Picks one of the greetings; which one is left open, as a uniform random choice. */
  method GetGreeting() returns (g: string)
    ensures g in Greetings
  {
    var i :| 0 <= i < |Greetings|;
    g := Greetings[i];
  }

  /** Answers a query by lower-casing it and testing, in order, for "strategy" (and within
      it "ma" or "moving average"), "risk", "optimize"/"optimization" and
      "backtest"/"testing", as substrings; the first test that succeeds decides. */
  function Respond(query: string): (r: string)
    ensures r in Replies
  {
    var q := Lower(query);
    if Contains(q, "strategy") then
      if Contains(q, "ma") || Contains(q, "moving average") then MovingAverageReply
      else StrategyClarification
    else if Contains(q, "risk") then RiskReply
    else if Contains(q, "optimize") || Contains(q, "optimization") then OptimizeReply
    else if Contains(q, "backtest") || Contains(q, "testing") then BacktestReply
    else DefaultReply
  }

  /** The six replies are pairwise different, so each one identifies the rule that produced it. */
  lemma RepliesDistinct()
    ensures |Replies| == 6
  {
  }

  /** The chain read reply by reply: each reply is given exactly when its keyword test is the
      first one in the chain that succeeds on the lower-cased query. */
  lemma RespondRules(query: string)
    ensures Respond(query) == MovingAverageReply <==>
      Contains(Lower(query), "strategy") &&
      (Contains(Lower(query), "ma") || Contains(Lower(query), "moving average"))
    ensures Respond(query) == StrategyClarification <==>
      Contains(Lower(query), "strategy") &&
      !Contains(Lower(query), "ma") && !Contains(Lower(query), "moving average")
    ensures Respond(query) == RiskReply <==>
      !Contains(Lower(query), "strategy") && Contains(Lower(query), "risk")
    ensures Respond(query) == OptimizeReply <==>
      !Contains(Lower(query), "strategy") && !Contains(Lower(query), "risk") &&
      (Contains(Lower(query), "optimize") || Contains(Lower(query), "optimization"))
    ensures Respond(query) == BacktestReply <==>
      !Contains(Lower(query), "strategy") && !Contains(Lower(query), "risk") &&
      !Contains(Lower(query), "optimize") && !Contains(Lower(query), "optimization") &&
      (Contains(Lower(query), "backtest") || Contains(Lower(query), "testing"))
    ensures Respond(query) == DefaultReply <==>
      !Contains(Lower(query), "strategy") && !Contains(Lower(query), "risk") &&
      !Contains(Lower(query), "optimize") && !Contains(Lower(query), "optimization") &&
      !Contains(Lower(query), "backtest") && !Contains(Lower(query), "testing")
  {
  }

  /** A query that mentions "strategy" only ever gets a strategy answer, whatever else it says. */
  lemma StrategyPrecedence(query: string)
    requires Contains(Lower(query), "strategy")
    ensures Respond(query) in {MovingAverageReply, StrategyClarification}
    ensures Respond(query) !in {RiskReply, OptimizeReply, BacktestReply, DefaultReply}
  {
  }

  /** The answer does not depend on the letter case of the query. */
  lemma RespondCaseInsensitive(query: string)
    ensures Respond(query) == Respond(Lower(query))
  {
    LowerIdempotent(query);
  }

  /** A keyword spelled in any mix of cases inside the query is still recognised: once
      "strategy" appears in any spelling, the answer is a strategy answer. */
  lemma StrategyAnyCase(query: string, word: string)
    requires Lower(word) == "strategy"
    requires Contains(query, word)
    ensures Respond(query) in {MovingAverageReply, StrategyClarification}
  {
    ContainsLower(query, word);
  }

  /** The same chain written as a table of rules, in the order the chain tests them. */
  const ResponseRules: seq<Rule> := [
    Rule([["strategy"], ["ma", "moving average"]], MovingAverageReply),
    Rule([["strategy"]], StrategyClarification),
    Rule([["risk"]], RiskReply),
    Rule([["optimize", "optimization"]], OptimizeReply),
    Rule([["backtest", "testing"]], BacktestReply)
  ]

  /** `Respond` answers exactly as the first-match-wins reading of the rule table does. */
  lemma RespondIsFirstMatch(query: string)
    ensures Respond(query) == FirstMatch(ResponseRules, Lower(query), DefaultReply)
  {
    var q := Lower(query);
    var r := ResponseRules;
    var strategy := Contains(q, "strategy");
    var ma := Contains(q, "ma") || Contains(q, "moving average");
    var risk := Contains(q, "risk");
    var optimize := Contains(q, "optimize") || Contains(q, "optimization");
    var backtest := Contains(q, "backtest") || Contains(q, "testing");
    assert Fires(r[0], q) == (strategy && ma) by {
      FiresTwoClauses(q, ["strategy"], ["ma", "moving average"], MovingAverageReply);
      ContainsAnyOne(q, "strategy");
      ContainsAnyTwo(q, "ma", "moving average");
    }
    assert Fires(r[1], q) == strategy by {
      FiresOneClause(q, ["strategy"], StrategyClarification);
      ContainsAnyOne(q, "strategy");
    }
    assert Fires(r[2], q) == risk by {
      FiresOneClause(q, ["risk"], RiskReply);
      ContainsAnyOne(q, "risk");
    }
    assert Fires(r[3], q) == optimize by {
      FiresOneClause(q, ["optimize", "optimization"], OptimizeReply);
      ContainsAnyTwo(q, "optimize", "optimization");
    }
    assert Fires(r[4], q) == backtest by {
      FiresOneClause(q, ["backtest", "testing"], BacktestReply);
      ContainsAnyTwo(q, "backtest", "testing");
    }
    if strategy && ma {
      assert FirstFiring(r, q, 0);
    } else if strategy {
      assert FirstFiring(r, q, 1);
    } else if risk {
      assert FirstFiring(r, q, 2);
    } else if optimize {
      assert FirstFiring(r, q, 3);
    } else if backtest {
      assert FirstFiring(r, q, 4);
    } else {
      assert NoneFires(r, q);
    }
  }

  const AnalyzePrefix := "Analyzing strategy with parameters: "
  const AnalyzeSuffix := ". Looking for optimal entry and exit points."

  /** Echoes the caller's parameter text, unchanged, inside a fixed sentence. */
  function AnalyzeStrategy(params: string): (r: string)
    ensures |r| == |AnalyzePrefix| + |params| + |AnalyzeSuffix|
    ensures AnalyzePrefix <= r
    ensures r[|AnalyzePrefix|..|AnalyzePrefix| + |params|] == params
    ensures r[|AnalyzePrefix| + |params|..] == AnalyzeSuffix
  {
    AnalyzePrefix + params + AnalyzeSuffix
  }

  /** The answer contains the parameter text verbatim ... */
  lemma AnalyzeStrategyEchoes(params: string)
    ensures Contains(AnalyzeStrategy(params), params)
  {
    ContainsMiddle(AnalyzePrefix, params, AnalyzeSuffix);
  }

  /** ... and different parameter texts give different answers. */
  lemma AnalyzeStrategyInjective(p: string, q: string)
    requires AnalyzeStrategy(p) == AnalyzeStrategy(q)
    ensures p == q
  {
  }

  /** The advice table built on each call, keyed by risk level. */
  const RiskAdvice: map<string, string> := map[
    "low" := "Conservative approach: 1% risk per trade recommended.",
    "medium" := "Balanced approach: 1-2% risk per trade suggested.",
    "high" := "Aggressive approach: Up to 3% risk per trade, but not recommended for beginners."
  ]

  /** The level used when the caller gives none. */
  const DefaultRiskLevel := "medium"

  /** Looks the level up (exact, case-sensitive key match); any other level gets the
      "medium" advice. */
  function GetRiskAdvice(riskLevel: string): (r: string)
    ensures r in RiskAdvice.Values
    ensures riskLevel in RiskAdvice ==> r == RiskAdvice[riskLevel]
    ensures riskLevel !in RiskAdvice ==> r == RiskAdvice["medium"]
  {
    if riskLevel in RiskAdvice then RiskAdvice[riskLevel] else RiskAdvice["medium"]
  }

  /** The three levels get three different pieces of advice. */
  lemma RiskAdviceDistinct(a: string, b: string)
    requires a in RiskAdvice && b in RiskAdvice
    requires GetRiskAdvice(a) == GetRiskAdvice(b)
    ensures a == b
  {
  }

  /** A level gets the "medium" advice exactly when it is not "low" or "high": an
      unrecognised level falls back to it silently. */
  lemma RiskAdviceFallback(riskLevel: string)
    ensures GetRiskAdvice(riskLevel) == GetRiskAdvice(DefaultRiskLevel) <==>
      riskLevel != "low" && riskLevel != "high"
  {
  }

  /** Each level's advice, spelled out: "low", "medium" and "high" get their own entries and
      every other level gets the "medium" text. */
  lemma RiskAdviceTexts(riskLevel: string)
    ensures GetRiskAdvice("low") == "Conservative approach: 1% risk per trade recommended."
    ensures GetRiskAdvice("medium") == "Balanced approach: 1-2% risk per trade suggested."
    ensures GetRiskAdvice("high") ==
      "Aggressive approach: Up to 3% risk per trade, but not recommended for beginners."
    ensures riskLevel !in {"low", "medium", "high"} ==>
      GetRiskAdvice(riskLevel) == "Balanced approach: 1-2% risk per trade suggested."
  {
  }
}
