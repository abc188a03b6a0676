# SimpleChatbot: a verified model of the rule-based trading assistant

This project models `SimpleChatbot`, the rule-based assistant of a forex-strategy toy project.
The assistant has four operations:

- **Greeting.** It picks one of three fixed greetings.
- **Answering a query.** It lower-cases the query. It then runs an ordered, first-match-wins chain of substring tests and answers with one of six canned replies. The chain tests "strategy" first, and inside that test "ma" or "moving average". Next come "risk", then "optimize"/"optimization", then "backtest"/"testing". Anything else gets a default prompt.
- **Strategy analysis.** It echoes the caller's parameter text inside a fixed sentence.
- **Risk advice.** It looks up advice for "low", "medium" or "high". Any other level gets the "medium" advice.

The class holds only tables that its constructor fills and nothing ever changes. So the model is pure: the tables are module constants, the operations are functions, and the properties are lemmas. The greeting is a method whose choice is left open, standing in for `random.choice`.

Files:

- `text.dfy` (module `Text`): ASCII lower-casing (`Lower`) and Python's substring test `sub in s` (`Contains`). `Contains` is a left-to-right scan, proved equal to "there is an index where `sub` occurs".
- `rules.dfy` (module `Rules`): a general ordered rule table and its first-match-wins reading, `FirstMatch`. A rule fires when each of its clauses has one of its keywords in the text.
- `bot.dfy` (module `Chatbot`): the greetings, the reply table, `Respond`, `AnalyzeStrategy`, `GetRiskAdvice` and `GetGreeting`, and the lemmas about them. One lemma shows that `Respond` equals `FirstMatch` over the table of its five rules.
- `scenarios.dfy` (module `Scenarios`): concrete queries and the replies they get.

Substring semantics are kept exactly as the source has them. For example, "ma" matches inside "management", so "strategy management" gets the moving-average reply.

## Model

| member | source | states |
|---|---|---|
| `Text.Lower` | src/chatbot/bot.py:20 | `query.lower()` for ASCII: the result has the query's length and no upper-case letter. Which letter each capital becomes is stated by `Text.LowerLetters`; what lower-casing means for the chatbot is carried by `Text.LowerFixedPoint`, `Text.LowerIdempotent` and `Text.ContainsLower`. |
| `Text.LowerLetters` | src/chatbot/bot.py:20 | Each of 'A' to 'Z' becomes its own lower-case letter, 'a' to 'z' in the same alphabet position. |
| `Text.Contains` | src/chatbot/bot.py:23-37 | Python's `sub in s`: a match needs room for `sub`, and a prefix is always found. `Text.ContainsIff` proves it is true exactly when `sub` occurs at some index. |
| `Text.ContainsIff` | src/chatbot/bot.py:23-38 | The scan behind each `in` test answers true exactly when the keyword occurs at some index of the query. |
| `Text.LowerFixedPoint` | src/chatbot/bot.py:20 | Lower-casing leaves a string unchanged exactly when it has no upper-case letter. |
| `Text.LowerIdempotent` | src/chatbot/bot.py:20 | Lower-casing twice gives the same string as lower-casing once. |
| `Text.ContainsLower` | src/chatbot/bot.py:20-23 | A keyword found in any spelling is still found, lower-cased, after the query is lower-cased. |
| `Rules.FirstMatch` | src/chatbot/bot.py:22-42 | An ordered table answers with the reply of the first rule that fires, answers with the fallback when no rule fires, and answers nothing else. |
| `Chatbot.GetGreeting` | src/chatbot/bot.py:15-17 | The greeting is always one of the three constructor greetings. |
| `Chatbot.Respond` | src/chatbot/bot.py:19-42 | Every query, including the empty one, is answered, and always with one of the six fixed replies. |
| `Chatbot.RepliesDistinct` | src/chatbot/bot.py:8-13 | The six replies are pairwise different, so a reply tells which rule produced it. |
| `Chatbot.RespondRules` | src/chatbot/bot.py:19-42 | Each of the six replies is given if and only if its test is the first in the chain to succeed on the lower-cased query. This covers strategy before risk, risk before optimize, optimize before backtest, and the default exactly when no keyword is present. |
| `Chatbot.StrategyPrecedence` | src/chatbot/bot.py:23-26 | A query that contains "strategy" gets the moving-average reply or the clarification prompt, never the risk, optimize, backtest or default reply. |
| `Chatbot.RespondCaseInsensitive` | src/chatbot/bot.py:19-20 | A query and its lower-cased form get the same answer. |
| `Chatbot.StrategyAnyCase` | src/chatbot/bot.py:20-26 | A query containing "strategy" in any mix of letter cases gets a strategy reply. |
| `Chatbot.RespondIsFirstMatch` | src/chatbot/bot.py:19-42 | The if/elif chain answers exactly as the first-match reading of its five-rule table, with the default prompt as fallback. |
| `Chatbot.AnalyzeStrategy` | src/chatbot/bot.py:44-45 | The answer is the fixed prefix, then the parameter text unchanged, then the fixed suffix. The parameter text is recovered from the middle of the answer. |
| `Chatbot.AnalyzeStrategyEchoes` | src/chatbot/bot.py:44-45 | The answer contains the parameter text verbatim. |
| `Chatbot.AnalyzeStrategyInjective` | src/chatbot/bot.py:44-45 | Different parameter texts give different answers. |
| `Chatbot.GetRiskAdvice` | src/chatbot/bot.py:47-53 | Every level gets one of the three pieces of advice in the table: a level that is a key gets its own entry, and any other level gets the "medium" entry. |
| `Chatbot.RiskAdviceTexts` | src/chatbot/bot.py:48-53 | "low", "medium" and "high" get their own advice texts, spelled out, and every other level gets the "Balanced approach: 1-2% risk per trade suggested." text. |
| `Chatbot.RiskAdviceDistinct` | src/chatbot/bot.py:48-52 | The levels "low", "medium" and "high" get three different pieces of advice. |
| `Chatbot.RiskAdviceFallback` | src/chatbot/bot.py:53 | A level gets the "medium" advice if and only if it is neither "low" nor "high", so an unrecognised level falls back to "medium". |
| `Scenarios.CapitalisedStrategy` | src/chatbot/bot.py:20-26 | "Strategy" is recognised despite its capital letter. Without "ma" it gets the clarification prompt. |
| `Scenarios.CapitalisedBacktest` | src/chatbot/bot.py:37-38 | "Backtest" gets the backtest reply. |
| `Scenarios.MaMatchesInsideWords` | src/chatbot/bot.py:24-25 | "strategy management" gets the moving-average reply, because "ma" matches inside "management". |
| `Scenarios.StrategyBeatsRisk` | src/chatbot/bot.py:23-30 | "your strategy risk" gets the strategy clarification prompt, not the risk reply. |
| `Scenarios.RiskBeatsBacktest` | src/chatbot/bot.py:29-38 | "backtest my risk" gets the risk reply, not the backtest reply. |
| `Scenarios.NoKeyword` | src/chatbot/bot.py:40-42 | "Hello" gets the default prompt. |
| `Scenarios.RiskLevelIsCaseSensitive` | src/chatbot/bot.py:53 | The level keys are matched exactly, so "LOW" and "nonsense" both get the "medium" advice. |

## Left out

- Lower-casing covers ASCII letters only. Python's `str.lower` is full Unicode: it maps other scripts, and a few characters lower-case to ASCII letters (the Kelvin sign, U+212A, becomes "k"). So a query such as "RIS" followed by a Kelvin sign is answered as a risk question by the source but not by this model.
- `Chatbot.GetGreeting`: the choice is left open, so its contract says which greeting can come back, not that each comes back with probability one third.
- `Chatbot.AnalyzeStrategy` takes a string. The source formats any object with `str()` inside the f-string; that conversion is not modelled.
- The default argument of `get_risk_advice` is recorded as the constant `DefaultRiskLevel`. Callers of the model always pass a level.
- The advice table is rebuilt on every call in the source. The model keeps it as one constant, which answers the same.
- The `NLPChatbot`/`StrategyChatbot` layers, with tokenisation and stop-word removal, are separate classes and are not modelled; this model covers `SimpleChatbot` only.
- The dashboard (`streamlit_app.py`), the market-data client (`src/data/fetcher.py`), configuration (`config/config.py`), and the installer and scaffolding scripts (`setup.py`, `create_structure.py`) are not part of this model. They are user interface, network I/O, environment reads and file-system side effects, and they contain no decision logic.
