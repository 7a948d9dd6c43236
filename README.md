# MathQuizBot core, modelled in Dafny

MathQuizBot is a Discord bot that builds small arithmetic quizzes for each user.
This project models the part of `QuizBot.py` that does not depend on Discord:

- a **question** (`Question`): two integer operands and one of `+ - * /`;
- the user's **settings** (`Settings`): the question count, the largest number,
  the included operators and whether negatives are allowed, each with a
  validating setter;
- **quiz generation** (`Quiz.generate_quiz`): clear the questions, then draw
  `num_questions` new ones from the ranges the code uses;
- the **session record** of one user: taking a quiz (the scoring loop of
  `start`), the report, the stats and `reset_stats`.

Modules, one per component:

| module | models |
|---|---|
| `Outcomes` | the exceptions the core raises, as error values; `Option`, `Result`, `Outcome` |
| `Arithmetic` | `Abs` and the facts about Euclidean `/` and `%` the division questions need |
| `Questions` | `Op`, `Question`, the constructor `NewQuestion`, `Value` (`get_result`) and `Answers` (the `==` of the scoring loop) |
| `Randomness` | numpy's `randint(low, high)` (half-open) and `choice`, as arbitrary picks from their ranges |
| `Configuration` | the `Settings` class, a `Config` snapshot of it, and the operator filter of `set_operations` |
| `Generation` | `Generable` (the questions one draw can produce, range by range), the draws as `Picks` and the question `Draw` builds from them, `DrawQuestion`, the `Quiz` class |
| `Scoring` | `CountCorrect`, the question loop `AskQuestions`, the report and stats values, the `Session` class |

How the model is built:

- `Settings`, `Quiz` and the session record are classes, because the source
  updates their fields in place. Each setter says exactly what its field
  becomes, success or failure, and its `modifies` clause names that one field.
  So a rejected setter provably leaves everything unchanged.
- The Python session dictionary (`QuizBot.py:222-229`) becomes the `Session`
  class. `Session.Valid` is the invariant: the quiz shares the session's
  settings object, the recorded answers are either none or one per question,
  the score is the count of right answers, and `0 <= numCorrect <= numAttempted`.
- The random draws are arbitrary picks from numpy's ranges. `randint(low, high)`
  excludes `high`, so the divisor is in `[1, max_num]`, the quotient in
  `[0, max_num // num2 - 1]` and each sign flip is 0 or 1. Because the picks are
  arbitrary, every property proved of generation holds whatever the random
  source returns.
- The values one pass of the generation loop draws are a `Picks` value, and
  `Draw(cfg, picks)` is the question the loop body builds from them.
  `DrawQuestion` returns the picks it drew, each in its numpy range
  (`InRange`), and the question, which is `Draw` of them. Since each draw may
  return any value of its range, every picks value in range is a possible draw.
- `Generable(cfg, q)` states the questions one draw can produce, range by
  range. `GenerableIffDrawn` proves that it holds exactly for the questions
  `Draw` builds from picks in range. The lemmas `DivisionBounds`,
  `GenerableExact`, `GenerableBounded` and `GenerableNonNegative` derive the
  promised properties from it.
- The user is an injected function `respond(i, q)`: the integer typed for the
  i-th question `q`.
- Division: the source uses Python's true division. Every generated divisor is
  nonzero and divides its dividend exactly (`GenerableExact`), so `Value`
  takes exactness as its precondition and returns the exact quotient.
  `Answers(q, a)` is the scoring loop's `user_input == get_result()`, written so
  that it needs no precondition. For `/` it holds when `a * right == left`, so
  an inexact quotient matches no integer (`InexactHasNoAnswer`). For an exact
  quotient of magnitude at most 2^53 this agrees with Python's comparison of
  an int with the float quotient, since such a float is that integer exactly.
  Every generated quotient is below `max_num` in magnitude, so the two agree on
  every generated question when `max_num <= 2^53`.
- In `start`, the local `questions` is taken before `generate_quiz` runs. It is
  still the quiz's own list, which `generate_quiz` clears and refills in place,
  so the loop walks the new questions. The model reads `quiz.questions` after
  generation.
- The loop body of `generate_quiz` is the method `DrawQuestion`. The filtering
  loop of `set_operations` is `FilterOperations`. The question loop of `start`
  is `AskQuestions`. The class methods call these.

Two consequences of the code's ranges and loops:

- `randint(0, max_num // num2)` excludes its upper end. So a dividend never
  reaches `max_num`, and a divisor equal to `max_num` always has dividend 0.
  `DivisionBounds` states the resulting bound: `|left| <= max_num - |right|`.
- The question loop of `start` gathers exactly one answer per question, so the
  answers and the questions always have the same length. `AskQuestions` builds
  them that way, and the scoring functions take equal lengths as their
  precondition.

## Model

| member | source | states |
|---|---|---|
| `Questions.ParseOp` | QuizBot.py:47-51 | a symbol is accepted exactly when it is one of `+ - * /`, and the operator it gives has that symbol |
| `Questions.NewQuestion` | QuizBot.py:42-51 | the constructor succeeds exactly for a legal operator and then keeps both operands and that operator; otherwise it fails with `UnsupportedOperator` |
| `Questions.Value` | QuizBot.py:57-68 | `get_result`; for a division, the result times the divisor is the dividend (an exact quotient) |
| `Questions.ParseSymbol` | QuizBot.py:47-51 | the inverse of `ParseOp`: the symbol of an operator parses back to that operator |
| `Questions.Answers` | QuizBot.py:319 | the scoring comparison `user_input == get_result()`: for `/`, the answer times a nonzero divisor is the dividend; otherwise the answer equals the value (a definition; its properties are the next two rows) |
| `Questions.AnswersIffValue` | QuizBot.py:319 | on a question with an integer result, an answer scores exactly when it equals `get_result` |
| `Questions.InexactHasNoAnswer` | QuizBot.py:319 | a division whose quotient is not an integer is matched by no integer answer |
| `Randomness.RandInt` | QuizBot.py:177-191 | numpy `randint(low, high)` gives a value in `[low, high)`, upper end excluded |
| `Randomness.Choice` | QuizBot.py:172 | `random.choice` gives an element of the list |
| `Configuration.FilterOperations` | QuizBot.py:121-124 | the filtering loop builds exactly `FirstSeenLegal` of its input |
| `Configuration.FirstSeenLegalStep` | QuizBot.py:121-124 | one pass of the loop: the next symbol is appended exactly when it is legal and has not occurred before |
| `Configuration.FirstSeenLegalSpec` | QuizBot.py:120-128 | the filtered list has no duplicates, holds exactly the input's symbols that are in `allowed_operations`, and keeps them in the order of their first occurrence |
| `Configuration.FirstSeenLegalUnique` | QuizBot.py:120-128 | those three properties determine the filtered list: any list that has them equals it |
| `Configuration.FirstSeenLegalValid` | QuizBot.py:120-128 | a non-empty filtered list is a valid operator list: non-empty, duplicate-free, all legal |
| `Configuration.FirstSeenLegalEmpty` | QuizBot.py:125-126 | the filtered list is empty, so `set_operations` fails, exactly when the input has no legal symbol |
| `Configuration.DuplicateSymbolsCollapse` | QuizBot.py:120-128 | `["+", "+", "-"]` is filtered to `["+", "-"]` |
| `Configuration.IllegalSymbolsRejected` | QuizBot.py:125-126 | `[]` and `["@", "%"]` both filter to the empty list |
| `Configuration.Settings.constructor` | QuizBot.py:85-89 | the defaults: 10 questions, maximum 10, all four operators, no negatives; the invariant holds |
| `Configuration.Settings.GetNumQuestions` | QuizBot.py:94-95 | the question count, always positive |
| `Configuration.Settings.GetMaxNum` | QuizBot.py:97-98 | the maximum number, always positive |
| `Configuration.Settings.GetOperations` | QuizBot.py:100-101 | the operator list, always non-empty, duplicate-free and legal |
| `Configuration.Settings.SetNumQuestions` | QuizBot.py:106-110 | a positive count is stored and succeeds; any other count fails with `NoQuestions` and the field keeps its old value; no other field changes |
| `Configuration.Settings.SetMaxNum` | QuizBot.py:112-116 | a positive maximum is stored and succeeds; any other fails with `NonPositiveMax` and the field keeps its old value; no other field changes |
| `Configuration.Settings.SetOperations` | QuizBot.py:120-128 | stores the filtered list and succeeds when it is non-empty; otherwise fails with `NoLegalOperators` and keeps the old list; no other field changes |
| `Configuration.Settings.SetNegative` | QuizBot.py:130-131 | the sign policy becomes the argument, unconditionally; the invariant is kept |
| `Generation.Generable` | QuizBot.py:171-196 | the ranges of one draw: the operator from the settings' list; for `/` a divisor of magnitude 1..`max_num` and a quotient below `max_num // divisor`, signs flipped only with negatives allowed; otherwise operands in `[-max_num, max_num]`, or in `[0, max_num]` with the larger first for `-` (a definition; its properties are the lemmas below) |
| `Generation.DrawGenerable` | QuizBot.py:171-198 | picks from the numpy ranges always build a question (the constructor never raises), and it is generable |
| `Generation.GenerableDrawn` | QuizBot.py:171-198 | every generable question is built by the loop body from some picks in range |
| `Generation.GenerableIffDrawn` | QuizBot.py:171-198 | a question is generable exactly when the loop body builds it from picks in range |
| `Generation.DivisionBounds` | QuizBot.py:176-184 | every generated division has `1 <= abs(num2) <= max_num`, `num1` an exact multiple of `num2`, and `abs(num1) <= max_num - abs(num2)` |
| `Generation.GenerableExact` | QuizBot.py:174-179 | every generated question has an integer value |
| `Generation.GenerableBounded` | QuizBot.py:176-191 | every operand of every generated question lies in `[-max_num, max_num]` |
| `Generation.GenerableNonNegative` | QuizBot.py:189-196 | with negatives disallowed, every operand lies in `[0, max_num]`, a subtraction has `num1 >= num2`, and every result is at least 0 |
| `Generation.DivisionSignsReachable` | QuizBot.py:176-184 | with negatives allowed and `max_num >= 2`, picks in range build a division of each of the four sign combinations |
| `Generation.DrawQuestion` | QuizBot.py:171-198 | one pass of the loop body: the values drawn are in their numpy ranges, the question is the one `Draw` builds from them, and it is generable |
| `Generation.Quiz.constructor` | QuizBot.py:143-145 | a new quiz holds the given settings and no questions |
| `Generation.Quiz.UpdateSettings` | QuizBot.py:159-160 | the quiz now reads the given settings |
| `Generation.Quiz.GenerateQuiz` | QuizBot.py:163-198 | afterwards the quiz holds exactly `num_questions` questions, no earlier ones, each generable from the current settings |
| `Scoring.CountCorrect` | QuizBot.py:303-320 | the score of a quiz never exceeds its number of questions |
| `Scoring.CountCorrectIsNumberOfIndices` | QuizBot.py:308-320 | the score is the number of positions `i` where `answers[i]` equals the result of `questions[i]` |
| `Scoring.FullScoreIffAllCorrect` | QuizBot.py:308-320 | the score is full exactly when every answer is right |
| `Scoring.Results` | QuizBot.py:347 | the correct answers: one per question, each one matching its question |
| `Scoring.PerfectAnswersScoreFull` | QuizBot.py:319-320 | answering every question with its result gives a full score |
| `Scoring.ScoringExample` | QuizBot.py:319-320 | the quiz `[2 + 2, 10 / 5]` answered `[4, 3]` scores 1 |
| `Scoring.AskQuestions` | QuizBot.py:308-325 | one answer per question, in order, from the user, and the score is the number of them that are right |
| `Scoring.ReportLines` | QuizBot.py:346-347 | one report entry per question, in order, with the user's answer and, as the correct answer, the question's `get_result`; an entry's answer equals its correct answer exactly when it scored |
| `Scoring.ReportScoreCounts` | QuizBot.py:345-347 | the score the report shows is the number of its entries whose answer equals the correct one |
| `Scoring.Session.constructor` | QuizBot.py:219-229 | a new user's record: default settings, an empty quiz sharing them, no answers, all counters zero |
| `Scoring.Session.Start` | QuizBot.py:294-332 | generates `num_questions` generable questions, records one answer per question, sets the score to the number of right answers, adds it to `num_correct` and the question count to `num_attempted`; the session invariant (in particular `num_correct <= num_attempted`) is kept |
| `Scoring.Session.ViewReport` | QuizBot.py:336-348 | no report before any answer is recorded; otherwise the score over the question count, one entry per question in order with the user's answer and the question's `get_result`, and the score equals the number of entries whose answer equals that result |
| `Scoring.Session.ViewStats` | QuizBot.py:351-359 | nothing while no question has been attempted; otherwise both counters, with correct at most attempted |
| `Scoring.Session.ResetStats` | QuizBot.py:362-365 | zeroes `num_attempted` and `num_correct` and clears the answers; the score and the quiz are untouched; the invariant is kept |

## Left out

- The Discord bot: events, command decorators, the before-invoke hook, `bot.wait_for` and every message sent (`QuizBot.py:29-32`, `209-400`). These are transport and asynchrony. The user's answers come in through the `respond` parameter.
- The per-user dictionary `user_sessions` and its lazy insertion. The model has one `Session` object per user, and sessions share no state.
- The OpenAI call, the prompt it is sent and `explain_question` (`QuizBot.py:370-398`), and the `.env` token loading (`QuizBot.py:24-27`). These are foreign network calls.
- The distribution of numpy's generator. Only the ranges are modelled. A probability, such as the one-half chance of a sign flip, cannot be stated.
- The `__str__` texts of questions, settings and quizzes, and the percentages in the score, report and stats messages. These are text formatting and float division.
- Parsing the user's message with `int(...)` and re-prompting on bad input (`QuizBot.py:314-325`). This belongs to the transport. Answers reach the core as integers.
- `Questions.Value`: requires an exact question, so it does not model the float that Python's `/` returns for a division that is not exact. No generated question is like that.
- `Questions.Answers`: treats a question with divisor 0 as never answered. The source raises `ZeroDivisionError` there, and the re-prompt loop catches it. No generated question has divisor 0.
- `Questions.Answers`: compares integers exactly. Python compares the answer with the float `num1 / num2`, which is the quotient rounded to the nearest float: an exact quotient beyond 2^53 may round to a neighbouring integer, and a quotient that is not an integer may round to an integer. Example of the first: with `max_num = 2^53 + 2`, divisor 1 and quotient `2^53 + 1`, the source scores the answer `2^53` and not `2^53 + 1`; the model scores the reverse. `Scoring.PerfectAnswersScoreFull` holds of the source only for quotients of magnitude at most 2^53. Floating point is not modelled.
- `Questions.InexactHasNoAnswer`: holds of the exact comparison only. In the source, a quotient that is not an integer but whose float rounds to an integer is matched by that integer: `(10^17 + 1) / 10^17` is 1 + 10^-17, which Python rounds to `1.0`, so the answer 1 scores. No generated question has an inexact quotient, so scoring of generated quizzes is unaffected.
- `Generation.Quiz.GenerateQuiz`: the model's integers are unbounded, so generation succeeds for every positive `max_num`. numpy's `randint` draws 64-bit integers by default and rejects bounds beyond that range, so the source fails, after clearing the questions, once `max_num + 1` exceeds 2^63. The machine width of numpy's draws is not modelled.
- The `case _: return None` branch of `get_result` is not modelled. `Op` has only four constructors, and the constructor already rejects every other symbol.
- `Settings.GetNegative`: it only returns the field, which any boolean may hold, so it has no contract.
- `Quiz.get_settings` and `Quiz.get_questions`: the model reads the fields directly.
- Aliasing of the operator list returned by `get_operations`. Python returns the list object itself, so a caller could mutate it. The model's lists are values.
- Async interleaving of commands during a quiz. Example: `view_report` while `start` is still collecting answers, which the source would answer with an index error. The model runs each command to completion.
