# ОКО test bot: keyboards and conversation flow

This project models two files of a Telegram quiz bot for staff specializations:

- `library/keyboards.py` builds the inline keyboards: the main menu, the difficulty menu, the answer screen and the finish screen.
- `specializations/oko.py` holds the handlers of the ОКО specialization:
  - choose the specialization;
  - give the full name, the position and the department;
  - pick a difficulty level, which loads the questions and starts the test;
  - use the finish-screen actions: the graded answer report, repeat, main menu, certificate, statistics and help.

The model has four files:

- `wrappers.dfy`: the `Option` type.
- `strings.dfy`: the Python built-ins the two files depend on. These are `str(n)`, `str.strip()`, `s.split("_", 1)[1]`, `sorted` of a set of option numbers, and `", ".join` of their numerals. Each has its characterisation or its inverse proved.
- `keyboards.dfy`: a keyboard is modelled as its buttons in insertion order (label, callback token) plus the row sizes handed to `adjust`.
  - The menu builders are methods with a loop over the (label, token) list, proved equal to the keyboard functions.
  - The answer keyboard builder is a loop method proved equal to `TestKeyboard`.
- `oko.dfy`: the conversation context of the bot framework is a class `FsmContext`. It holds the FSM state and the data map, and its methods `SetState`, `UpdateData` and `Clear` change them in place. Each handler is a method on that context.
  - `Route` gives the handler an event reaches. It follows the decorators' filters in registration order.
  - `Step` is the pure specification of one event.
  - `Dispatch` runs the routed handler and is proved to produce exactly `Step`'s outcome.
  - The lemmas over `Step` state the properties of the flow.

Where the code and its comments disagree, the model follows the code:

- The docstring of `repeat_test` says it returns to the difficulty choice. The code clears the context and re-runs `select_oko`, which asks for the full name again.
- The docstring of `show_correct_answers` speaks of 60 seconds. Nothing in the code removes the message.

## Model

| member | source | states |
|---|---|---|
| Strings.NatToString | library/keyboards.py:83 | `str(i)` for a natural: a non-empty string of digits, with no leading zero unless the number is 0 |
| Strings.ParseNatToString | library/keyboards.py:95 | reading back the decimal numeral of `n` gives `n` |
| Strings.NatToStringInjective | library/keyboards.py:95 | different option numbers have different numerals, so different `ans_` tokens |
| Strings.Strip | specializations/oko.py:45 | `strip()` leaves no leading or trailing white space, is no longer than its input, and is empty exactly when the input is all white space |
| Strings.StripPadded | specializations/oko.py:45 | text padded on both sides by white space strips back to the text itself |
| Strings.StripIdempotent | specializations/oko.py:53 | stripping a stored answer again changes nothing |
| Strings.IndexOf | specializations/oko.py:78 | the position found holds the separator and none comes before it; no position exactly when the separator is absent |
| Strings.AfterFirst | specializations/oko.py:78 | `split(sep, 1)[1]` is defined exactly when the separator occurs |
| Strings.AfterFirstOfPrefixed | specializations/oko.py:78 | after a prefix without the separator, the split returns everything behind the first separator |
| Strings.SetMin | specializations/oko.py:175 | the least element of a non-empty set of option numbers |
| Strings.Sorted | specializations/oko.py:175 | `sorted(correct)`: the least element, then the rest sorted; its properties are stated by `Strings.SortedSpec` |
| Strings.SortedSpec | specializations/oko.py:175 | `sorted(correct)` has the set's elements, each once, in strictly increasing order |
| Strings.SortedInjective | specializations/oko.py:175 | two sets with the same sorted list are the same set |
| Strings.JoinNums | specializations/oko.py:175 | `", ".join(str(n) for n in ...)`; `Strings.ParseJoinNums` states that it reads back to its input |
| Strings.IsSpace | specializations/oko.py:45 | the characters Python's `str.isspace()` accepts, which `strip()` removes; used by `Strings.Strip` and `Strings.StripPadded` |
| Strings.ParseJoinNums | specializations/oko.py:175 | the `", "`-joined numerals read back to the same list, so the report's number list loses nothing |
| Keyboards.Buttons | library/keyboards.py:40-41 | one button per (label, token) pair, in list order, with that label and token |
| Keyboards.AddButtons | library/keyboards.py:40-41 | the button-adding loop appends exactly the pairs' buttons, in order, to what was there |
| Keyboards.MainKeyboard | library/keyboards.py:21-46 | the main-menu keyboard; its layout is stated by `Keyboards.MainKeyboardLayout` |
| Keyboards.BuildMainKeyboard | library/keyboards.py:21-46 | builds exactly the main-menu keyboard |
| Keyboards.MainKeyboardLayout | library/keyboards.py:26-44 | 12 buttons, with sizes `[2]` handed to `adjust`; the 11 specializations all on `spec_` tokens; ОКО is the 7th on `spec_oko`; help is last; no two tokens equal |
| Keyboards.DifficultyKeyboard | library/keyboards.py:49-64 | the difficulty keyboard; its layout is stated by `Keyboards.DifficultyKeyboardLayout` |
| Keyboards.BuildDifficultyKeyboard | library/keyboards.py:49-64 | builds exactly the difficulty keyboard |
| Keyboards.DifficultyKeyboardLayout | library/keyboards.py:53-63 | 4 buttons, with sizes `[1]` handed to `adjust`, carrying `diff_` followed by the levels in menu order |
| Keyboards.FinishKeyboard | library/keyboards.py:107-118 | the finish keyboard; its layout is stated by `Keyboards.FinishKeyboardLayout` |
| Keyboards.FinishKeyboardLayout | library/keyboards.py:107-118 | 5 buttons, with sizes `[1]` handed to `adjust`, in this order: show answers, certificate, repeat, statistics, main menu |
| Keyboards.Marker | library/keyboards.py:11-18 | options 1 to 6 show the digit followed by the keycap sequence; any other number shows its plain numeral; either way it starts with a digit |
| Keyboards.ShortText | library/keyboards.py:89 | texts of up to 30 characters are kept; longer ones become their first 30 characters followed by `...` |
| Keyboards.TestLayout | library/keyboards.py:102 | the sizes passed to `adjust` are `2`, then one `2` per pair of options, then a final `1` |
| Keyboards.Selection | library/keyboards.py:79 | `selected or set()`; `Keyboards.NoSelectionIsEmptySelection` states that `None` and the empty set draw the same keyboard |
| Keyboards.Label | library/keyboards.py:91 | an answer button's label; `Keyboards.LabelShape` and `Keyboards.LabelCheckmark` state its parts |
| Keyboards.AnswerToken | library/keyboards.py:95 | the `ans_<i>` token; `Keyboards.AnswerTokenRoundTrip` states that it reads back to `i` |
| Keyboards.TestKeyboard | library/keyboards.py:67-104 | `get_test_keyboard`; `Keyboards.TestKeyboardButton`, `Keyboards.CheckmarkIffSelected` and `Keyboards.TestCallbacks` state its buttons, and `Keyboards.BuildTestKeyboard` its length and layout |
| Keyboards.BuildTestKeyboard | library/keyboards.py:67-104 | the loop makes one answer button per option, numbered from 1, then "Next"; the layout is `TestLayout` |
| Keyboards.TestKeyboardOfButtons | library/keyboards.py:81-102 | the answer buttons built one by one, then "Next", with the `TestLayout` sizes, are exactly the answer keyboard |
| Keyboards.TestKeyboardButton | library/keyboards.py:81-96 | button `k` of the answer keyboard is the answer button of option `k + 1` |
| Keyboards.NoSelectionIsEmptySelection | library/keyboards.py:79 | `selected=None` draws the same keyboard as an empty selection |
| Keyboards.LabelCheckmark | library/keyboards.py:86-91 | a label starts with the checkmark exactly when its number is selected |
| Keyboards.CheckmarkIffSelected | library/keyboards.py:79-91 | on the answer keyboard, button `k` shows the checkmark exactly when option `k + 1` is selected |
| Keyboards.LabelShape | library/keyboards.py:91 | a label is the checkmark or nothing, then the marker, a space, and the shortened text; it is at most 34 characters longer than the first two parts |
| Keyboards.AnswerTokenRoundTrip | library/keyboards.py:95 | the `ans_<i>` token reads back to `i` |
| Keyboards.TestCallbacks | library/keyboards.py:93-99 | each answer token reads back to its own 1-based number; "next" reads as no answer; no two buttons share a token |
| Oko.FsmContext.SetState | specializations/oko.py:37 | only the state changes |
| Oko.FsmContext.UpdateData | specializations/oko.py:38 | only one key of the data changes |
| Oko.FsmContext.SetData | specializations/oko.py:142-151 | the library handlers' replacement of the data: only the data changes |
| Oko.FsmContext.Clear | specializations/oko.py:96 | the state and all data are dropped |
| Oko.Route | specializations/oko.py:31-217 | `spec_oko` is taken in any state; a `diff_` token only while waiting for the level; `ans_` tokens and `next` only during a test; a message only in the three intake states (each in both directions) |
| Oko.MenuRoute | specializations/oko.py:156-217 | the finish and help tokens reach their handlers whatever the state |
| Oko.MenuHandler | specializations/oko.py:156-217 | the handler of each token taken in any state; `Oko.MenuRoute` states that `Route` uses it |
| Oko.TextOr | specializations/oko.py:83-106 | `user_data.get(key, default)` for a text value; `Oko.NewTestOfIntake` and `Oko.StartedTestKeepsMetadata` state what it reads after the intake |
| Oko.NewTest | specializations/oko.py:99-107 | the new `CurrentTestState` from the stored data; `Oko.StartedTestKeepsMetadata` states that it carries the recorded answers |
| Oko.Collect | specializations/oko.py:42-67 | the outcome of one intake message; `Oko.MessageStep` states it for each intake state |
| Oko.ChooseLevel | specializations/oko.py:70-133 | the outcome of a level choice; `Oko.UnknownLevelChangesNothing`, `Oko.EmptyQuestionListClears` and `Oko.LevelStep` state its three cases |
| Oko.Step | specializations/oko.py:31-232 | one event: route, then the handler's effect; `Oko.Dispatch` implements it, and `Oko.StepKeepsConsistent`, `Oko.Intake`, `Oko.TestPressesDelegate` and the other flow lemmas state its properties |
| Oko.UserAnswer | specializations/oko.py:170 | the answer given to a question, the empty set if none; used by `Oko.ReportGrades` |
| Oko.GradeRow | specializations/oko.py:170-177 | one graded row; `Oko.ReportGrades` states its number, verdict and number list |
| Oko.Report | specializations/oko.py:169-177 | one row per question; `Oko.ReportGrades` states each row and `Oko.GradeAll` that the loop builds it |
| Oko.AnswersReply | specializations/oko.py:159-177 | the reply of `show_correct_answers`; `Oko.NoTestNoReport` states the missing-test case and `Oko.ShowCorrectAnswers` that the handler gives it |
| Oko.LevelName | specializations/oko.py:78 | for a `diff_` token the level name is everything after `diff_` |
| Oko.SelectOko | specializations/oko.py:31-39 | sets the state to waiting for the full name; records the specialization `oko`; keeps all other data |
| Oko.ProcessName | specializations/oko.py:42-47 | stores the stripped name and moves to waiting for the position; a message without text changes nothing |
| Oko.ProcessPosition | specializations/oko.py:50-55 | stores the stripped position and moves to waiting for the department; a message without text changes nothing |
| Oko.ProcessDepartment | specializations/oko.py:58-67 | stores the stripped department, offers the difficulty keyboard and waits for the level; a message without text changes nothing |
| Oko.SelectDifficulty | specializations/oko.py:70-133 | an unknown level is reported and changes nothing; an empty question list clears the context; otherwise the test state built from the stored data (defaults `oko` and `""`) is stored and the test starts at question 0 |
| Oko.GradeAll | specializations/oko.py:169-177 | the grading loop yields exactly the report, one row per question in order |
| Oko.ShowCorrectAnswers | specializations/oko.py:156-182 | the reply is the report for a stored test and the not-found error when none is stored; nothing changes |
| Oko.RepeatTest | specializations/oko.py:192-196 | clears everything and restarts as `select_oko`: waiting for the full name, with only the specialization stored |
| Oko.BackToMain | specializations/oko.py:206-214 | clears state and data and shows the main-menu keyboard |
| Oko.RunDelegate | specializations/oko.py:136-151 | an answer or "next" press during a test is handed to the library's handler: the context becomes what that handler makes of it |
| Oko.Dispatch | specializations/oko.py:31-232 | running the routed handler on the context produces exactly the new state, the data and the reply that `Step` specifies |
| Oko.StepKeepsConsistent | specializations/oko.py:31-151 | provided the library's answer and next handlers keep it, every event keeps the invariant that each intake state has the earlier answers recorded and a running test has a stored, non-empty question list |
| Oko.TestPressesDelegate | specializations/oko.py:136-151 | during a test an answer or "next" press leaves the conversation as the library's handler makes it, with the matching delegated reply |
| Oko.StartedTestKeepsMetadata | specializations/oko.py:99-107 | a test started from a consistent conversation carries the recorded specialization, name, position and department (not the defaults) and no answers |
| Oko.UnknownLevelChangesNothing | specializations/oko.py:78-79 | a level the difficulty enum rejects is reported and leaves state and data unchanged |
| Oko.EmptyQuestionListClears | specializations/oko.py:92-97 | a known level with no questions to load clears the whole conversation |
| Oko.GuardedCallbacks | specializations/oko.py:70-148 | `diff_` tokens are ignored outside the level choice; answer and `next` tokens are ignored outside a test |
| Oko.MessageStep | specializations/oko.py:42-67 | in each of the three intake states a text message stores its stripped text under that state's key and moves to the next state |
| Oko.LevelStep | specializations/oko.py:99-123 | a known level with questions stores the new test state, enters the test and shows question 0 |
| Oko.NewTestOfIntake | specializations/oko.py:83-107 | after the intake, the new test state carries `oko` and the recorded answers |
| Oko.IntakeAnswers | specializations/oko.py:31-67 | choosing ОКО and sending three messages records the three stripped answers and waits for the level |
| Oko.Intake | specializations/oko.py:31-123 | from any conversation, the whole intake with a loadable level starts a fresh test on question 0 holding the stripped answers, `oko` and no answers yet |
| Oko.RepeatStartsOver | specializations/oko.py:192-196 | "Repeat" in any state leaves only the specialization stored and asks for the full name |
| Oko.MainMenuClears | specializations/oko.py:206-214 | "Main menu" in any state clears state and data and shows the main menu |
| Oko.InfoButtonsChangeNothing | specializations/oko.py:185-232 | help, certificate and statistics reply in any state and leave the conversation unchanged |
| Oko.ReportGrades | specializations/oko.py:169-177 | the row of question `k` is numbered `k + 1`; a row is correct exactly when the chosen set (empty if unanswered) is the correct set; its number list reads back to the correct set's elements, each once, in ascending order |
| Oko.NoTestNoReport | specializations/oko.py:159-164 | without a stored test state, "show answers" gives only the not-found error |
| Oko.TestKeyboardRoutes | specializations/oko.py:136-151 | during a test every answer button reaches the toggle handler and "Next" reaches the next-question handler; outside a test neither is handled |
| Oko.DifficultyKeyboardRoutes | specializations/oko.py:70-79 | while waiting for the level, every difficulty button reaches `select_difficulty`, which reads its level name from it |
| Oko.FinishKeyboardRoutes | specializations/oko.py:156-214 | every finish-screen button reaches its handler in any state |
| Oko.MainKeyboardRoutes | specializations/oko.py:31-232 | the main menu's ОКО button starts this flow from any state; its help button reaches `show_help` |

## Left out

- The question timer in `select_difficulty` (`create_timer`, `on_timeout`, `timer.start`) is not modelled. It is asynchronous and is not part of this core.
- `load_questions_for_specialization` is not part of this model. It is the parameter `load` of type (specialization, level) → questions, and the user id it also receives is dropped.
- The `Difficulty` enum is not part of this model. The level names it accepts are the parameter `levels`. `Difficulty(name)` raising `ValueError` is modelled as `name !in levels`.
- `handle_answer_toggle`, `handle_next_question`, `show_question` and `finish_test` are not part of this model.
  - What the answer and next handlers (and `finish_test`, which they call) make of the conversation is the parameter `delegate`. The model routes the presses to it and stores its result in the context.
- Oko.StepKeepsConsistent: holds only under the hypothesis that `delegate` keeps a consistent running test consistent, because the library handlers' code is not part of this model.
  - `show_question` appears only as the reply `ShowQuestion(0)`.
- `CurrentTestState` is not part of this model. Its fields are assumed from their use: `correct_answers` and `answers_history` are sets of option numbers.
- `generate_certificate`, `show_stats` and `show_help` are modelled only by their routing and their replies. They have no state to change.
- All message texts, HTML formatting, `edit_text` and `answer` calls, and logging are left out. They are I/O.
  - The replies record what is shown: the keyboard, the question index, the report rows, the error kind.
  - The report rows' emoji and HTML are left out.
- How `adjust` cuts the buttons into rows is left out. It belongs to the bot framework. The keyboards record only the sizes handed to it.
- Other routers sharing the same FSM context are left out. `Route` answers only for this router, and `Unrouted` means none of its handlers matched.
- An exception escaping a handler is modelled as the reply `Failed` with nothing changed. The cases are a message without text in the three intake handlers, and a stored `test_state` that is a non-empty text.
- The planned automatic deletion of the answer report is left out. It is not implemented in the code either.
