/**
 * The bot's inline keyboards (library/keyboards.py). A keyboard is the list of
 * buttons in the order they are added to the builder, each a label and a
 * callback token, together with the row sizes handed to `adjust`; how `adjust`
 * cuts the buttons into rows belongs to the bot framework and is not modelled.
 */
module Keyboards {
  import opened Wrappers
  import opened Strings

  datatype Button = Button(text: string, callback: string)

  /** A finished keyboard: the buttons in insertion order and the sizes passed to `adjust`. */
  datatype Markup = Markup(buttons: seq<Button>, sizes: seq<nat>)

  /** The buttons for a list of (label, callback) pairs, in list order. */
  function Buttons(pairs: seq<(string, string)>): (bs: seq<Button>)
    ensures |bs| == |pairs|
    ensures forall k :: 0 <= k < |pairs| ==> bs[k].text == pairs[k].0 && bs[k].callback == pairs[k].1
  {
    seq(|pairs|, k requires 0 <= k < |pairs| => Button(pairs[k].0, pairs[k].1))
  }

  /** The `for text, callback in ...: builder.button(...)` loop shared by the menu keyboards. */
  method AddButtons(added: seq<Button>, pairs: seq<(string, string)>) returns (bs: seq<Button>)
    ensures bs == added + Buttons(pairs)
  {
    bs := added;
    for k := 0 to |pairs|
      invariant bs == added + Buttons(pairs[..k])
    {
      assert pairs[..k + 1] == pairs[..k] + [pairs[k]];
      bs := bs + [Button(pairs[k].0, pairs[k].1)];
    }
    assert pairs[..|pairs|] == pairs;
  }

  // ---------------------------------------------------------------------------
  // Main menu

  /** The eleven specializations, in menu order. */
  const Specializations: seq<(string, string)> := [
    ("🚨 ООУПДС", "spec_oupds"),
    ("📊 Исполнители", "spec_ispolniteli"),
    ("🧑‍🧑‍🧒 Алименты", "spec_aliment"),
    ("🎯 Дознание", "spec_doznanie"),
    ("⏳ Розыск", "spec_rozyisk"),
    ("📈 Профподготовка", "spec_prof"),
    ("📡 ОКО", "spec_oko"),
    ("💻 Информатизация", "spec_informatika"),
    ("👥 Кадры", "spec_kadry"),
    ("🔒 Безопасность", "spec_bezopasnost"),
    ("💼 Управление", "spec_upravlenie")
  ]

  const HelpButton: Button := Button("❓ Помощь", "help")

  function MainKeyboard(): Markup {
    Markup(Buttons(Specializations) + [HelpButton], [2])
  }

  method BuildMainKeyboard() returns (m: Markup)
    ensures m == MainKeyboard()
  {
    var bs := AddButtons([], Specializations);
    bs := bs + [HelpButton];
    m := Markup(bs, [2]);
  }

  /** Twelve buttons, two per row: the specializations in order, each on a `spec_` token, then help. */
  lemma MainKeyboardLayout()
    ensures var m := MainKeyboard();
      && |m.buttons| == 12
      && m.sizes == [2]
      && (forall k :: 0 <= k < 11 ==> StartsWith(m.buttons[k].callback, "spec_"))
      && m.buttons[6] == Button("📡 ОКО", "spec_oko")
      && m.buttons[11] == HelpButton
      && (forall j, k :: 0 <= j < k < 12 ==> m.buttons[j].callback != m.buttons[k].callback)
  {
    var m := MainKeyboard();
    var tokens := seq(12, k requires 0 <= k < 12 => m.buttons[k].callback);
    assert tokens == ["spec_oupds", "spec_ispolniteli", "spec_aliment", "spec_doznanie", "spec_rozyisk",
                      "spec_prof", "spec_oko", "spec_informatika", "spec_kadry", "spec_bezopasnost",
                      "spec_upravlenie", "help"];
  }

  // ---------------------------------------------------------------------------
  // Difficulty menu

  const Difficulties: seq<(string, string)> := [
    ("🥉 Резерв (20 вопросов, 35 мин)", "diff_резерв"),
    ("🥈 Базовый (30 вопросов, 25 мин)", "diff_базовый"),
    ("🥇 Стандартный (40 вопросов, 20 мин)", "diff_стандартный"),
    ("💎 Продвинутый (50 вопросов, 20 мин)", "diff_продвинутый")
  ]

  /** The level names carried by the difficulty tokens, in menu order. */
  const DifficultyLevels: seq<string> := ["резерв", "базовый", "стандартный", "продвинутый"]

  function DifficultyKeyboard(): Markup {
    Markup(Buttons(Difficulties), [1])
  }

  method BuildDifficultyKeyboard() returns (m: Markup)
    ensures m == DifficultyKeyboard()
  {
    var bs := AddButtons([], Difficulties);
    m := Markup(bs, [1]);
  }

  /** Four buttons, one per row, carrying `diff_<level>` for the levels in menu order. */
  lemma DifficultyKeyboardLayout()
    ensures var m := DifficultyKeyboard();
      && |m.buttons| == 4
      && m.sizes == [1]
      && forall k :: 0 <= k < 4 ==> m.buttons[k].callback == "diff_" + DifficultyLevels[k]
  {
    var m := DifficultyKeyboard();
    forall k | 0 <= k < 4
      ensures m.buttons[k].callback == "diff_" + DifficultyLevels[k]
    {
      assert m.buttons[k].callback == Difficulties[k].1;
    }
  }

  // ---------------------------------------------------------------------------
  // Finish screen

  const FinishTokens: seq<string> := ["show_answers", "generate_cert", "repeat_test", "my_stats", "main_menu"]

  function FinishKeyboard(): Markup {
    Markup([
      Button("📋 Показать правильные ответы", "show_answers"),
      Button("🏆 Сертификат PDF", "generate_cert"),
      Button("🔄 Повторить тест", "repeat_test"),
      Button("📊 Моя статистика", "my_stats"),
      Button("🏠 Главное меню", "main_menu")
    ], [1])
  }

  /** Five buttons, one per row, in the order show answers, certificate, repeat, stats, main menu. */
  lemma FinishKeyboardLayout()
    ensures var m := FinishKeyboard();
      && |m.buttons| == 5
      && m.sizes == [1]
      && forall k :: 0 <= k < 5 ==> m.buttons[k].callback == FinishTokens[k]
  {
  }

  // ---------------------------------------------------------------------------
  // Answer screen

  /** NUMBER_EMOJI: the keycap emoji for the option numbers 1 to 6. */
  const NumberEmoji: map<nat, string> := map[
    1 := "1️⃣",
    2 := "2️⃣",
    3 := "3️⃣",
    4 := "4️⃣",
    5 := "5️⃣",
    6 := "6️⃣"
  ]

  /** What turns a digit into its keycap emoji: VARIATION SELECTOR-16 and COMBINING ENCLOSING KEYCAP. */
  const Keycap: string := "\U{FE0F}\U{20E3}"

  const Checkmark: string := "✅ "

  const NextButton: Button := Button("➡️ Далее", "next")

  /** `NUMBER_EMOJI.get(i, str(i))`: the number shown on answer button `i`. */
  function Marker(i: nat): (m: string)
    ensures 1 <= i <= 6 ==> m == NatToString(i) + Keycap
    ensures !(1 <= i <= 6) ==> m == NatToString(i)
    ensures |m| >= 1 && IsDigit(m[0])
  {
    if i in NumberEmoji then NumberEmoji[i] else NatToString(i)
  }

  /** The option text as shown: at most 30 characters, with `...` when it was cut. */
  function ShortText(text: string): (r: string)
    ensures |text| <= 30 ==> r == text
    ensures |text| > 30 ==> |r| == 33 && r[..30] == text[..30] && r[30..] == "..."
    ensures |r| <= 33
  {
    if |text| > 30 then text[..30] + "..." else text
  }

  /** `selected or set()`: no selection and an empty selection are the same. */
  function Selection(selected: Option<set<int>>): set<int> {
    match selected
    case None => {}
    case Some(s) => s
  }

  /** The label of answer button `i`: checkmark if selected, number marker, a space, the short text. */
  function Label(i: nat, selection: set<int>, option: string): string {
    (if i in selection then Checkmark else "") + Marker(i) + " " + ShortText(option)
  }

  /** The callback token of answer button `i`, `ans_<i>`. */
  function AnswerToken(i: nat): string {
    "ans_" + NatToString(i)
  }

  /** Reads the option number back from an `ans_<i>` token; `None` for any other token. */
  function AnswerIndex(token: string): Option<nat> {
    if StartsWith(token, "ans_") && |token| > 4 && AllDigits(token[4..])
    then Some(ParseNat(token[4..]))
    else None
  }

  lemma AnswerTokenRoundTrip(i: nat)
    ensures AnswerIndex(AnswerToken(i)) == Some(i)
  {
    var t := AnswerToken(i);
    assert t[..4] == "ans_";
    assert t[4..] == NatToString(i);
    ParseNatToString(i);
  }

  function AnswerButton(i: nat, selection: set<int>, option: string): Button {
    Button(Label(i, selection, option), AnswerToken(i))
  }

  /** The sizes handed to `adjust`: `2`, then one `2` per pair of options, then `1`. */
  function TestLayout(n: nat): (sizes: seq<nat>)
    ensures |sizes| == n / 2 + 2
    ensures sizes[|sizes| - 1] == 1
    ensures forall k :: 0 <= k < |sizes| - 1 ==> sizes[k] == 2
  {
    [2] + seq(n / 2, _ => 2) + [1]
  }

  /** `get_test_keyboard(options, selected)`: one answer button per option, then "Next". */
  function TestKeyboard(options: seq<string>, selected: Option<set<int>>): Markup {
    var sel := Selection(selected);
    Markup(seq(|options|, k requires 0 <= k < |options| => AnswerButton(k + 1, sel, options[k])) + [NextButton],
           TestLayout(|options|))
  }

  method BuildTestKeyboard(options: seq<string>, selected: Option<set<int>>) returns (m: Markup)
    ensures |m.buttons| == |options| + 1
    ensures forall k :: 0 <= k < |options| ==> m.buttons[k] == AnswerButton(k + 1, Selection(selected), options[k])
    ensures m.buttons[|options|] == NextButton
    ensures m.sizes == TestLayout(|options|)
    ensures m == TestKeyboard(options, selected)
  {
    var sel := Selection(selected);
    var bs: seq<Button> := [];
    var i := 1;
    while i <= |options|
      invariant 1 <= i <= |options| + 1
      invariant |bs| == i - 1
      invariant forall k :: 0 <= k < i - 1 ==> bs[k] == AnswerButton(k + 1, sel, options[k])
    {
      var numberEmoji := Marker(i);
      var check := if i in sel then Checkmark else "";
      var shortText := ShortText(options[i - 1]);
      assert Button(check + numberEmoji + " " + shortText, AnswerToken(i)) == AnswerButton(i, sel, options[i - 1]);
      bs := bs + [Button(check + numberEmoji + " " + shortText, AnswerToken(i))];
      i := i + 1;
    }
    TestKeyboardOfButtons(options, selected, bs);
    bs := bs + [NextButton];
    m := Markup(bs, TestLayout(|options|));
  }

  /** Answer buttons built one by one, then "Next", make up the answer keyboard. */
  lemma TestKeyboardOfButtons(options: seq<string>, selected: Option<set<int>>, bs: seq<Button>)
    requires |bs| == |options|
    requires forall k :: 0 <= k < |options| ==> bs[k] == AnswerButton(k + 1, Selection(selected), options[k])
    ensures TestKeyboard(options, selected) == Markup(bs + [NextButton], TestLayout(|options|))
  {
    var sel := Selection(selected);
    assert bs == seq(|options|, k requires 0 <= k < |options| => AnswerButton(k + 1, sel, options[k]));
  }

  /** A `None` selection draws the same keyboard as an empty one. */
  lemma NoSelectionIsEmptySelection(options: seq<string>)
    ensures TestKeyboard(options, None) == TestKeyboard(options, Some({}))
  {
  }

  lemma TestKeyboardButton(options: seq<string>, selected: Option<set<int>>, k: nat)
    requires k < |options|
    ensures TestKeyboard(options, selected).buttons[k] == AnswerButton(k + 1, Selection(selected), options[k])
  {
  }

  /** An answer button's label starts with the checkmark exactly when its number is selected. */
  lemma CheckmarkIffSelected(options: seq<string>, selected: Option<set<int>>, k: nat)
    requires k < |options|
    ensures var b := TestKeyboard(options, selected).buttons[k];
      StartsWith(b.text, Checkmark) <==> k + 1 in Selection(selected)
  {
    LabelCheckmark(k + 1, Selection(selected), options[k]);
  }

  lemma LabelCheckmark(i: nat, selection: set<int>, option: string)
    ensures StartsWith(Label(i, selection, option), Checkmark) <==> i in selection
  {
    var shown := Label(i, selection, option);
    var marker := Marker(i);
    var rest := marker + " " + ShortText(option);
    if i in selection {
      assert shown == Checkmark + rest;
      assert shown[..|Checkmark|] == Checkmark;
    } else {
      assert shown == rest;
      assert shown[0] == marker[0];
      assert Checkmark[0] == '✅';
    }
  }

  /** Where the parts of `a + b + " " + c` sit. */
  lemma JoinedParts(a: string, b: string, c: string)
    ensures var s := a + b + " " + c;
      && s[..|a|] == a && s[|a|..|a| + |b|] == b && s[|a| + |b|] == ' ' && s[|a| + |b| + 1..] == c
  {
    var s := a + b + " " + c;
    assert s == a + (b + (" " + c));
    assert s[|a|..] == b + (" " + c);
  }

  /** The label is the selection mark, the number marker, a space and the option text cut to 33 characters. */
  lemma LabelShape(i: nat, selection: set<int>, option: string)
    ensures var shown := Label(i, selection, option);
      var check := if i in selection then Checkmark else "";
      && shown[..|check|] == check
      && shown[|check|..|check| + |Marker(i)|] == Marker(i)
      && shown[|check| + |Marker(i)|] == ' '
      && shown[|check| + |Marker(i)| + 1..] == ShortText(option)
      && |shown| <= |check| + |Marker(i)| + 34
  {
    var check := if i in selection then Checkmark else "";
    assert Label(i, selection, option) == check + Marker(i) + " " + ShortText(option);
    JoinedParts(check, Marker(i), ShortText(option));
  }

  /**
   * Every answer button's token reads back to its own 1-based number, "Next" reads
   * as no answer, and so no two buttons of an answer screen share a token.
   */
  lemma TestCallbacks(options: seq<string>, selected: Option<set<int>>)
    ensures var bs := TestKeyboard(options, selected).buttons;
      && (forall k :: 0 <= k < |options| ==> AnswerIndex(bs[k].callback) == Some(k + 1))
      && AnswerIndex(bs[|options|].callback) == None
      && forall j, k :: 0 <= j < k < |bs| ==> bs[j].callback != bs[k].callback
  {
    var bs := TestKeyboard(options, selected).buttons;
    forall k | 0 <= k < |options|
      ensures AnswerIndex(bs[k].callback) == Some(k + 1)
    {
      AnswerTokenRoundTrip(k + 1);
    }
    assert "next"[..4][0] != "ans_"[0];
  }
}
