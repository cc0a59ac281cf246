/**
 * Telegram keyboards as values, and the fixed builders of
 * src/bot/keyboards/menu.py and src/bot/keyboards/dating.py.
 */
module Keyboards {
  import opened Wrappers
  import opened Strings

  /** What pressing an inline button does: send callback data back, or open a URL. */
  datatype ButtonAction = Callback(data: string) | Url(url: string)

  datatype InlineButton = InlineButton(text: string, action: ButtonAction)

  /** `InlineKeyboardMarkup(inline_keyboard=rows)`. */
  type InlineKeyboard = seq<seq<InlineButton>>

  /** `ReplyKeyboardMarkup(keyboard=rows)`: each button is its text. */
  type ReplyKeyboard = seq<seq<string>>

  // ---- src/bot/keyboards/menu.py ----

  const DietButton := "🥦 Диетолог"
  const TrainerButton := "💪 Тренер"
  const DatingButton := "❤️ Найти партнера"
  const HoroscopeButton := "🔮 Астро-прогноз"
  const NatalChartButton := "🌟 Натальная карта"
  const EditButton := "✏️ Изменить анкету"
  const HelpButton := "ℹ️ Справка"

  /** How many QR activations unlock the natal-chart row. */
  const NatalChartActivations := 3

  /**
   * `get_main_menu(qr_activations)`: the two service rows, the natal-chart row
   * when enough codes were activated, and the edit/help row last.
   */
  function MainMenu(qrActivations: int): (kb: ReplyKeyboard)
    ensures |kb| == if qrActivations >= NatalChartActivations then 4 else 3
    ensures kb[0] == [DietButton, TrainerButton]
    ensures kb[1] == [DatingButton, HoroscopeButton]
    ensures kb[|kb| - 1] == [EditButton, HelpButton]
    ensures |kb| == 4 ==> kb[2] == [NatalChartButton]
  {
    var natalRow := if qrActivations >= NatalChartActivations then [[NatalChartButton]] else [];
    [[DietButton, TrainerButton], [DatingButton, HoroscopeButton]] + natalRow + [[EditButton, HelpButton]]
  }

  predicate HasButton(kb: ReplyKeyboard, text: string)
  {
    exists i, j :: 0 <= i < |kb| && 0 <= j < |kb[i]| && kb[i][j] == text
  }

  /** The natal-chart button is offered exactly when at least three codes were activated. */
  lemma MainMenuNatalRow(qrActivations: int)
    ensures HasButton(MainMenu(qrActivations), NatalChartButton) <==> qrActivations >= NatalChartActivations
  {
    var kb := MainMenu(qrActivations);
    if qrActivations >= NatalChartActivations {
      assert kb[2][0] == NatalChartButton;
    } else {
      forall i, j | 0 <= i < |kb| && 0 <= j < |kb[i]| ensures kb[i][j] != NatalChartButton {
        assert i == 0 || i == 1 || i == 2;
      }
    }
  }

  /** `get_cancel_kb()`: one button whose data the survey's cancel handler matches. */
  const CancelSurveyData := "cancel_survey"

  function CancelKeyboard(): (kb: InlineKeyboard)
    ensures |kb| == 1 && |kb[0]| == 1
    ensures kb[0][0].action == Callback(CancelSurveyData)
  {
    [[InlineButton("❌ Прервать анкету", Callback(CancelSurveyData))]]
  }

  // ---- src/bot/keyboards/dating.py ----

  /** `get_dating_kb(target_user_id)`: like and skip in the first row, report alone in the second. */
  function DatingKeyboard(targetUserId: int): (kb: InlineKeyboard)
    ensures |kb| == 2 && |kb[0]| == 2 && |kb[1]| == 1
    ensures kb[0][0].action == Callback("like_" + IntToString(targetUserId))
    ensures kb[0][1].action == Callback("dislike_" + IntToString(targetUserId))
    ensures kb[1][0].action == Callback("report_" + IntToString(targetUserId))
  {
    var id := IntToString(targetUserId);
    [[InlineButton("❤️ Лайк", Callback("like_" + id)), InlineButton("👎 Пропустить", Callback("dislike_" + id))],
     [InlineButton("⚠️ Пожаловаться", Callback("report_" + id))]]
  }

  /**
   * `int(data.split("_")[1])`, the way the like and dislike handlers read the
   * target back, with `None` where Python raises.
   */
  function CallbackTarget(data: string): (r: Option<int>)
  {
    var parts := Split(data, '_');
    if |parts| < 2 then None else ParseInt(parts[1])
  }

  /** The like and dislike buttons decode back to the very id they were built for. */
  lemma DatingKeyboardRoundTrip(targetUserId: int)
    ensures CallbackTarget(DatingKeyboard(targetUserId)[0][0].action.data) == Some(targetUserId)
    ensures CallbackTarget(DatingKeyboard(targetUserId)[0][1].action.data) == Some(targetUserId)
  {
    var id := IntToString(targetUserId);
    assert '_' !in id;
    SplitTwoFields("like", '_', id);
    SplitTwoFields("dislike", '_', id);
    assert "like" + [ '_' ] + id == "like_" + id;
    assert "dislike" + [ '_' ] + id == "dislike_" + id;
    IntToStringParses(targetUserId);
  }

  const ContactUrlBase := "https://t.me/"

  /** `get_contact_kb(username)`: one URL button; an empty or missing username gives the bare base URL. */
  function ContactKeyboard(username: Option<string>): (kb: InlineKeyboard)
    ensures |kb| == 1 && |kb[0]| == 1
    ensures kb[0][0].action.Url?
    ensures username.Some? && username.value != [] ==> kb[0][0].action.url == ContactUrlBase + username.value
    ensures username.None? || username.value == [] ==> kb[0][0].action.url == ContactUrlBase
  {
    var url := if username.Some? && username.value != [] then ContactUrlBase + username.value else ContactUrlBase;
    [[InlineButton("💬 Написать партнеру", Url(url))]]
  }
}
