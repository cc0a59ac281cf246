/**
 * The questionnaire of src/bot/handlers/survey.py: the menu gates that start
 * it, the step-by-step answers, the consent step and the finalisation that
 * stores a `UserSurvey` and queues a generation task.
 *
 * Each handler is a function from the store's `World` to an `Outcome` (the
 * new world and what the user is told), and a method on `Backend` proved to
 * have exactly that effect. An exception that escapes a handler is the reply
 * `Raised`; whatever the handler changed before it raised stays changed,
 * except database work not yet committed.
 */
module Survey {
  import opened Wrappers
  import opened Strings
  import opened Answers
  import opened Models
  import opened Keyboards
  import opened Queues
  import opened Store
  import opened Dates
  import opened Horoscope
  import opened Config

  // ---- Modes ----

  const Diet := "diet"
  const Trainer := "trainer"
  const Dating := "dating"
  const HoroscopeMode := "horoscope"
  const NatalChart := "natal_chart"

  /** The modes the handlers tell apart; any other string is `OtherMode`. */
  datatype ModeKind = DietKind | TrainerKind | DatingKind | HoroscopeKind | NatalChartKind | OtherMode

  function KindOf(mode: string): (k: ModeKind)
    ensures k == DietKind <==> mode == Diet
    ensures k == TrainerKind <==> mode == Trainer
    ensures k == DatingKind <==> mode == Dating
    ensures k == HoroscopeKind <==> mode == HoroscopeMode
    ensures k == NatalChartKind <==> mode == NatalChart
  {
    if mode == Diet then DietKind
    else if mode == Trainer then TrainerKind
    else if mode == Dating then DatingKind
    else if mode == HoroscopeMode then HoroscopeKind
    else if mode == NatalChart then NatalChartKind
    else OtherMode
  }

  /** `MENU_MAPPING`: the mode a main-menu button stands for. */
  function MenuMode(text: string): (r: Option<string>)
  {
    if text == DietButton then Some(Diet)
    else if text == TrainerButton then Some(Trainer)
    else if text == DatingButton then Some(Dating)
    else if text == HoroscopeButton then Some(HoroscopeMode)
    else if text == NatalChartButton then Some(NatalChart)
    else None
  }

  /**
   * The service buttons of the fullest main menu are exactly the keys of
   * `MENU_MAPPING`: every button but the last row's maps to a mode, the
   * last row's do not, and every key is a button of that menu.
   */
  lemma MenuMappingMatchesMenu()
    ensures var kb := MainMenu(NatalChartActivations);
      forall i, j :: 0 <= i < |kb| - 1 && 0 <= j < |kb[i]| ==> MenuMode(kb[i][j]).Some?
    ensures MenuMode(EditButton).None? && MenuMode(HelpButton).None?
    ensures forall t :: MenuMode(t).Some? ==> HasButton(MainMenu(NatalChartActivations), t)
  {
    var kb := MainMenu(NatalChartActivations);
    forall t | MenuMode(t).Some? ensures HasButton(kb, t) {
      if t == DietButton { assert kb[0][0] == t; }
      else if t == TrainerButton { assert kb[0][1] == t; }
      else if t == DatingButton { assert kb[1][0] == t; }
      else if t == HoroscopeButton { assert kb[1][1] == t; }
      else { assert kb[2][0] == t; }
    }
  }

  /** `survey_config_id` by mode, 1 for a mode the map does not list. */
  function ConfigId(mode: string): (id: int)
    ensures 1 <= id <= 5
    ensures KindOf(mode) == OtherMode ==> id == 1
  {
    match KindOf(mode)
    case DietKind => 1
    case TrainerKind => 2
    case DatingKind => 3
    case HoroscopeKind => 4
    case NatalChartKind => 5
    case OtherMode => 1
  }

  // ---- is_admin ----

  /**
   * `is_admin(user_id)`: membership in `ADMIN_IDS`, and `False` when one of
   * its comma-separated parts is not an integer (the bare `except`).
   */
  function IsAdmin(adminRaw: string, userId: UserId): (r: bool)
    ensures AdminIds(adminRaw).None? ==> !r
  {
    var ids := AdminIds(adminRaw);
    ids.Some? && userId in ids.value
  }

  /**
   * An id is an admin exactly when every part of `ADMIN_IDS` is an integer
   * and one of them is that id.
   */
  lemma IsAdminMeaning(adminRaw: string, userId: UserId)
    ensures var parts := Split(adminRaw, ',');
      IsAdmin(adminRaw, userId) <==>
        && (forall i :: 0 <= i < |parts| ==> ParseInt(parts[i]).Some?)
        && (exists i :: 0 <= i < |parts| && ParseInt(parts[i]) == Some(userId))
  {
    var parts := Split(adminRaw, ',');
    var ids := AdminIds(adminRaw);
    if ids.None? {
      var j :| 0 <= j < |parts| && ParseInt(parts[j]).None?;
      assert !(forall i :: 0 <= i < |parts| ==> ParseInt(parts[i]).Some?);
    } else if userId in ids.value {
      var k :| 0 <= k < |ids.value| && ids.value[k] == userId;
      assert ParseInt(parts[k]) == Some(userId);
    } else {
      forall i | 0 <= i < |parts| ensures ParseInt(parts[i]) != Some(userId) {
        assert ParseInt(parts[i]) == Some(ids.value[i]);
      }
    }
  }

  // ---- Option buttons ----

  /** `f"ans_{opt}"[:64]`. */
  function OptionData(opt: string): (data: string)
    ensures |data| <= 64
  {
    var full := "ans_" + opt;
    if |full| <= 64 then full else full[..64]
  }

  /** `callback.data[4:]`. */
  function AnswerOf(data: string): string
  {
    if |data| <= 4 then [] else data[4..]
  }

  /**
   * An option comes back from its button exactly when it is at most 60
   * characters long; a longer one comes back cut to its first 60.
   */
  lemma OptionDataRoundTrip(opt: string)
    ensures AnswerOf(OptionData(opt)) == opt <==> |opt| <= 60
    ensures |opt| > 60 ==> AnswerOf(OptionData(opt)) == opt[..60]
  {
    var full := "ans_" + opt;
    assert full[4..] == opt;
    if |full| > 64 {
      assert full[..64][4..] == opt[..60];
    }
  }

  function OptionButton(opt: string): InlineButton
  {
    InlineButton(opt, Callback(OptionData(opt)))
  }

  /** `get_options_keyboard_inline(options)`: the options two per row, in order. */
  function OptionsLayout(options: seq<string>): (kb: InlineKeyboard)
    decreases |options|
  {
    if |options| == 0 then []
    else if |options| == 1 then [[OptionButton(options[0])]]
    else [[OptionButton(options[0]), OptionButton(options[1])]] + OptionsLayout(options[2..])
  }

  /**
   * The layout holds every option once, in order: row `i` holds options `2i`
   * and `2i+1`, every row has two buttons but the last, which has one when
   * the count is odd.
   */
  lemma {:induction false} OptionsLayoutShape(options: seq<string>)
    ensures var kb := OptionsLayout(options);
      && |kb| == (|options| + 1) / 2
      && (forall i :: 0 <= i < |kb| ==> |kb[i]| == (if 2 * i + 1 < |options| then 2 else 1))
      && (forall i, j :: 0 <= i < |kb| && 0 <= j < |kb[i]| ==> kb[i][j] == OptionButton(options[2 * i + j]))
  {
    if |options| >= 2 {
      var rest := options[2..];
      OptionsLayoutShape(rest);
      var kb := OptionsLayout(options);
      assert kb == [[OptionButton(options[0]), OptionButton(options[1])]] + OptionsLayout(rest);
      forall i, j | 1 <= i < |kb| && 0 <= j < |kb[i]| ensures kb[i][j] == OptionButton(options[2 * i + j]) {
        assert kb[i] == OptionsLayout(rest)[i - 1];
        assert rest[2 * (i - 1) + j] == options[2 * i + j];
      }
    }
  }

  /** Appending two options to an even-length list appends one full row. */
  lemma {:induction false} OptionsLayoutAppendPair(options: seq<string>, pairs: nat, a: string, b: string)
    requires |options| == 2 * pairs
    ensures OptionsLayout(options + [a, b]) == OptionsLayout(options) + [[OptionButton(a), OptionButton(b)]]
    decreases |options|
  {
    if |options| == 0 {
      assert options + [a, b] == [a, b];
      assert [a, b][2..] == [];
    } else {
      assert (options + [a, b])[2..] == options[2..] + [a, b];
      OptionsLayoutAppendPair(options[2..], pairs - 1, a, b);
    }
  }

  /** Appending one option to an even-length list appends a one-button row. */
  lemma {:induction false} OptionsLayoutAppendOne(options: seq<string>, pairs: nat, a: string)
    requires |options| == 2 * pairs
    ensures OptionsLayout(options + [a]) == OptionsLayout(options) + [[OptionButton(a)]]
    decreases |options|
  {
    if |options| != 0 {
      assert (options + [a])[2..] == options[2..] + [a];
      OptionsLayoutAppendOne(options[2..], pairs - 1, a);
    }
  }

  /** The loop of `get_options_keyboard_inline`: fill a row, flush it at two buttons, flush the rest. */
  method OptionsKeyboard(options: seq<string>) returns (kb: InlineKeyboard)
    ensures kb == OptionsLayout(options)
  {
    kb := [];
    var row: seq<InlineButton> := [];
    ghost var pairs: nat := 0;
    var k := 0;
    while k < |options|
      invariant k <= |options|
      invariant |row| <= 1 && k == 2 * pairs + |row|
      invariant kb == OptionsLayout(options[..2 * pairs])
      invariant |row| == 1 ==> row == [OptionButton(options[k - 1])]
    {
      row := row + [OptionButton(options[k])];
      if |row| == 2 {
        assert options[..k + 1] == options[..2 * pairs] + [options[k - 1], options[k]];
        OptionsLayoutAppendPair(options[..2 * pairs], pairs, options[k - 1], options[k]);
        assert row == [OptionButton(options[k - 1]), OptionButton(options[k])];
        kb := kb + [row];
        assert kb == OptionsLayout(options[..k + 1]);
        row := [];
        pairs := pairs + 1;
      }
      k := k + 1;
    }
    if row != [] {
      assert options == options[..2 * pairs] + [options[k - 1]];
      OptionsLayoutAppendOne(options[..2 * pairs], pairs, options[k - 1]);
      kb := kb + [row];
    } else {
      assert options[..2 * pairs] == options;
    }
  }

  /** The keyboard a question is sent with: its options, for a `button` question that has some. */
  function QuestionKeyboard(q: Question): (kb: Option<InlineKeyboard>)
    ensures kb.Some? <==> q.qtype == "button" && q.options != []
  {
    if q.qtype == "button" && q.options != [] then Some(OptionsLayout(q.options)) else None
  }

  // ---- The per-mode menu and the tracking toggle ----

  /** `get_mode_menu_kb(mode, is_tracking_on)`. */
  function ModeMenuKeyboard(mode: string, trackingOn: bool): (kb: InlineKeyboard)
    ensures |kb| == 2 && |kb[0]| == 1 && |kb[1]| == 1
    ensures kb[0][0].action == Callback("start_survey_" + mode)
    ensures kb[1][0].action == Callback("toggle_tracking_" + mode)
    ensures kb[1][0].text == if trackingOn then "✅ Трекинг ВКЛ" else "❌ Трекинг ВЫКЛ"
  {
    [[InlineButton("📝 Заполнить/обновить анкету", Callback("start_survey_" + mode))],
     [InlineButton(if trackingOn then "✅ Трекинг ВКЛ" else "❌ Трекинг ВЫКЛ", Callback("toggle_tracking_" + mode))]]
  }

  /** `callback.data.split("_")[2]`, with `None` where Python raises `IndexError`. */
  function ToggleMode(data: string): (r: Option<string>)
  {
    var parts := Split(data, '_');
    if |parts| < 3 then None else Some(parts[2])
  }

  /** The toggle button's data reads back as the mode it was built for, for a mode without `_`. */
  lemma ToggleModeRoundTrip(mode: string)
    requires '_' !in mode
    ensures ToggleMode("toggle_tracking_" + mode) == Some(mode)
  {
    SplitThreeFields("toggle", '_', "tracking", mode);
    assert "toggle" + ['_'] + "tracking" + ['_'] + mode == "toggle_tracking_" + mode;
  }

  /** The offer sent after a diet or trainer survey while tracking is off. */
  function TrackingOfferKeyboard(mode: string): (kb: InlineKeyboard)
    ensures |kb| == 1 && |kb[0]| == 2
    ensures kb[0][0].action == Callback("toggle_tracking_" + mode)
    ensures kb[0][1].action == Callback("ignore")
  {
    [[InlineButton("👍 Да, хочу!", Callback("toggle_tracking_" + mode)),
      InlineButton("👎 Не сейчас", Callback("ignore"))]]
  }

  // ---- Answer validation ----

  /** A chat message as the answer handler sees it: its text, if any, and the sizes of its photo. */
  datatype Input = Input(text: Option<string>, photos: seq<string>)

  datatype Validation = Accepted(value: string) | Rejected(error: string)

  const PhotoNeeded := "📸 Нужно прислать ФОТО!"
  const TextNeeded := "✍️ Нужно прислать ТЕКСТ!"
  const BadDate := "❗️ Неверный формат даты! (ДД.ММ.ГГГГ)"

  /**
   * The checks of `process_message_answer`: a `photo` question accepts only a
   * photo and keeps its last size's `file_id`; any other question needs
   * non-empty text, kept stripped, and for `birth_date` that text must be a
   * `%d.%m.%Y` date.
   */
  function Validate(q: Question, input: Input): (v: Validation)
    ensures q.qtype == "photo" ==> (v.Accepted? <==> input.photos != [])
    ensures q.qtype == "photo" && v.Accepted? ==> v.value == input.photos[|input.photos| - 1]
    ensures q.qtype != "photo" ==>
      (v.Accepted? <==> Truthy(input.text) && (q.key == "birth_date" ==> ParseDmy(Strip(input.text.value)).Some?))
    ensures q.qtype != "photo" && v.Accepted? ==> v.value == Strip(input.text.value)
    ensures v.Rejected? ==> v.error in {PhotoNeeded, TextNeeded, BadDate}
  {
    if q.qtype == "photo" then
      if input.photos == [] then Rejected(PhotoNeeded) else Accepted(input.photos[|input.photos| - 1])
    else if !Truthy(input.text) then Rejected(TextNeeded)
    else
      var value := Strip(input.text.value);
      if q.key == "birth_date" && ParseDmy(value).None? then Rejected(BadDate) else Accepted(value)
  }

  /** A birth date typed as ДД.ММ.ГГГГ, with any surrounding spaces, passes. */
  lemma TypedBirthDateAccepted(q: Question, d: Date, pad: string, padEnd: string)
    requires q.qtype != "photo" && q.key == "birth_date" && ValidDate(d)
    requires forall i :: 0 <= i < |pad| ==> IsSpace(pad[i])
    requires forall i :: 0 <= i < |padEnd| ==> IsSpace(padEnd[i])
    ensures Validate(q, Input(Some(pad + FormatDmy(d) + padEnd), [])) == Accepted(FormatDmy(d))
  {
    var t := FormatDmy(d);
    assert !IsSpace(t[0]) && !IsSpace(t[|t| - 1]) by {
      assert AllDigits(t[..2]);
      assert t[9] == t[6..][3];
    }
    StripSurround(pad, t, padEnd);
    ParseFormatDmy(d);
  }

  // ---- Outcomes ----

  /** What a handler tells the user. */
  datatype Reply =
    | NotRouted                        // the update does not reach this handler (its filter fails)
    | Silent                           // the handler returns without answering
    | Raised                           // an exception escapes the handler
    | NotConfigured                    // "⚠️ Режим не настроен."
    | Asked(number: nat, total: nat, question: string, keyboard: Option<InlineKeyboard>)
    | NoAttempts                       // "❌ Нет попыток. Активируйте больше QR-кодов!"
    | OnePerDay                        // "🔮 Только один прогноз в день!"
    | Toggled(mode: string, on: bool, modeMenu: InlineKeyboard)
    | InvalidAnswer(error: string, question: string)
    | ConsentAsked                     // the consent buttons `consent_yes` / `consent_no`
    | Cancelled(menu: ReplyKeyboard)   // "🏠 Главное меню"
    | Declined(menu: ReplyKeyboard)    // "❌ Анкета отменена."
    | NoCredits(menu: ReplyKeyboard)   // "❌ Нет кредитов."
    | Processing(menu: ReplyKeyboard, trackingOffer: Option<InlineKeyboard>)
    | DatingSaved(menu: ReplyKeyboard)
    | HoroscopeShown(menu: ReplyKeyboard, sign: Sign, text: string)
    | HoroscopeForming(menu: ReplyKeyboard)
    | DateError(menu: ReplyKeyboard)   // "Ошибка даты."
    | Stored                           // a survey of an unlisted mode: stored, nothing sent

  datatype Outcome = Outcome(w: World, reply: Reply)

  /** `get_survey_config(mode)`, with a missing or unreadable list and an empty one alike falsy. */
  function Questions(w: World, mode: string): seq<Question>
  {
    if mode in w.surveyConfigs then w.surveyConfigs[mode] else []
  }

  /** `horoscope_viewed:{user_id}:{YYYY-MM-DD}`. */
  function ViewedKey(userId: UserId, today: Date): string
    requires ValidDate(today)
  {
    "horoscope_viewed:" + IntToString(userId) + ":" + FormatIso(today)
  }

  /** `horoscope:{sign}`, the key the daily job fills. */
  function HoroscopeKey(sign: Sign): string
  {
    "horoscope:" + sign.Key()
  }

  /** How long the once-a-day mark lives, in seconds. */
  const ViewedTtl: int := 86400

  // ---- The main menu, as called and as declared ----

  /** The keyword arguments of a `get_main_menu` call. */
  datatype MenuArgs = QrActivations(count: int) | NatalCreditsAndAdmin(credits: int, admin: bool)

  /**
   * `get_main_menu(**args)`: the function declares only `qr_activations`, so
   * any other keyword raises `TypeError` (`None` here).
   */
  function GetMainMenu(args: MenuArgs): (r: Option<ReplyKeyboard>)
    ensures r.Some? <==> args.QrActivations?
    ensures args.QrActivations? ==> r == Some(MainMenu(args.count))
  {
    match args
    case QrActivations(n) => Some(MainMenu(n))
    case NatalCreditsAndAdmin(_, _) => None
  }

  /** `_get_menu_markup(user_id)` as written: 999 credits for an admin, the user's credits otherwise. */
  function MenuMarkupAsWritten(users: seq<User>, userId: UserId, adminRaw: string): (r: Option<ReplyKeyboard>)
  {
    var admin := IsAdmin(adminRaw, userId);
    var credits := if admin then 999 else match GetUser(users, userId) case Some(u) => u.natalChartCredits case None => 0;
    GetMainMenu(NatalCreditsAndAdmin(credits, admin))
  }

  /** The markup never gets built: every call raises. */
  lemma MenuMarkupAsWrittenRaises(users: seq<User>, userId: UserId, adminRaw: string)
    ensures MenuMarkupAsWritten(users, userId, adminRaw).None?
  {
  }

  /**
   * The corrected `_get_menu_markup`: the menu for the user's activation
   * count, as `/start` builds it (0 for an unknown user).
   */
  function MenuMarkup(users: seq<User>, userId: UserId): (menu: ReplyKeyboard)
    ensures HasButton(menu, NatalChartButton) <==>
      GetUser(users, userId).Some? && GetUser(users, userId).value.qrActivationsCount >= NatalChartActivations
  {
    var count := match GetUser(users, userId) case Some(u) => u.qrActivationsCount case None => 0;
    MainMenuNatalRow(count);
    GetMainMenu(QrActivations(count)).value
  }

  // ---- Starting a survey ----

  /** `_start_survey_logic(mode)`: no questions, no state; otherwise step 0 with no answers, and question 1. */
  function StartSurvey(w: World, userId: UserId, mode: string): (r: Outcome)
  {
    var qs := Questions(w, mode);
    if qs == [] then Outcome(w, NotConfigured)
    else
      Outcome(w.(conversations := w.conversations[userId := Conversation(InProgress, mode, 0, Empty)]),
              Asked(1, |qs|, qs[0].text, QuestionKeyboard(qs[0])))
  }

  /** `start_natal_chart`: an admin goes straight in; anyone else needs a credit. */
  function StartNatalChart(w: World, userId: UserId, adminRaw: string): (r: Outcome)
  {
    if IsAdmin(adminRaw, userId) then StartSurvey(w, userId, NatalChart)
    else
      match GetUser(w.users, userId)
      case None => Outcome(w, Raised)          // `None.natal_chart_credits`
      case Some(u) => if u.natalChartCredits < 1 then Outcome(w, NoAttempts) else StartSurvey(w, userId, NatalChart)
  }

  /** `start_horoscope`: once a day for anyone but an admin. */
  function StartHoroscope(w: World, userId: UserId, adminRaw: string, today: Date): (r: Outcome)
    requires ValidDate(today)
  {
    if Truthy(RedisGet(w.redis, ViewedKey(userId, today))) && !IsAdmin(adminRaw, userId) then Outcome(w, OnePerDay)
    else StartSurvey(w, userId, HoroscopeMode)
  }

  /** `start_survey_by_callback`: the mode is the last `_`-field of the data. */
  function CallbackSurveyMode(data: string): string
  {
    var parts := Split(data, '_');
    parts[|parts| - 1]
  }

  /** The start button of the per-mode menu starts that mode, for a mode without `_`. */
  lemma CallbackSurveyModeRoundTrip(mode: string)
    requires '_' !in mode
    ensures CallbackSurveyMode("start_survey_" + mode) == mode
  {
    SplitThreeFields("start", '_', "survey", mode);
    assert "start" + ['_'] + "survey" + ['_'] + mode == "start_survey_" + mode;
  }

  /** No questions: nothing changes. Questions: only this user's conversation changes, to step 0 with no answers. */
  lemma StartSurveyOutcome(w: World, userId: UserId, mode: string)
    ensures var r := StartSurvey(w, userId, mode);
      && (Questions(w, mode) == [] ==> r == Outcome(w, NotConfigured))
      && (Questions(w, mode) != [] ==>
            && r.w.(conversations := w.conversations) == w
            && r.w.conversations == w.conversations[userId := Conversation(InProgress, mode, 0, Empty)]
            && r.reply.Asked? && r.reply.number == 1 && r.reply.total == |Questions(w, mode)|)
  {
  }

  // ---- The tracking toggle ----

  /** The tracking flag a mode's toggle reads: the trainer flag for trainer, the diet flag otherwise. */
  function TrackingFlag(u: User, k: ModeKind): bool
  {
    if k == TrainerKind then u.isTrainerTracking else u.isDietTracking
  }

  function WithTracking(u: User, k: ModeKind, on: bool): (r: User)
    ensures TrackingFlag(r, k) == on && r.userId == u.userId
  {
    if k == TrainerKind then u.(isTrainerTracking := on) else u.(isDietTracking := on)
  }

  /**
   * `toggle_tracking`: only data starting with `toggle_tracking_` is routed
   * here; flip the flag of the mode in the data; another mode changes nothing
   * and reports "off". Reading a flag of a missing user raises.
   */
  function ToggleTracking(w: World, userId: UserId, data: string): (r: Outcome)
  {
    if !HasPrefix(data, "toggle_tracking_") then Outcome(w, NotRouted)
    else
      match ToggleMode(data)
      case None => Outcome(w, Raised)
      case Some(mode) => Toggle(w, userId, mode)
  }

  function Toggle(w: World, userId: UserId, mode: string): (r: Outcome)
  {
    var k := KindOf(mode);
    if k != DietKind && k != TrainerKind then Outcome(w, Toggled(mode, false, ModeMenuKeyboard(mode, false)))
    else
      match FindUser(w.users, userId)
      case None => Outcome(w, Raised)
      case Some(i) =>
        var on := !TrackingFlag(w.users[i], k);
        Outcome(w.(users := w.users[i := WithTracking(w.users[i], k, on)]), Toggled(mode, on, ModeMenuKeyboard(mode, on)))
  }

  /** Toggling twice puts every record back. */
  lemma ToggleTwiceRestores(w: World, userId: UserId, mode: string)
    ensures Toggle(Toggle(w, userId, mode).w, userId, mode).w == w
  {
    var k := KindOf(mode);
    if k == DietKind || k == TrainerKind {
      var f := FindUser(w.users, userId);
      if f.Some? {
        var i := f.value;
        var u := w.users[i];
        var u' := WithTracking(u, k, !TrackingFlag(u, k));
        UpdateFindUser(w.users, i, u');
        assert WithTracking(u', k, !TrackingFlag(u', k)) == u;
        assert w.users[i := u'][i := u] == w.users;
      }
    }
  }

  /** Replacing the row a lookup found by one with the same id leaves the lookup where it was. */
  lemma UpdateFindUser(users: seq<User>, i: nat, u: User)
    requires FindUser(users, u.userId) == Some(i)
    ensures FindUser(users[i := u], u.userId) == Some(i)
  {
    if users != [] && users[|users| - 1].userId != u.userId {
      assert users[i := u][..|users| - 1] == users[..|users| - 1][i := u];
      UpdateFindUser(users[..|users| - 1], i, u);
    }
  }

  /** The toggle flips exactly the flag of its mode on the user's row and changes nothing else. */
  lemma ToggleFlipsFlag(w: World, userId: UserId, mode: string)
    requires '_' !in mode && (mode == Diet || mode == Trainer)
    requires GetUser(w.users, userId).Some?
    ensures var r := ToggleTracking(w, userId, "toggle_tracking_" + mode);
      var i := FindUser(w.users, userId).value;
      var before := w.users[i];
      && r.reply.Toggled? && r.reply.mode == mode
      && r.w == w.(users := w.users[i := r.w.users[i]])
      && (mode == Diet ==> r.w.users[i] == before.(isDietTracking := !before.isDietTracking) && r.reply.on == !before.isDietTracking)
      && (mode == Trainer ==> r.w.users[i] == before.(isTrainerTracking := !before.isTrainerTracking) && r.reply.on == !before.isTrainerTracking)
  {
    assert ("toggle_tracking_" + mode)[..16] == "toggle_tracking_";
    ToggleModeRoundTrip(mode);
  }

  /** Data without the `toggle_tracking_` prefix never reaches the toggle, whatever mode it names. */
  lemma ToggleNeedsPrefix(w: World, userId: UserId, a: string, b: string, mode: string)
    requires '_' !in a && '_' !in b && '_' !in mode && a != "toggle"
    ensures ToggleMode(a + "_" + b + "_" + mode) == Some(mode)
    ensures ToggleTracking(w, userId, a + "_" + b + "_" + mode) == Outcome(w, NotRouted)
  {
    SplitThreeFields(a, '_', b, mode);
    assert a + ['_'] + b + ['_'] + mode == a + "_" + b + "_" + mode;
    if HasPrefix(a + "_" + b + "_" + mode, "toggle_tracking_") {
      assert "toggle_tracking_" == "toggle" + "_" + "tracking_";
      assert a + "_" + b + "_" + mode == a + "_" + (b + "_" + mode);
      FieldBeforeSeparator(a, b + "_" + mode, "toggle", "tracking_");
      assert false;
    }
  }

  /** A text agrees with each of its prefixes position by position. */
  lemma PrefixAt(s: string, t: string, i: int)
    requires HasPrefix(s, t) && 0 <= i < |t|
    ensures s[i] == t[i]
  {
    assert s[..|t|][i] == t[i];
  }

  /** Two strings with no `_` that both stand before the first `_` of the same text are equal. */
  lemma FieldBeforeSeparator(a: string, rest: string, p: string, q: string)
    requires '_' !in a && '_' !in p
    requires HasPrefix(a + "_" + rest, p + "_" + q)
    ensures a == p
  {
    var d := a + "_" + rest;
    var e := p + "_" + q;
    assert d[..|e|] == e;
    if |a| < |p| {
      PrefixAt(d, e, |a|);
      assert false;
    } else if |a| > |p| {
      PrefixAt(d, e, |p|);
      assert false;
    } else {
      assert a == d[..|a|] == e[..|p|] == p;
    }
  }

  // ---- Answers ----

  /** `process_message_answer`: validate against the current question, then record. */
  function ProcessMessageAnswer(w: World, userId: UserId, input: Input, adminRaw: string, today: Date): (r: Outcome)
    requires ValidDate(today)
  {
    if userId !in w.conversations || w.conversations[userId].state != InProgress then Outcome(w, NotRouted)
    else if input.text.None? && input.photos == [] then Outcome(w, NotRouted)
    else
      var c := w.conversations[userId];
      var qs := Questions(w, c.mode);
      if qs == [] then Outcome(w, Silent)
      else if c.step >= |qs| then Outcome(w, Raised)
      else
        match Validate(qs[c.step], input)
        case Rejected(e) => Outcome(w, InvalidAnswer(e, qs[c.step].text))
        case Accepted(v) => HandleAnswer(w, userId, v, adminRaw, today)
  }

  /** `process_button_answer`: the option is taken from the data as it is, with no validation. */
  function ProcessButtonAnswer(w: World, userId: UserId, data: string, adminRaw: string, today: Date): (r: Outcome)
    requires ValidDate(today)
  {
    if userId !in w.conversations || w.conversations[userId].state != InProgress then Outcome(w, NotRouted)
    else if |data| < 4 || data[..4] != "ans_" then Outcome(w, NotRouted)
    else HandleAnswer(w, userId, AnswerOf(data), adminRaw, today)
  }

  /**
   * `_handle_answer`: store the answer under the question's key; ask the next
   * question, or after the last one finish at once for a user who already
   * consented and ask for consent otherwise.
   */
  function HandleAnswer(w: World, userId: UserId, value: string, adminRaw: string, today: Date): (r: Outcome)
    requires ValidDate(today)
  {
    if userId !in w.conversations then Outcome(w, Raised)
    else
      var c := w.conversations[userId];
      var qs := Questions(w, c.mode);
      if c.step >= |qs| then Outcome(w, Raised)
      else
        var answers := Set(c.answers, qs[c.step].key, value);
        var next := c.step + 1;
        if next < |qs| then
          Outcome(w.(conversations := w.conversations[userId := c.(step := next, answers := answers)]),
                  Asked(next + 1, |qs|, qs[next].text, QuestionKeyboard(qs[next])))
        else
          var u := GetUser(w.users, userId);
          if u.Some? && u.value.hasAcceptedPolicy then
            FinishSurvey(w.(conversations := w.conversations[userId := c.(answers := answers)]), userId, c.mode, answers, adminRaw, today)
          else
            Outcome(w.(conversations := w.conversations[userId := c.(state := FinalConsent, answers := answers)]), ConsentAsked)
  }

  /** A rejected answer changes nothing and repeats the question with the reason. */
  lemma RejectedAnswerChangesNothing(w: World, userId: UserId, input: Input, adminRaw: string, today: Date)
    requires ValidDate(today)
    requires userId in w.conversations && w.conversations[userId].state == InProgress
    requires input.text.Some? || input.photos != []
    requires var c := w.conversations[userId];
      c.step < |Questions(w, c.mode)| && Validate(Questions(w, c.mode)[c.step], input).Rejected?
    ensures var r := ProcessMessageAnswer(w, userId, input, adminRaw, today);
      r.w == w && r.reply.InvalidAnswer?
  {
  }

  /**
   * Before the last question an answer is stored under its key, every other
   * key keeps its value, and the step moves on by exactly one.
   */
  lemma AnswerAdvances(w: World, userId: UserId, value: string, adminRaw: string, today: Date)
    requires ValidDate(today)
    requires userId in w.conversations
    requires var c := w.conversations[userId]; c.step + 1 < |Questions(w, c.mode)|
    ensures var c := w.conversations[userId];
      var q := Questions(w, c.mode)[c.step];
      var r := HandleAnswer(w, userId, value, adminRaw, today);
      && userId in r.w.conversations
      && r.w.conversations[userId].step == c.step + 1
      && r.w.conversations[userId].state == c.state && r.w.conversations[userId].mode == c.mode
      && (forall k :: Get(r.w.conversations[userId].answers, k) == if k == q.key then Some(value) else Get(c.answers, k))
      && r.w.(conversations := w.conversations) == w
      && r.reply.Asked? && r.reply.number == c.step + 2
  {
    var c := w.conversations[userId];
    var q := Questions(w, c.mode)[c.step];
    forall k ensures Get(Set(c.answers, q.key, value), k) == if k == q.key then Some(value) else Get(c.answers, k) {
      SetGet(c.answers, q.key, value, k);
    }
  }

  /**
   * After the last question a user who consented before is finished at once;
   * anyone else moves to the consent step with the answers kept and nothing
   * else changed.
   */
  lemma LastAnswer(w: World, userId: UserId, value: string, adminRaw: string, today: Date)
    requires ValidDate(today)
    requires userId in w.conversations
    requires var c := w.conversations[userId]; c.step + 1 == |Questions(w, c.mode)|
    ensures var c := w.conversations[userId];
      var answers := Set(c.answers, Questions(w, c.mode)[c.step].key, value);
      var u := GetUser(w.users, userId);
      var r := HandleAnswer(w, userId, value, adminRaw, today);
      && (u.Some? && u.value.hasAcceptedPolicy ==>
            r == FinishSurvey(w.(conversations := w.conversations[userId := c.(answers := answers)]), userId, c.mode, answers, adminRaw, today))
      && (!(u.Some? && u.value.hasAcceptedPolicy) ==>
            && r.reply == ConsentAsked
            && r.w == w.(conversations := w.conversations[userId := Conversation(FinalConsent, c.mode, c.step, answers)]))
  {
  }

  /**
   * A button answer is never validated: before the last question, an option
   * of at most 60 characters is stored as it is, whatever the question's type
   * or key (a `birth_date` option that is no date included).
   */
  lemma ButtonAnswerStoredAsIs(w: World, userId: UserId, opt: string, adminRaw: string, today: Date)
    requires ValidDate(today) && |opt| <= 60
    requires userId in w.conversations && w.conversations[userId].state == InProgress
    requires var c := w.conversations[userId]; c.step + 1 < |Questions(w, c.mode)|
    ensures var c := w.conversations[userId];
      var q := Questions(w, c.mode)[c.step];
      var r := ProcessButtonAnswer(w, userId, OptionData(opt), adminRaw, today);
      userId in r.w.conversations && Get(r.w.conversations[userId].answers, q.key) == Some(opt)
  {
    OptionDataRoundTrip(opt);
    var d := OptionData(opt);
    assert d[..4] == "ans_";
    AnswerAdvances(w, userId, opt, adminRaw, today);
  }

  // ---- Cancelling and consent ----

  /**
   * The cancel button and the back button while a survey runs, with the
   * corrected menu: drop the conversation, reply with the menu.
   */
  function CancelSurvey(w: World, userId: UserId): (r: Outcome)
  {
    if userId !in w.conversations || w.conversations[userId].state != InProgress then Outcome(w, NotRouted)
    else Outcome(w.(conversations := w.conversations - {userId}), Cancelled(MenuMarkup(w.users, userId)))
  }

  /**
   * Cancelling ends this user's survey and nothing else: no other conversation
   * and nothing in the database changes, and a second cancel is not routed.
   */
  lemma CancelEndsOnlyThisSurvey(w: World, userId: UserId)
    ensures var r := CancelSurvey(w, userId);
      && (r.reply.NotRouted? <==> userId !in w.conversations || w.conversations[userId].state != InProgress)
      && (r.reply.NotRouted? ==> r.w == w)
      && r.w.(conversations := w.conversations) == w
      && (forall u :: u != userId ==> (u in r.w.conversations <==> u in w.conversations))
      && (forall u :: u in r.w.conversations ==> r.w.conversations[u] == w.conversations[u])
      && (r.reply.Cancelled? ==> userId !in r.w.conversations && CancelSurvey(r.w, userId) == Outcome(r.w, NotRouted))
  {
  }

  /** `cancel_survey_callback` and `cancel_survey_text` as written: the menu call raises after the conversation is dropped. */
  function CancelSurveyAsWritten(w: World, userId: UserId, adminRaw: string): (r: Outcome)
  {
    if userId !in w.conversations || w.conversations[userId].state != InProgress then Outcome(w, NotRouted)
    else
      var w1 := w.(conversations := w.conversations - {userId});
      match MenuMarkupAsWritten(w.users, userId, adminRaw)
      case None => Outcome(w1, Raised)
      case Some(menu) => Outcome(w1, Cancelled(menu))
  }

  /** As written, cancelling a running survey ends it but never shows the menu: the handler raises. */
  lemma CancelAsWrittenRaises(w: World, userId: UserId, adminRaw: string)
    requires userId in w.conversations && w.conversations[userId].state == InProgress
    ensures CancelSurveyAsWritten(w, userId, adminRaw) == Outcome(w.(conversations := w.conversations - {userId}), Raised)
    ensures CancelSurvey(w, userId).reply.Cancelled?
  {
    MenuMarkupAsWrittenRaises(w.users, userId, adminRaw);
  }

  /** `update(User).where(user_id == id).values(has_accepted_policy=True)`. */
  function AcceptPolicy(users: seq<User>, userId: UserId): (r: seq<User>)
    ensures |r| == |users|
    ensures forall i :: 0 <= i < |users| ==>
      r[i] == if users[i].userId == userId then users[i].(hasAcceptedPolicy := true) else users[i]
  {
    seq(|users|, i requires 0 <= i < |users| => if users[i].userId == userId then users[i].(hasAcceptedPolicy := true) else users[i])
  }

  /** `process_consent`: a refusal drops the conversation; consent is recorded and the survey finished. */
  function ProcessConsent(w: World, userId: UserId, data: string, adminRaw: string, today: Date): (r: Outcome)
    requires ValidDate(today)
  {
    if userId !in w.conversations || w.conversations[userId].state != FinalConsent then Outcome(w, NotRouted)
    else if data == "consent_no" then
      Outcome(w.(conversations := w.conversations - {userId}), Declined(MenuMarkup(w.users, userId)))
    else if data == "consent_yes" then
      var c := w.conversations[userId];
      FinishSurvey(w.(users := AcceptPolicy(w.users, userId)), userId, c.mode, c.answers, adminRaw, today)
    else Outcome(w, NotRouted)
  }

  /**
   * Refusing consent drops the conversation and writes nothing to the
   * database or the queues; the reply carries the corrected menu.
   */
  lemma ConsentNoWritesNothing(w: World, userId: UserId, adminRaw: string, today: Date)
    requires ValidDate(today)
    requires userId in w.conversations && w.conversations[userId].state == FinalConsent
    ensures var r := ProcessConsent(w, userId, "consent_no", adminRaw, today);
      && r.w == w.(conversations := w.conversations - {userId})
      && r.reply == Declined(MenuMarkup(w.users, userId))
  {
  }

  /** `process_consent` as written: both answers reach a menu call that raises. */
  function ProcessConsentAsWritten(w: World, userId: UserId, data: string, adminRaw: string, today: Date): (r: Outcome)
    requires ValidDate(today)
  {
    if userId !in w.conversations || w.conversations[userId].state != FinalConsent then Outcome(w, NotRouted)
    else if data == "consent_no" then
      var w1 := w.(conversations := w.conversations - {userId});
      match MenuMarkupAsWritten(w.users, userId, adminRaw)
      case None => Outcome(w1, Raised)
      case Some(menu) => Outcome(w1, Declined(menu))
    else if data == "consent_yes" then
      var c := w.conversations[userId];
      FinishSurveyAsWritten(w.(users := AcceptPolicy(w.users, userId)), userId, c.mode, c.answers, adminRaw, today)
    else Outcome(w, NotRouted)
  }

  /**
   * As written, a refusal drops the conversation and then raises; a consent is
   * committed, the conversation dropped, and then it raises without storing the survey.
   */
  lemma ConsentAsWrittenRaises(w: World, userId: UserId, adminRaw: string, today: Date)
    requires ValidDate(today)
    requires userId in w.conversations && w.conversations[userId].state == FinalConsent
    ensures ProcessConsentAsWritten(w, userId, "consent_no", adminRaw, today)
      == Outcome(w.(conversations := w.conversations - {userId}), Raised)
    ensures ProcessConsentAsWritten(w, userId, "consent_yes", adminRaw, today)
      == Outcome(w.(users := AcceptPolicy(w.users, userId), conversations := w.conversations - {userId}), Raised)
  {
    MenuMarkupAsWrittenRaises(w.users, userId, adminRaw);
    var c := w.conversations[userId];
    var w' := w.(users := AcceptPolicy(w.users, userId));
    FinishSurveyAsWrittenLosesAnswers(w', userId, c.mode, c.answers, adminRaw, today);
  }

  /** Consenting records `has_accepted_policy` on the user's row before the survey is finished. */
  lemma ConsentYesRecordsThenFinishes(w: World, userId: UserId, adminRaw: string, today: Date)
    requires ValidDate(today)
    requires userId in w.conversations && w.conversations[userId].state == FinalConsent
    ensures var c := w.conversations[userId];
      var w' := w.(users := AcceptPolicy(w.users, userId));
      && ProcessConsent(w, userId, "consent_yes", adminRaw, today) == FinishSurvey(w', userId, c.mode, c.answers, adminRaw, today)
      && (GetUser(w.users, userId).Some? ==> GetUser(w'.users, userId).Some? && GetUser(w'.users, userId).value.hasAcceptedPolicy)
  {
    var w' := w.(users := AcceptPolicy(w.users, userId));
    if GetUser(w.users, userId).Some? {
      var i := FindUser(w.users, userId).value;
      assert w'.users[i].userId == userId && w'.users[i].hasAcceptedPolicy;
      forall j | 0 <= j < |w'.users| && w'.users[j].userId == userId ensures w'.users[j].hasAcceptedPolicy {
      }
    }
  }

  // ---- Finishing ----

  /**
   * `_finish_survey`, with the corrected menu: the conversation is dropped
   * first, then the session's work.
   */
  function FinishSurvey(w: World, userId: UserId, mode: string, answers: Answers, adminRaw: string, today: Date): (r: Outcome)
    requires ValidDate(today)
  {
    FinishSession(w.(conversations := w.conversations - {userId}), userId, mode, answers, adminRaw, today, MenuMarkup(w.users, userId))
  }

  /** `_finish_survey` as written: the menu call raises right after the conversation is dropped. */
  function FinishSurveyAsWritten(w: World, userId: UserId, mode: string, answers: Answers, adminRaw: string, today: Date): (r: Outcome)
    requires ValidDate(today)
  {
    var w1 := w.(conversations := w.conversations - {userId});
    match MenuMarkupAsWritten(w.users, userId, adminRaw)
    case None => Outcome(w1, Raised)
    case Some(menu) => FinishSession(w1, userId, mode, answers, adminRaw, today, menu)
  }

  /** As written, no survey is ever stored and no task queued: the answers are lost. */
  lemma FinishSurveyAsWrittenLosesAnswers(w: World, userId: UserId, mode: string, answers: Answers, adminRaw: string, today: Date)
    requires ValidDate(today)
    ensures var r := FinishSurveyAsWritten(w, userId, mode, answers, adminRaw, today);
      && r.reply == Raised
      && r.w.surveys == w.surveys && r.w.aiQueue == w.aiQueue && r.w.users == w.users
      && userId !in r.w.conversations
  {
    MenuMarkupAsWrittenRaises(w.users, userId, adminRaw);
  }

  /**
   * The session of `_finish_survey`: the credit gate for a non-admin natal
   * chart, one `UserSurvey`, then by mode a generation task, the dating
   * confirmation or the horoscope. A missing user raises: the natal and
   * tracking reads touch `None`, and otherwise the insert breaks the foreign key.
   */
  function FinishSession(w: World, userId: UserId, mode: string, answers: Answers, adminRaw: string, today: Date,
                         menu: ReplyKeyboard): (r: Outcome)
    requires ValidDate(today)
  {
    var k := KindOf(mode);
    var charged := k == NatalChartKind && !IsAdmin(adminRaw, userId);
    match FindUser(w.users, userId)
    case None => Outcome(w, Raised)
    case Some(i) =>
      var u := w.users[i];
      if charged && u.natalChartCredits <= 0 then Outcome(w, NoCredits(menu))
      else
        var u' := if charged then u.(natalChartCredits := u.natalChartCredits - 1) else u;
        var tracking := (k == DietKind && u.isDietTracking) || (k == TrainerKind && u.isTrainerTracking);
        var sid := w.nextSurveyId;
        var w2 := w.(users := w.users[i := u'],
                     surveys := w.surveys + [NewUserSurvey(sid, userId, mode, ConfigId(mode), answers)],
                     nextSurveyId := sid + 1);
        Dispatch(w2, userId, mode, answers, sid, tracking, today, menu)
  }

  /** The modes that end in a generation task. */
  predicate Generates(k: ModeKind)
  {
    k == DietKind || k == TrainerKind || k == NatalChartKind
  }

  /**
   * What `_finish_survey` does after storing the survey, by mode: it touches
   * only the generation queue and, for the horoscope, Redis.
   */
  function Dispatch(w: World, userId: UserId, mode: string, answers: Answers, sid: int, tracking: bool,
                    today: Date, menu: ReplyKeyboard): (r: Outcome)
    requires ValidDate(today)
    ensures r.w.(aiQueue := w.aiQueue, redis := w.redis) == w
    ensures r.w.aiQueue == if Generates(KindOf(mode)) then w.aiQueue + [GenerationTask(userId, mode, answers, sid)] else w.aiQueue
    ensures KindOf(mode) != HoroscopeKind ==> r.w.redis == w.redis
  {
    match KindOf(mode)
    case DietKind =>
      Outcome(w.(aiQueue := w.aiQueue + [GenerationTask(userId, mode, answers, sid)]),
              Processing(menu, if tracking then None else Some(TrackingOfferKeyboard(mode))))
    case TrainerKind =>
      Outcome(w.(aiQueue := w.aiQueue + [GenerationTask(userId, mode, answers, sid)]),
              Processing(menu, if tracking then None else Some(TrackingOfferKeyboard(mode))))
    case NatalChartKind =>
      Outcome(w.(aiQueue := w.aiQueue + [GenerationTask(userId, mode, answers, sid)]), Processing(menu, None))
    case DatingKind => Outcome(w, DatingSaved(menu))
    case HoroscopeKind =>
      ShowHoroscope(w.(redis := w.redis[ViewedKey(userId, today) := RedisEntry("1", Some(ViewedTtl))]), answers, menu)
    case OtherMode => Outcome(w, Stored)
  }

  /** The horoscope branch: the sign of the stored birth date and the text the daily job left for it. */
  function ShowHoroscope(w: World, answers: Answers, menu: ReplyKeyboard): (r: Outcome)
    ensures r.w == w
  {
    match Get(answers, "birth_date")
    case None => Outcome(w, DateError(menu))        // strptime(None, …) raises TypeError
    case Some(text) =>
      match ParseDmy(text)
      case None => Outcome(w, DateError(menu))
      case Some(d) =>
        var sign := ZodiacSign(d.month, d.day);
        var t := RedisGet(w.redis, HoroscopeKey(sign));
        if Truthy(t) then Outcome(w, HoroscopeShown(menu, sign, t.value)) else Outcome(w, HoroscopeForming(menu))
  }

  /** Whether finishing this survey spends a natal-chart credit. */
  predicate Charged(mode: string, adminRaw: string, userId: UserId)
  {
    mode == NatalChart && !IsAdmin(adminRaw, userId)
  }

  /** Finishing always drops the conversation first, whatever happens next. */
  lemma FinishDropsConversation(w: World, userId: UserId, mode: string, answers: Answers, adminRaw: string, today: Date)
    requires ValidDate(today)
    ensures var r := FinishSurvey(w, userId, mode, answers, adminRaw, today);
      userId !in r.w.conversations && r.w.conversations == w.conversations - {userId}
  {
  }

  /**
   * Finishing raises exactly for a missing user and refuses exactly a
   * credit-less non-admin natal chart, in both cases storing nothing;
   * otherwise it stores exactly one `UserSurvey` with the mode's config id,
   * and queues exactly one task, for diet, trainer and natal chart only.
   */
  lemma FinishStoresOneSurvey(w: World, userId: UserId, mode: string, answers: Answers, adminRaw: string, today: Date)
    requires ValidDate(today)
    ensures var r := FinishSurvey(w, userId, mode, answers, adminRaw, today);
      var u := GetUser(w.users, userId);
      var refused := u.None? || (Charged(mode, adminRaw, userId) && u.value.natalChartCredits <= 0);
      && (r.reply == Raised <==> u.None?)
      && (r.reply.NoCredits? <==> u.Some? && Charged(mode, adminRaw, userId) && u.value.natalChartCredits <= 0)
      && (refused ==> r.w.users == w.users && r.w.surveys == w.surveys && r.w.aiQueue == w.aiQueue && r.w.redis == w.redis
                      && r.w.nextSurveyId == w.nextSurveyId)
      && (!refused ==>
            && r.w.surveys == w.surveys + [NewUserSurvey(w.nextSurveyId, userId, mode, ConfigId(mode), answers)]
            && r.w.nextSurveyId == w.nextSurveyId + 1
            && (mode in {Diet, Trainer, NatalChart} ==> r.w.aiQueue == w.aiQueue + [GenerationTask(userId, mode, answers, w.nextSurveyId)])
            && (mode !in {Diet, Trainer, NatalChart} ==> r.w.aiQueue == w.aiQueue))
      && r.w.matches == w.matches && r.w.tracking == w.tracking && r.w.notifications == w.notifications
  {
    assert mode in {Diet, Trainer, NatalChart} <==> Generates(KindOf(mode));
  }

  /**
   * A natal chart finished by a non-admin spends exactly one credit; no other
   * finish touches credits, so credits never go below zero.
   */
  lemma FinishCredits(w: World, userId: UserId, mode: string, answers: Answers, adminRaw: string, today: Date)
    requires ValidDate(today)
    requires UniqueUserIds(w.users)
    requires forall j :: 0 <= j < |w.users| ==> w.users[j].natalChartCredits >= 0
    ensures var r := FinishSurvey(w, userId, mode, answers, adminRaw, today);
      && |r.w.users| == |w.users|
      && (forall j :: 0 <= j < |r.w.users| ==> r.w.users[j].natalChartCredits >= 0)
      && (forall j :: 0 <= j < |w.users| ==>
            r.w.users[j].natalChartCredits ==
              if w.users[j].userId == userId && Charged(mode, adminRaw, userId) && r.w.surveys != w.surveys
              then w.users[j].natalChartCredits - 1 else w.users[j].natalChartCredits)
  {
    var r := FinishSurvey(w, userId, mode, answers, adminRaw, today);
    match FindUser(w.users, userId)
    case None =>
    case Some(i) =>
      assert r.w.users == w.users || r.w.users == w.users[i := r.w.users[i]];
  }

  /** Finishing an answered horoscope marks the day: the same user, not an admin, is refused until the mark expires. */
  lemma HoroscopeOncePerDay(w: World, userId: UserId, answers: Answers, adminRaw: string, today: Date)
    requires ValidDate(today)
    requires GetUser(w.users, userId).Some?
    requires !IsAdmin(adminRaw, userId)
    ensures var r := FinishSurvey(w, userId, HoroscopeMode, answers, adminRaw, today);
      && RedisGet(r.w.redis, ViewedKey(userId, today)) == Some("1")
      && r.w.redis[ViewedKey(userId, today)].ttl == Some(ViewedTtl)
      && StartHoroscope(r.w, userId, adminRaw, today) == Outcome(r.w, OnePerDay)
  {
  }

  // ---- Validity ----

  lemma AcceptPolicyKeepsIds(users: seq<User>, userId: UserId)
    requires UniqueUserIds(users)
    ensures UniqueUserIds(AcceptPolicy(users, userId))
  {
    var r := AcceptPolicy(users, userId);
    assert forall i :: 0 <= i < |users| ==> r[i].userId == users[i].userId;
  }

  /** Finishing keeps the store's invariants: the new survey's id is the next one. */
  lemma FinishKeepsValid(w: World, userId: UserId, mode: string, answers: Answers, adminRaw: string, today: Date)
    requires ValidDate(today) && ValidWorld(w)
    ensures ValidWorld(FinishSurvey(w, userId, mode, answers, adminRaw, today).w)
  {
    var r := FinishSurvey(w, userId, mode, answers, adminRaw, today);
    match FindUser(w.users, userId)
    case None =>
    case Some(i) =>
      if r.w.users != w.users {
        UpdateKeepsUserIds(w.users, i, r.w.users[i]);
        assert r.w.users == w.users[i := r.w.users[i]];
      }
      assert SurveyIdsBelow(r.w.surveys, r.w.nextSurveyId);
  }

  lemma HandleAnswerKeepsValid(w: World, userId: UserId, value: string, adminRaw: string, today: Date)
    requires ValidDate(today) && ValidWorld(w)
    ensures ValidWorld(HandleAnswer(w, userId, value, adminRaw, today).w)
  {
    if userId in w.conversations {
      var c := w.conversations[userId];
      var qs := Questions(w, c.mode);
      if c.step + 1 == |qs| {
        var answers := Set(c.answers, qs[c.step].key, value);
        FinishKeepsValid(w.(conversations := w.conversations[userId := c.(answers := answers)]), userId, c.mode, answers, adminRaw, today);
      }
    }
  }

  // ---- The handlers, on the store ----

  /** `_start_survey_logic`. */
  method StartSurveyLogic(b: Backend, userId: UserId, mode: string) returns (reply: Reply)
    requires b.Valid()
    modifies b
    ensures b.Valid()
    ensures Outcome(b.State(), reply) == StartSurvey(old(b.State()), userId, mode)
  {
    var qs := if mode in b.surveyConfigs then b.surveyConfigs[mode] else [];
    if qs == [] {
      return NotConfigured;
    }
    b.conversations := b.conversations[userId := Conversation(InProgress, mode, 0, Empty)];
    var kb: Option<InlineKeyboard> := None;
    if qs[0].qtype == "button" && qs[0].options != [] {
      var rows := OptionsKeyboard(qs[0].options);
      kb := Some(rows);
    }
    reply := Asked(1, |qs|, qs[0].text, kb);
  }

  /** `start_natal_chart`. */
  method StartNatalChartHandler(b: Backend, userId: UserId, adminRaw: string) returns (reply: Reply)
    requires b.Valid()
    modifies b
    ensures b.Valid()
    ensures Outcome(b.State(), reply) == StartNatalChart(old(b.State()), userId, adminRaw)
  {
    if !IsAdmin(adminRaw, userId) {
      var u := GetUser(b.users, userId);
      if u.None? {
        return Raised;
      }
      if u.value.natalChartCredits < 1 {
        return NoAttempts;
      }
    }
    reply := StartSurveyLogic(b, userId, NatalChart);
  }

  /** `start_horoscope`, with `today` the local date. */
  method StartHoroscopeHandler(b: Backend, userId: UserId, adminRaw: string, today: Date) returns (reply: Reply)
    requires b.Valid() && ValidDate(today)
    modifies b
    ensures b.Valid()
    ensures Outcome(b.State(), reply) == StartHoroscope(old(b.State()), userId, adminRaw, today)
  {
    var viewed := RedisGet(b.redis, ViewedKey(userId, today));
    if Truthy(viewed) && !IsAdmin(adminRaw, userId) {
      return OnePerDay;
    }
    reply := StartSurveyLogic(b, userId, HoroscopeMode);
  }

  /** `toggle_tracking`. */
  method ToggleTrackingHandler(b: Backend, userId: UserId, data: string) returns (reply: Reply)
    requires b.Valid()
    modifies b
    ensures b.Valid()
    ensures Outcome(b.State(), reply) == ToggleTracking(old(b.State()), userId, data)
  {
    if !HasPrefix(data, "toggle_tracking_") {
      return NotRouted;
    }
    var m := ToggleMode(data);
    if m.None? {
      return Raised;
    }
    var mode := m.value;
    var k := KindOf(mode);
    var on := false;
    if k == DietKind || k == TrainerKind {
      var f := FindUser(b.users, userId);
      if f.None? {
        return Raised;
      }
      var i := f.value;
      on := !TrackingFlag(b.users[i], k);
      var u := WithTracking(b.users[i], k, on);
      UpdateKeepsUserIds(b.users, i, u);
      b.users := b.users[i := u];
    }
    reply := Toggled(mode, on, ModeMenuKeyboard(mode, on));
  }

  /** `cancel_survey_callback` and `cancel_survey_text`, with the corrected menu. */
  method CancelSurveyHandler(b: Backend, userId: UserId) returns (reply: Reply)
    requires b.Valid()
    modifies b
    ensures b.Valid()
    ensures Outcome(b.State(), reply) == CancelSurvey(old(b.State()), userId)
  {
    if userId !in b.conversations || b.conversations[userId].state != InProgress {
      return NotRouted;
    }
    b.conversations := b.conversations - {userId};
    reply := Cancelled(MenuMarkup(b.users, userId));
  }

  /** `process_message_answer`. */
  method ProcessMessageAnswerHandler(b: Backend, userId: UserId, input: Input, adminRaw: string, today: Date)
    returns (reply: Reply)
    requires b.Valid() && ValidDate(today)
    modifies b
    ensures b.Valid()
    ensures Outcome(b.State(), reply) == ProcessMessageAnswer(old(b.State()), userId, input, adminRaw, today)
  {
    if userId !in b.conversations || b.conversations[userId].state != InProgress {
      return NotRouted;
    }
    if input.text.None? && input.photos == [] {
      return NotRouted;
    }
    var c := b.conversations[userId];
    var qs := if c.mode in b.surveyConfigs then b.surveyConfigs[c.mode] else [];
    if qs == [] {
      return Silent;
    }
    if c.step >= |qs| {
      return Raised;
    }
    var v := Validate(qs[c.step], input);
    if v.Rejected? {
      return InvalidAnswer(v.error, qs[c.step].text);
    }
    reply := HandleAnswerStep(b, userId, v.value, adminRaw, today);
  }

  /** `process_button_answer`. */
  method ProcessButtonAnswerHandler(b: Backend, userId: UserId, data: string, adminRaw: string, today: Date)
    returns (reply: Reply)
    requires b.Valid() && ValidDate(today)
    modifies b
    ensures b.Valid()
    ensures Outcome(b.State(), reply) == ProcessButtonAnswer(old(b.State()), userId, data, adminRaw, today)
  {
    if userId !in b.conversations || b.conversations[userId].state != InProgress {
      return NotRouted;
    }
    if |data| < 4 || data[..4] != "ans_" {
      return NotRouted;
    }
    reply := HandleAnswerStep(b, userId, AnswerOf(data), adminRaw, today);
  }

  /** `_handle_answer`, on a snapshot of the store. */
  method HandleAnswerValues(w0: World, userId: UserId, value: string, adminRaw: string, today: Date)
    returns (w: World, reply: Reply)
    requires ValidDate(today)
    ensures Outcome(w, reply) == HandleAnswer(w0, userId, value, adminRaw, today)
  {
    w := w0;
    if userId !in w.conversations {
      return w, Raised;
    }
    var c := w.conversations[userId];
    var qs := if c.mode in w.surveyConfigs then w.surveyConfigs[c.mode] else [];
    if c.step >= |qs| {
      return w, Raised;
    }
    var answers := Set(c.answers, qs[c.step].key, value);
    var next := c.step + 1;
    if next < |qs| {
      w := w.(conversations := w.conversations[userId := c.(step := next, answers := answers)]);
      var kb: Option<InlineKeyboard> := None;
      if qs[next].qtype == "button" && qs[next].options != [] {
        var rows := OptionsKeyboard(qs[next].options);
        kb := Some(rows);
      }
      return w, Asked(next + 1, |qs|, qs[next].text, kb);
    }
    w := w.(conversations := w.conversations[userId := c.(answers := answers)]);
    var u := GetUser(w.users, userId);
    if u.Some? && u.value.hasAcceptedPolicy {
      w, reply := FinishValues(w, userId, c.mode, answers, adminRaw, today);
    } else {
      w := w.(conversations := w.conversations[userId := c.(state := FinalConsent, answers := answers)]);
      reply := ConsentAsked;
    }
  }

  /** `_handle_answer`. */
  method HandleAnswerStep(b: Backend, userId: UserId, value: string, adminRaw: string, today: Date)
    returns (reply: Reply)
    requires b.Valid() && ValidDate(today)
    modifies b
    ensures b.Valid()
    ensures Outcome(b.State(), reply) == HandleAnswer(old(b.State()), userId, value, adminRaw, today)
  {
    var w;
    w, reply := HandleAnswerValues(b.State(), userId, value, adminRaw, today);
    HandleAnswerKeepsValid(b.State(), userId, value, adminRaw, today);
    b.SetState(w);
  }

  /** `process_consent`. */
  method ProcessConsentHandler(b: Backend, userId: UserId, data: string, adminRaw: string, today: Date)
    returns (reply: Reply)
    requires b.Valid() && ValidDate(today)
    modifies b
    ensures b.Valid()
    ensures Outcome(b.State(), reply) == ProcessConsent(old(b.State()), userId, data, adminRaw, today)
  {
    if userId !in b.conversations || b.conversations[userId].state != FinalConsent {
      return NotRouted;
    }
    if data == "consent_no" {
      b.conversations := b.conversations - {userId};
      return Declined(MenuMarkup(b.users, userId));
    }
    if data != "consent_yes" {
      return NotRouted;
    }
    var c := b.conversations[userId];
    AcceptPolicyKeepsIds(b.users, userId);
    b.users := AcceptPolicy(b.users, userId);
    reply := FinishSurveyStep(b, userId, c.mode, c.answers, adminRaw, today);
  }

  /** `_finish_survey` with the corrected menu, on a snapshot of the store. */
  method FinishValues(w0: World, userId: UserId, mode: string, answers: Answers, adminRaw: string, today: Date)
    returns (w: World, reply: Reply)
    requires ValidDate(today)
    ensures Outcome(w, reply) == FinishSurvey(w0, userId, mode, answers, adminRaw, today)
  {
    var menu := MenuMarkup(w0.users, userId);
    w := w0.(conversations := w0.conversations - {userId});
    w, reply := SessionValues(w, userId, mode, answers, adminRaw, today, menu);
  }

  /** The database session of `_finish_survey`, on a snapshot of the store. */
  method SessionValues(w0: World, userId: UserId, mode: string, answers: Answers, adminRaw: string, today: Date,
                       menu: ReplyKeyboard) returns (w: World, reply: Reply)
    requires ValidDate(today)
    ensures Outcome(w, reply) == FinishSession(w0, userId, mode, answers, adminRaw, today, menu)
  {
    w := w0;
    var k := KindOf(mode);
    var charged := k == NatalChartKind && !IsAdmin(adminRaw, userId);
    var f := FindUser(w.users, userId);
    if f.None? {
      return w, Raised;
    }
    var i := f.value;
    var u := w.users[i];
    if charged {
      if u.natalChartCredits > 0 {
        u := u.(natalChartCredits := u.natalChartCredits - 1);
      } else {
        return w, NoCredits(menu);
      }
    }
    var tracking := (k == DietKind && u.isDietTracking) || (k == TrainerKind && u.isTrainerTracking);
    var sid := w.nextSurveyId;
    w := w.(users := w.users[i := u],
            surveys := w.surveys + [NewUserSurvey(sid, userId, mode, ConfigId(mode), answers)],
            nextSurveyId := sid + 1);
    w, reply := DispatchValues(w, userId, mode, answers, sid, tracking, today, menu);
  }

  /** The mode-specific tail of `_finish_survey`, on a snapshot of the store. */
  method DispatchValues(w0: World, userId: UserId, mode: string, answers: Answers, sid: int, tracking: bool,
                        today: Date, menu: ReplyKeyboard) returns (w: World, reply: Reply)
    requires ValidDate(today)
    ensures Outcome(w, reply) == Dispatch(w0, userId, mode, answers, sid, tracking, today, menu)
  {
    w := w0;
    var k := KindOf(mode);
    if Generates(k) {
      w := w.(aiQueue := w.aiQueue + [GenerationTask(userId, mode, answers, sid)]);
      var offer: Option<InlineKeyboard> := None;
      if k != NatalChartKind && !tracking {
        offer := Some(TrackingOfferKeyboard(mode));
      }
      reply := Processing(menu, offer);
    } else if k == DatingKind {
      reply := DatingSaved(menu);
    } else if k == HoroscopeKind {
      w := w.(redis := w.redis[ViewedKey(userId, today) := RedisEntry("1", Some(ViewedTtl))]);
      var birth := Get(answers, "birth_date");
      var d := if birth.Some? then ParseDmy(birth.value) else None;
      if d.None? {
        reply := DateError(menu);
      } else {
        var sign := ZodiacSign(d.value.month, d.value.day);
        var t := RedisGet(w.redis, HoroscopeKey(sign));
        reply := if Truthy(t) then HoroscopeShown(menu, sign, t.value) else HoroscopeForming(menu);
      }
    } else {
      reply := Stored;
    }
  }

  /** `_finish_survey`, with the corrected menu. */
  method FinishSurveyStep(b: Backend, userId: UserId, mode: string, answers: Answers, adminRaw: string, today: Date)
    returns (reply: Reply)
    requires b.Valid() && ValidDate(today)
    modifies b
    ensures b.Valid()
    ensures Outcome(b.State(), reply) == FinishSurvey(old(b.State()), userId, mode, answers, adminRaw, today)
  {
    var w;
    w, reply := FinishValues(b.State(), userId, mode, answers, adminRaw, today);
    FinishKeepsValid(b.State(), userId, mode, answers, adminRaw, today);
    b.SetState(w);
  }
}
