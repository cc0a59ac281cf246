/**
 * The generation worker of src/workers/ai_worker.py: it consumes one
 * `q_ai_generation` task, fills the mode's prompt template with the answers,
 * asks the language model, stores the cleaned reply on the survey row and
 * queues two notifications for the user.
 */
module AiWorker {
  import opened Wrappers
  import opened Strings
  import opened Answers
  import opened Models
  import opened Keyboards
  import opened Queues
  import opened Store
  import opened TextCleanup

  /** A `q_ai_generation` body: `json.loads` raises or a key is missing, or the decoded generation request. */
  datatype TaskBody = Malformed | Task(task: GenerationTask)

  /** How `message.process()` settles the message: a normal exit acks, an exception rejects. */
  datatype Settle = Acked | Rejected

  /** The two texts handed to `generate_response`. */
  datatype LlmRequest = LlmRequest(system: string, user: string)

  /** The new state, the model request if one was made, and the settlement. */
  datatype TaskOutcome = TaskOutcome(w: World, request: Option<LlmRequest>, settle: Settle)

  // ---- json.dumps(answers, ensure_ascii=False) ----

  function HexDigit(n: nat): (c: char)
    requires n < 16
  {
    "0123456789abcdef"[n]
  }

  /** The JSON escape of one code point: quote, backslash and the C0 controls only. */
  function EscapeChar(c: char): (r: string)
    ensures |r| >= 1
    ensures forall k :: 0 <= k < |r| ==> r[k] >= ' '
    ensures c >= ' ' && c != '"' && c != '\\' ==> r == [c]
  {
    if c == '"' then "\\\""
    else if c == '\\' then "\\\\"
    else if c == '\n' then "\\n"
    else if c == '\r' then "\\r"
    else if c == '\t' then "\\t"
    else if c as int == 8 then "\\b"
    else if c as int == 12 then "\\f"
    else if c < ' ' then "\\u00" + [HexDigit(c as int / 16), HexDigit(c as int % 16)]
    else [c]
  }

  /** The body of a JSON string literal for `s`. */
  function JsonEscape(s: string): (r: string)
    ensures |r| >= |s|
    ensures s == [] <==> r == []
  {
    if s == [] then [] else EscapeChar(s[0]) + JsonEscape(s[1..])
  }

  function JsonString(s: string): string
  {
    "\"" + JsonEscape(s) + "\""
  }

  function JsonEntries(a: Answers): string
  {
    if a == [] then []
    else
      var entry := JsonString(a[0].0) + ": " + JsonString(a[0].1);
      if |a| == 1 then entry else entry + ", " + JsonEntries(a[1..])
  }

  /** `json.dumps(answers, ensure_ascii=False)` of a dict of strings, in key order. */
  function JsonDumps(a: Answers): (r: string)
    ensures |r| >= 2 && r[0] == '{' && r[|r| - 1] == '}'
  {
    "{" + JsonEntries(a) + "}"
  }

  /** The escaped text holds no control character: the literal stays on one line. */
  lemma {:induction false} JsonEscapeNoControl(s: string)
    ensures forall k :: 0 <= k < |JsonEscape(s)| ==> JsonEscape(s)[k] >= ' '
  {
    if s != [] {
      JsonEscapeNoControl(s[1..]);
      var e := EscapeChar(s[0]);
      var t := JsonEscape(s[1..]);
      assert JsonEscape(s) == e + t;
      forall k | 0 <= k < |e + t| ensures (e + t)[k] >= ' ' {
        if k < |e| {
          assert (e + t)[k] == e[k];
        } else {
          assert (e + t)[k] == t[k - |e|];
        }
      }
    }
  }

  /** Text without quotes, backslashes or controls is written as it is. */
  lemma {:induction false} JsonEscapePlain(s: string)
    requires forall k :: 0 <= k < |s| ==> s[k] >= ' ' && s[k] != '"' && s[k] != '\\'
    ensures JsonEscape(s) == s
  {
    if s != [] {
      JsonEscapePlain(s[1..]);
      assert s == [s[0]] + s[1..];
    }
  }

  function HexValue(c: char): Option<nat>
  {
    if '0' <= c <= '9' then Some(c as int - '0' as int)
    else if 'a' <= c <= 'f' then Some(c as int - 'a' as int + 10)
    else None
  }

  function Prepend(p: string, r: Option<string>): Option<string>
  {
    if r.Some? then Some(p + r.value) else None
  }

  /** Reading back a JSON string body as `json.loads` does, for the escapes `EscapeChar` writes. */
  function JsonUnescape(s: string): (r: Option<string>)
    decreases |s|
  {
    if s == [] then Some([])
    else if s[0] != '\\' then
      (if s[0] == '"' || s[0] < ' ' then None else Prepend([s[0]], JsonUnescape(s[1..])))
    else if |s| < 2 then None
    else if s[1] == '"' then Prepend("\"", JsonUnescape(s[2..]))
    else if s[1] == '\\' then Prepend("\\", JsonUnescape(s[2..]))
    else if s[1] == 'n' then Prepend("\n", JsonUnescape(s[2..]))
    else if s[1] == 'r' then Prepend("\r", JsonUnescape(s[2..]))
    else if s[1] == 't' then Prepend("\t", JsonUnescape(s[2..]))
    else if s[1] == 'b' then Prepend([8 as char], JsonUnescape(s[2..]))
    else if s[1] == 'f' then Prepend([12 as char], JsonUnescape(s[2..]))
    else if s[1] == 'u' && |s| >= 6 && s[2] == '0' && s[3] == '0' && HexValue(s[4]).Some? && HexValue(s[5]).Some? then
      var code := HexValue(s[4]).value * 16 + HexValue(s[5]).value;
      Prepend([code as char], JsonUnescape(s[6..]))
    else None
  }

  lemma UnescapeChar(c: char, t: string)
    ensures JsonUnescape(EscapeChar(c) + t) == Prepend([c], JsonUnescape(t))
  {
    if c as int < 32 && c != '\n' && c != '\r' && c != '\t' && c as int != 8 && c as int != 12 {
      UnescapeControl(c, t);
    } else if c == '"' || c == '\\' || c < ' ' {
      UnescapeShort(c, t);
    } else {
      assert EscapeChar(c) == [c];
      assert ([c] + t)[1..] == t;
    }
  }

  /** A control character without a short form reads back from its `\u00XX` escape. */
  lemma UnescapeControl(c: char, t: string)
    requires c as int < 32 && c != '\n' && c != '\r' && c != '\t' && c as int != 8 && c as int != 12
    ensures JsonUnescape(EscapeChar(c) + t) == Prepend([c], JsonUnescape(t))
  {
    var e := EscapeChar(c);
    var h1, h2 := HexDigit(c as int / 16), HexDigit(c as int % 16);
    assert e == "\\u00" + [h1, h2];
    assert HexValue(h1) == Some(c as int / 16);
    assert HexValue(h2) == Some(c as int % 16);
    assert (e + t)[6..] == t;
  }

  /** A character with a two-letter escape reads back from it. */
  lemma UnescapeShort(c: char, t: string)
    requires c == '"' || c == '\\' || c == '\n' || c == '\r' || c == '\t' || c as int == 8 || c as int == 12
    ensures JsonUnescape(EscapeChar(c) + t) == Prepend([c], JsonUnescape(t))
  {
    var e := EscapeChar(c);
    assert |e| == 2 && e[0] == '\\';
    assert (e + t)[2..] == t;
  }

  /** Escaping loses nothing: the literal reads back as the original text. */
  lemma {:induction false} JsonRoundTrip(s: string)
    ensures JsonUnescape(JsonEscape(s)) == Some(s)
  {
    if s != [] {
      JsonRoundTrip(s[1..]);
      UnescapeChar(s[0], JsonEscape(s[1..]));
      assert [s[0]] + s[1..] == s;
    }
  }

  lemma JsonDumpsEmpty()
    ensures JsonDumps(Empty) == "{}"
  {
  }

  // ---- the texts ----

  /** `get_prompt(mode)` reads the key `prompt:{mode}`. */
  function PromptKey(mode: string): (k: string)
    ensures HasPrefix(k, "prompt:") && k[7..] == mode
  {
    "prompt:" + mode
  }

  const DataLabel := "\n\nДанные: "

  /**
   * The system message for the model. Python's `str.format` is not
   * modelled: `format(template, answers)` is its result, `None` where it raises.
   */
  function SystemText(template: string, answers: Answers, formatted: Option<string>): (r: string)
    // the formatted template when `format` succeeds ...
    ensures formatted.Some? ==> r == formatted.value
    // ... otherwise the raw template, then the answers as JSON
    ensures formatted.None? ==> |r| > |template| + |DataLabel| && r[..|template|] == template && r[|r| - 1] == '}'
  {
    if formatted.Some? then formatted.value else template + DataLabel + JsonDumps(answers)
  }

  const UserContent :=
    "Составь рекомендацию на основе моих данных.\n"
    + "ТРЕБОВАНИЯ К ОФОРМЛЕНИЮ:\n"
    + "1. Эмодзи используй ТОЛЬКО в заголовках и очень умеренно (не более 1 на заголовок).\n"
    + "2. Внутри списков (перечислениях) эмодзи НЕ ИСПОЛЬЗУЙ.\n"
    + "3. Используй тег <b> для жирного выделения заголовков.\n"
    + "4. Списки оформляй строго тегами <li>.\n"
    + "5. Пиши сразу в HTML, не используй Markdown.\n"
    + "6. НЕ пиши <!DOCTYPE> или <html>, только текст."

  function ResultHead(mode: string): string
  {
    "✅ <b>Ваши рекомендации (" + mode + ") готовы!</b>\n\n"
  }

  const QuoteOpen := "<blockquote expandable>"
  const QuoteClose := "</blockquote>\n\n"
  const Disclaimer := "--- \n⚠️ <i><b>Важно:</b> Рекомендации носят информационный характер.</i>"

  /** The message the user gets: a header naming the mode, the reply quoted, then the disclaimer. */
  function ResultText(mode: string, clean: string): (r: string)
    ensures HasPrefix(r, ResultHead(mode) + QuoteOpen)
    ensures var i := |ResultHead(mode) + QuoteOpen|;
            i + |clean| + |QuoteClose + Disclaimer| == |r| && r[i..i + |clean|] == clean
    ensures r[|r| - |Disclaimer|..] == Disclaimer
  {
    var r := ResultHead(mode) + QuoteOpen + clean + QuoteClose + Disclaimer;
    assert r == (ResultHead(mode) + QuoteOpen) + clean + (QuoteClose + Disclaimer);
    r
  }

  const OfferText := "Хотите, чтобы я каждый день спрашивал о ваших успехах?"
  const SubscribeData := "tracking_subscribe"
  const UnsubscribeData := "tracking_unsubscribe"

  function OfferKeyboard(): (kb: InlineKeyboard)
    ensures |kb| == 1 && |kb[0]| == 2
    ensures kb[0][0].action == Callback(SubscribeData) && kb[0][1].action == Callback(UnsubscribeData)
  {
    [[InlineButton("👍 Да, давай!", Callback(SubscribeData)),
      InlineButton("👎 Нет, спасибо", Callback(UnsubscribeData))]]
  }

  function ResultNotification(userId: UserId, mode: string, clean: string): Notification
  {
    Notification(userId, ResultText(mode, clean), None, None)
  }

  function OfferNotification(userId: UserId): Notification
  {
    Notification(userId, OfferText, None, Some(OfferKeyboard()))
  }

  // ---- the update and the effect ----

  /** `UPDATE user_surveys SET ai_recommendation = text WHERE id = surveyId`. */
  function SetRecommendation(surveys: seq<UserSurvey>, surveyId: int, text: string): (r: seq<UserSurvey>)
    ensures |r| == |surveys|
    // every row keeps everything but the recommendation ...
    ensures forall i :: 0 <= i < |r| ==> r[i].(aiRecommendation := surveys[i].aiRecommendation) == surveys[i]
    // ... which is the text on the matching rows and untouched elsewhere
    ensures forall i :: 0 <= i < |r| && surveys[i].id == surveyId ==> r[i].aiRecommendation == Some(text)
    ensures forall i :: 0 <= i < |r| && surveys[i].id != surveyId ==> r[i] == surveys[i]
  {
    if surveys == [] then []
    else
      var row := if surveys[0].id == surveyId then surveys[0].(aiRecommendation := Some(text)) else surveys[0];
      [row] + SetRecommendation(surveys[1..], surveyId, text)
  }

  /** `process_task(message)`: `llm` stands for `generate_response`, `format` for `str.format`. */
  function TaskEffect(w: World, body: TaskBody, llm: (string, string) -> string,
                      format: (string, Answers) -> Option<string>): (r: TaskOutcome)
  {
    if body.Malformed? then TaskOutcome(w, None, Rejected)
    else
      var t := body.task;
      var template := RedisGet(w.redis, PromptKey(t.mode));
      if !Truthy(template) then TaskOutcome(w, None, Acked)
      else
        var system := SystemText(template.value, t.answers, format(template.value, t.answers));
        TaskOutcome(Deliver(w, t, Clean(llm(system, UserContent))), Some(LlmRequest(system, UserContent)), Acked)
  }

  /**
   * Steps 6 to 8 of `process_task` for the cleaned reply `clean`: the matching
   * survey rows store it (not the wrapped message), then exactly two
   * notifications follow for the user, in order, and nothing else changes.
   */
  function Deliver(w: World, t: GenerationTask, clean: string): (r: World)
    ensures r.(surveys := w.surveys, notifications := w.notifications) == w
    ensures |r.surveys| == |w.surveys|
    ensures forall i :: 0 <= i < |w.surveys| && w.surveys[i].id == t.surveyId ==>
              r.surveys[i].aiRecommendation == Some(clean)
    ensures forall i :: 0 <= i < |w.surveys| ==>
              r.surveys[i].(aiRecommendation := w.surveys[i].aiRecommendation) == w.surveys[i]
    ensures forall i :: 0 <= i < |w.surveys| && w.surveys[i].id != t.surveyId ==> r.surveys[i] == w.surveys[i]
    ensures |r.notifications| == |w.notifications| + 2
    ensures r.notifications[..|w.notifications|] == w.notifications
    ensures r.notifications[|w.notifications|] == Notification(t.userId, ResultText(t.mode, clean), None, None)
    ensures r.notifications[|w.notifications| + 1] == Notification(t.userId, OfferText, None, Some(OfferKeyboard()))
  {
    var surveys := SetRecommendation(w.surveys, t.surveyId, clean);
    var sent := w.notifications + [ResultNotification(t.userId, t.mode, clean)] + [OfferNotification(t.userId)];
    assert sent[..|w.notifications|] == w.notifications;
    w.(surveys := surveys, notifications := sent)
  }

  /** A body that does not decode rejects the message and changes nothing. */
  lemma MalformedRejected(w: World, llm: (string, string) -> string, format: (string, Answers) -> Option<string>)
    ensures TaskEffect(w, Malformed, llm, format) == TaskOutcome(w, None, Rejected)
  {
  }

  /** No prompt for the mode: no model request, no update, no notification, and still an ack. */
  lemma MissingPromptOnlyAcks(w: World, t: GenerationTask, llm: (string, string) -> string,
                              format: (string, Answers) -> Option<string>)
    requires !Truthy(RedisGet(w.redis, PromptKey(t.mode)))
    ensures TaskEffect(w, Task(t), llm, format) == TaskOutcome(w, None, Acked)
  {
  }

  /** The model sees the formatted template, or the raw template followed by the answers as JSON. */
  lemma PromptFallback(w: World, t: GenerationTask, llm: (string, string) -> string,
                       format: (string, Answers) -> Option<string>)
    requires Truthy(RedisGet(w.redis, PromptKey(t.mode)))
    ensures var template := w.redis[PromptKey(t.mode)].value;
            var r := TaskEffect(w, Task(t), llm, format);
            && r.request.Some? && r.request.value.user == UserContent
            && (format(template, t.answers).Some? ==> r.request.value.system == format(template, t.answers).value)
            && (format(template, t.answers).None? ==>
                  r.request.value.system == template + DataLabel + JsonDumps(t.answers))
  {
  }

  /**
   * With a prompt, the matching survey rows store the cleaned reply (not the
   * wrapped message), exactly two notifications follow for the user in order,
   * nothing else changes and the message is acked.
   */
  lemma TaskStoresAndNotifies(w: World, t: GenerationTask, llm: (string, string) -> string,
                              format: (string, Answers) -> Option<string>)
    requires Truthy(RedisGet(w.redis, PromptKey(t.mode)))
    ensures var r := TaskEffect(w, Task(t), llm, format);
            && r.settle == Acked && r.request.Some?
            && r.w == Deliver(w, t, Clean(llm(r.request.value.system, UserContent)))
  {
  }

  /** The stored recommendation is never the text sent: the sent one wraps it. */
  lemma StoredIsNotSent(mode: string, clean: string)
    ensures ResultText(mode, clean) != clean
  {
    assert |ResultText(mode, clean)| > |clean|;
  }

  /** The worker keeps the store's invariants: survey ids are untouched. */
  lemma TaskKeepsValid(w: World, body: TaskBody, llm: (string, string) -> string,
                       format: (string, Answers) -> Option<string>)
    requires ValidWorld(w)
    ensures ValidWorld(TaskEffect(w, body, llm, format).w)
  {
    if body.Task? && Truthy(RedisGet(w.redis, PromptKey(body.task.mode))) {
      var template := RedisGet(w.redis, PromptKey(body.task.mode)).value;
      var system := SystemText(template, body.task.answers, format(template, body.task.answers));
      DeliverKeepsValid(w, body.task, Clean(llm(system, UserContent)));
    }
  }

  lemma DeliverKeepsValid(w: World, t: GenerationTask, clean: string)
    requires ValidWorld(w)
    ensures ValidWorld(Deliver(w, t, clean))
  {
    var r := Deliver(w, t, clean);
    forall i | 0 <= i < |r.surveys| ensures r.surveys[i].id < r.nextSurveyId {
      assert r.surveys[i].id == w.surveys[i].id;
    }
  }

  /** `process_task` against the shared store and the delivered message. */
  method ProcessTask(b: Backend, msg: IncomingMessage<TaskBody>, llm: (string, string) -> string,
                     format: (string, Answers) -> Option<string>)
    requires b.Valid()
    modifies b, msg
    ensures b.Valid()
    ensures b.State() == TaskEffect(old(b.State()), msg.body, llm, format).w
    ensures TaskEffect(old(b.State()), msg.body, llm, format).settle == Acked ==>
              msg.acks == old(msg.acks) + 1 && msg.rejects == old(msg.rejects)
    ensures TaskEffect(old(b.State()), msg.body, llm, format).settle == Rejected ==>
              msg.rejects == old(msg.rejects) + 1 && msg.acks == old(msg.acks)
    ensures msg.nacks == old(msg.nacks) && msg.requeues == old(msg.requeues)
  {
    if msg.body.Malformed? {
      msg.Reject();
      return;
    }
    var t := msg.body.task;
    var template := RedisGet(b.redis, PromptKey(t.mode));
    if !Truthy(template) {
      msg.Ack();
      return;
    }
    var system := SystemText(template.value, t.answers, format(template.value, t.answers));
    var aiResult := llm(system, UserContent);
    var clean := Clean(aiResult);
    var w0 := b.State();
    DeliverKeepsValid(w0, t, clean);
    b.SetState(Deliver(w0, t, clean));
    msg.Ack();
  }
}
