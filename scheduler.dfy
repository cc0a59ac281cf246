/**
 * The scheduled producers of src/workers/scheduler.py: the evening check-in
 * broadcasts, the weekly report and the morning horoscope cache. Each job
 * reads the tables and appends to `q_notifications` (or writes Redis) and
 * touches nothing else. Job registration and the clock are not modelled:
 * `now` and `today` are parameters.
 */
module Scheduler {
  import opened Wrappers
  import opened Strings
  import opened Models
  import opened Keyboards
  import opened Queues
  import opened Store
  import opened Horoscope
  import opened Tracking
  import Survey

  // ---- The check-in broadcasts ----

  /** `send_diet_checkin` and `send_trainer_checkin`. */
  datatype CheckinJob = DietCheckin | TrainerCheckin
  {
    /** The mode the job's buttons carry. */
    function Mode(): string
    {
      if this == DietCheckin then "diet" else "trainer"
    }

    function Question(): string
    {
      if this == DietCheckin then "🌙 Привет! Как прошел день? Удалось придерживаться плана ПИТАНИЯ?"
      else "🌙 Как успехи с ТРЕНИРОВКАМИ сегодня?"
    }

    /** The tracking flag the job's query tests. */
    predicate Subscribed(u: User)
    {
      if this == DietCheckin then u.isDietTracking else u.isTrainerTracking
    }
  }

  /** The three statuses a check-in offers, in button order. */
  const CheckinStatuses: seq<string> := ["success", "partial", "fail"]

  /** The job's one-row keyboard: `track_<mode>_<status>` for each status. */
  function CheckinKeyboard(job: CheckinJob): (kb: InlineKeyboard)
    ensures |kb| == 1 && |kb[0]| == 3
    ensures forall k :: 0 <= k < 3 ==> kb[0][k].action == Callback(TrackData(job.Mode(), CheckinStatuses[k]))
  {
    if job == DietCheckin then
      [[InlineButton("✅ Всё по плану", Callback(TrackData("diet", "success"))),
        InlineButton("⚠️ Частично", Callback(TrackData("diet", "partial"))),
        InlineButton("❌ Не получилось", Callback(TrackData("diet", "fail")))]]
    else
      [[InlineButton("✅ Тренировка была!", Callback(TrackData("trainer", "success"))),
        InlineButton("⚠️ Частично", Callback(TrackData("trainer", "partial"))),
        InlineButton("❌ Пропустил(а)", Callback(TrackData("trainer", "fail")))]]
  }

  /**
   * Every check-in button splits back, in the tracking handler, into the
   * job's own mode and the button's status; the first two are the statuses
   * that extend a streak and the third breaks it.
   */
  lemma CheckinCallbacksRoundTrip(job: CheckinJob, k: nat)
    requires k < 3
    ensures ParseTrackData(CheckinKeyboard(job)[0][k].action.data) == Some((job.Mode(), CheckinStatuses[k]))
    ensures Good(CheckinStatuses[k]) <==> k < 2
  {
    TrackDataRoundTrip(job.Mode(), CheckinStatuses[k]);
  }

  /** `subscription_expires_at > now() AND <flag> == True`; a null expiry fails the comparison. */
  predicate Eligible(u: User, job: CheckinJob, now: Seconds)
  {
    u.subscriptionExpiresAt.Some? && u.subscriptionExpiresAt.value > now && job.Subscribed(u)
  }

  /** The users the job's query selects, in table order. */
  function CheckinRecipients(users: seq<User>, job: CheckinJob, now: Seconds): seq<UserId>
  {
    if users == [] then []
    else
      var u := users[|users| - 1];
      CheckinRecipients(users[..|users| - 1], job, now) + (if Eligible(u, job, now) then [u.userId] else [])
  }

  /** The same text and keyboard sent to each of `ids`, in order. */
  function Broadcast(ids: seq<UserId>, text: string, kb: InlineKeyboard): (ns: seq<Notification>)
    ensures |ns| == |ids|
    ensures forall k :: 0 <= k < |ids| ==> ns[k] == Notification(ids[k], text, None, Some(kb))
  {
    seq(|ids|, k requires 0 <= k < |ids| => Notification(ids[k], text, None, Some(kb)))
  }



  /**
   * The job writes to eligible users only, and to every eligible user:
   * each recipient is the id of an eligible row, each eligible row's id is
   * a recipient, and there are never more recipients than rows.
   */
  lemma {:induction false} CheckinRecipientsMeaning(users: seq<User>, job: CheckinJob, now: Seconds)
    ensures var ids := CheckinRecipients(users, job, now);
      && |ids| <= |users|
      && (forall k :: 0 <= k < |ids| ==> exists i :: 0 <= i < |users| && users[i].userId == ids[k] && Eligible(users[i], job, now))
      && (forall i :: 0 <= i < |users| && Eligible(users[i], job, now) ==> users[i].userId in ids)
  {
    if users != [] {
      var init := users[..|users| - 1];
      var last := users[|users| - 1];
      var prev := CheckinRecipients(init, job, now);
      var ids := CheckinRecipients(users, job, now);
      assert ids == prev + (if Eligible(last, job, now) then [last.userId] else []);
      CheckinRecipientsMeaning(init, job, now);
      forall k | 0 <= k < |ids|
        ensures exists i :: 0 <= i < |users| && users[i].userId == ids[k] && Eligible(users[i], job, now)
      {
        if k < |prev| {
          var i :| 0 <= i < |init| && init[i].userId == prev[k] && Eligible(init[i], job, now);
          assert users[i] == init[i];
        } else {
          assert users[|users| - 1].userId == ids[k];
        }
      }
      forall i | 0 <= i < |users| && Eligible(users[i], job, now) ensures users[i].userId in ids {
        if i < |init| {
          assert init[i] == users[i];
        }
      }
    }
  }

  /** One more user adds at most that user's id. */
  lemma CheckinRecipientsSnoc(users: seq<User>, i: nat, job: CheckinJob, now: Seconds)
    requires i < |users|
    ensures CheckinRecipients(users[..i + 1], job, now) ==
      CheckinRecipients(users[..i], job, now) + (if Eligible(users[i], job, now) then [users[i].userId] else [])
  {
    assert users[..i + 1][..i] == users[..i];
  }

  /**
   * The loop of a check-in job: `text` and `kb` sent to each eligible user
   * in table order, and the count of messages queued.
   */
  method QueueCheckins(b: Backend, job: CheckinJob, now: Seconds, text: string, kb: InlineKeyboard) returns (count: nat)
    modifies b`notifications
    ensures b.notifications == old(b.notifications) + Broadcast(CheckinRecipients(b.users, job, now), text, kb)
    ensures count == |CheckinRecipients(b.users, job, now)|
  {
    var users := b.users;
    ghost var ids: seq<UserId> := [];
    count := 0;
    var i := 0;
    while i < |users|
      invariant 0 <= i <= |users|
      invariant ids == CheckinRecipients(users[..i], job, now)
      invariant b.notifications == old(b.notifications) + Broadcast(ids, text, kb)
      invariant count == |ids|
    {
      CheckinRecipientsSnoc(users, i, job, now);
      var u := users[i];
      if Eligible(u, job, now) {
        b.notifications := b.notifications + [Notification(u.userId, text, None, Some(kb))];
        ids := ids + [u.userId];
        count := count + 1;
      }
      i := i + 1;
    }
    assert users[..i] == users;
  }

  /**
   * `send_diet_checkin` and `send_trainer_checkin`: the job's question and
   * keyboard queued for each eligible user, and the count reported.
   */
  method SendCheckin(b: Backend, job: CheckinJob, now: Seconds) returns (count: nat)
    modifies b`notifications
    ensures b.notifications == old(b.notifications) + Broadcast(CheckinRecipients(b.users, job, now), job.Question(), CheckinKeyboard(job))
    ensures count == |CheckinRecipients(b.users, job, now)|
  {
    count := QueueCheckins(b, job, now, job.Question(), CheckinKeyboard(job));
  }

  // ---- The weekly report ----

  /** The first day the report counts: `today - 7`, so eight calendar days up to today. */
  function WeekAgo(today: Day): Day
  {
    today - 7
  }

  /** `count(id)` of the user's records with `date >= from` and this status, whatever their mode. */
  function CountStatus(ts: seq<DailyTracking>, userId: UserId, from: Day, status: string): (n: nat)
    ensures n <= |ts|
    ensures n == 0 <== forall k :: 0 <= k < |ts| ==> ts[k].userId != userId
  {
    if ts == [] then 0
    else
      var t := ts[|ts| - 1];
      CountStatus(ts[..|ts| - 1], userId, from, status) + (if t.userId == userId && t.date >= from && t.status == status then 1 else 0)
  }

  /** The closing line by the number of successes. */
  function Tier(success: nat): string
  {
    if success >= 5 then "🔥 Отличный результат!"
    else if success >= 3 then "👍 Хороший темп!"
    else "💪 Не сдавайтесь!"
  }

  function ReportText(success: nat, partial: nat, fail: nat): string
  {
    "📅 <b>Ваша неделя в цифрах:</b>\n\n✅ Выполнено: " + IntToString(success)
      + "\n⚠️ Частично: " + IntToString(partial)
      + "\n❌ Пропущено: " + IntToString(fail) + "\n\n" + Tier(success)
  }

  /** Who the report query selects: either tracking flag, with no subscription test. */
  predicate ReportRecipient(u: User)
  {
    u.isDietTracking || u.isTrainerTracking
  }

  /** Whether the user has any success, partial or fail record since `today - 7`. */
  predicate ActiveWeek(ts: seq<DailyTracking>, userId: UserId, today: Day)
  {
    var from := WeekAgo(today);
    CountStatus(ts, userId, from, "success") + CountStatus(ts, userId, from, "partial") + CountStatus(ts, userId, from, "fail") != 0
  }

  /** The report message with the user's three counts. */
  function ReportMessage(ts: seq<DailyTracking>, userId: UserId, today: Day): (n: Notification)
    ensures n.userId == userId && n.photo.None? && n.keyboard.None?
  {
    var from := WeekAgo(today);
    Notification(userId, ReportText(CountStatus(ts, userId, from, "success"), CountStatus(ts, userId, from, "partial"),
                                    CountStatus(ts, userId, from, "fail")), None, None)
  }

  /** The report for one user, or nothing when the window holds no success, partial or fail record of theirs. */
  function Report(ts: seq<DailyTracking>, u: User, today: Day): (r: Option<Notification>)
    ensures r.Some? <==> ActiveWeek(ts, u.userId, today)
    ensures r.Some? ==> r.value == ReportMessage(ts, u.userId, today)
  {
    if ActiveWeek(ts, u.userId, today) then Some(ReportMessage(ts, u.userId, today)) else None
  }

  /** The users who get a report, in table order. */
  function ReportedUsers(users: seq<User>, ts: seq<DailyTracking>, today: Day): seq<UserId>
  {
    if users == [] then []
    else
      var u := users[|users| - 1];
      ReportedUsers(users[..|users| - 1], ts, today) + (if ReportRecipient(u) && ActiveWeek(ts, u.userId, today) then [u.userId] else [])
  }

  /** The report of each listed user, in order. */
  function ReportMessages(ids: seq<UserId>, ts: seq<DailyTracking>, today: Day): (ns: seq<Notification>)
    ensures |ns| == |ids|
    ensures forall k :: 0 <= k < |ids| ==> ns[k] == ReportMessage(ts, ids[k], today)
  {
    seq(|ids|, k requires 0 <= k < |ids| => ReportMessage(ts, ids[k], today))
  }

  /** A record counts exactly when it is the user's, has the status and falls on or after `today - 7`. */
  lemma {:induction false} CountStatusWindow(ts: seq<DailyTracking>, userId: UserId, today: Day, status: string)
    ensures CountStatus(ts, userId, WeekAgo(today), status) == 0 <==>
      forall i :: 0 <= i < |ts| ==> !(ts[i].userId == userId && ts[i].date >= today - 7 && ts[i].status == status)
  {
    if ts != [] {
      var init := ts[..|ts| - 1];
      CountStatusWindow(init, userId, today, status);
      assert forall i :: 0 <= i < |init| ==> init[i] == ts[i];
    }
  }

  /**
   * A user has a report exactly when some record of theirs dated on or
   * after `today - 7` is a success, a partial or a fail, whatever its mode.
   */
  lemma ReportMeaning(ts: seq<DailyTracking>, u: User, today: Day)
    ensures Report(ts, u, today).None? <==>
      forall i :: 0 <= i < |ts| ==> !(ts[i].userId == u.userId && ts[i].date >= today - 7 && ts[i].status in CheckinStatuses)
  {
    CountStatusWindow(ts, u.userId, today, "success");
    CountStatusWindow(ts, u.userId, today, "partial");
    CountStatusWindow(ts, u.userId, today, "fail");
  }

  /** Reports go to recipients with an active week only, and every such user gets one. */
  lemma {:induction false} ReportedUsersMeaning(users: seq<User>, ts: seq<DailyTracking>, today: Day)
    ensures var ids := ReportedUsers(users, ts, today);
      && |ids| <= |users|
      && (forall k :: 0 <= k < |ids| ==>
            exists i :: 0 <= i < |users| && users[i].userId == ids[k] && ReportRecipient(users[i]) && ActiveWeek(ts, ids[k], today))
      && (forall i :: 0 <= i < |users| && ReportRecipient(users[i]) && ActiveWeek(ts, users[i].userId, today) ==>
            users[i].userId in ids)
  {
    if users != [] {
      var init := users[..|users| - 1];
      ReportedUsersMeaning(init, ts, today);
      assert forall i :: 0 <= i < |init| ==> init[i] == users[i];
    }
  }

  lemma ReportedUsersSnoc(users: seq<User>, i: nat, ts: seq<DailyTracking>, today: Day)
    requires i < |users|
    ensures ReportedUsers(users[..i + 1], ts, today) == ReportedUsers(users[..i], ts, today)
      + (if ReportRecipient(users[i]) && ActiveWeek(ts, users[i].userId, today) then [users[i].userId] else [])
  {
    assert users[..i + 1][..i] == users[..i];
  }

  lemma ReportMessagesSnoc(ids: seq<UserId>, id: UserId, ts: seq<DailyTracking>, today: Day)
    ensures ReportMessages(ids + [id], ts, today) == ReportMessages(ids, ts, today) + [ReportMessage(ts, id, today)]
  {
    assert (ids + [id])[|ids|] == id;
    forall k | 0 <= k < |ids| ensures (ids + [id])[k] == ids[k] {}
  }

  /** `run_weekly_report`: one report per recipient with an active week, in table order, counted. */
  method RunWeeklyReport(b: Backend, today: Day) returns (count: nat)
    modifies b`notifications
    ensures b.notifications == old(b.notifications) + ReportMessages(ReportedUsers(b.users, b.tracking, today), b.tracking, today)
    ensures count == |ReportedUsers(b.users, b.tracking, today)|
  {
    var users := b.users;
    ghost var ids: seq<UserId> := [];
    count := 0;
    var i := 0;
    while i < |users|
      invariant 0 <= i <= |users|
      invariant ids == ReportedUsers(users[..i], b.tracking, today)
      invariant b.notifications == old(b.notifications) + ReportMessages(ids, b.tracking, today)
      invariant count == |ids|
    {
      ReportedUsersSnoc(users, i, b.tracking, today);
      var u := users[i];
      if ReportRecipient(u) && ActiveWeek(b.tracking, u.userId, today) {
        ReportMessagesSnoc(ids, u.userId, b.tracking, today);
        b.notifications := b.notifications + [ReportMessage(b.tracking, u.userId, today)];
        ids := ids + [u.userId];
        count := count + 1;
      }
      i := i + 1;
    }
    assert users[..i] == users;
  }

  // ---- The horoscope cache ----

  const DefaultHoroscopePrompt := "Ты астролог. Составь краткий гороскоп на сегодня для знака {sign}."
  const HoroscopeRequest := "Гороскоп на сегодня."

  /** `set_horoscope` keeps a text for a day. */
  const HoroscopeTtl: int := 86400

  /** `get_prompt("horoscope") or default`. */
  function HoroscopePrompt(redis: map<string, RedisEntry>): (p: string)
    ensures Truthy(RedisGet(redis, "prompt:horoscope")) ==> p == redis["prompt:horoscope"].value
    ensures !Truthy(RedisGet(redis, "prompt:horoscope")) ==> p == DefaultHoroscopePrompt
  {
    var stored := RedisGet(redis, "prompt:horoscope");
    if Truthy(stored) then stored.value else DefaultHoroscopePrompt
  }

  /**
   * The entry one sign's iteration writes: `format` stands for
   * `base_prompt.format(sign=…)` (`None` where it raises), `llm` for
   * `generate_response`, and `setFails` for the signs whose Redis write
   * raises. Any failure writes nothing for that sign.
   */
  function SignEntry(base: string, s: Sign, format: (string, string) -> Option<string>,
                     llm: (string, string) -> string, setFails: set<Sign>): Option<RedisEntry>
  {
    match format(base, s.RusName())
    case None => None
    case Some(system) => if s in setFails then None else Some(RedisEntry(llm(system, HoroscopeRequest), Some(HoroscopeTtl)))
  }

  /** The signs, in table order, whose text gets written. */
  function Written(signs: seq<Sign>, base: string, format: (string, string) -> Option<string>,
                   llm: (string, string) -> string, setFails: set<Sign>): seq<Sign>
  {
    if signs == [] then []
    else
      var s := signs[|signs| - 1];
      Written(signs[..|signs| - 1], base, format, llm, setFails)
        + (if SignEntry(base, s, format, llm, setFails).Some? then [s] else [])
  }

  /** Redis after writing, item by item in order, each item's entry under its key when it has one. */
  function WriteEach<K>(redis: map<string, RedisEntry>, items: seq<K>, keyOf: K -> string,
                        entry: K -> Option<RedisEntry>): map<string, RedisEntry>
  {
    if items == [] then redis
    else
      var s := items[|items| - 1];
      var before := WriteEach(redis, items[..|items| - 1], keyOf, entry);
      match entry(s)
      case None => before
      case Some(e) => before[keyOf(s) := e]
  }

  /**
   * With distinct keys, each key ends up holding what its own item wrote,
   * or what it held before if that item wrote nothing.
   */
  lemma {:induction false} WriteEachPerKey<K>(redis: map<string, RedisEntry>, items: seq<K>, keyOf: K -> string,
                                              entry: K -> Option<RedisEntry>, key: string)
    requires forall s, t :: keyOf(s) == keyOf(t) ==> s == t
    ensures var r := WriteEach(redis, items, keyOf, entry);
      && (forall s :: s in items && key == keyOf(s) && entry(s).Some? ==> key in r && r[key] == entry(s).value)
      && ((forall s :: s in items ==> key != keyOf(s) || entry(s).None?) ==>
            (key in r <==> key in redis) && (key in redis ==> r[key] == redis[key]))
  {
    if items != [] {
      var init := items[..|items| - 1];
      WriteEachPerKey(redis, init, keyOf, entry, key);
      assert items == init + [items[|items| - 1]];
    }
  }

  /** Redis after the iterations over `signs`. */
  function Cached(redis: map<string, RedisEntry>, signs: seq<Sign>, base: string, format: (string, string) -> Option<string>,
                  llm: (string, string) -> string, setFails: set<Sign>): map<string, RedisEntry>
  {
    WriteEach(redis, signs, Survey.HoroscopeKey, s => SignEntry(base, s, format, llm, setFails))
  }

  lemma HoroscopeKeyInjective(s: Sign, t: Sign)
    requires Survey.HoroscopeKey(s) == Survey.HoroscopeKey(t)
    ensures s == t
  {
    assert Survey.HoroscopeKey(s)[10..] == s.Key();
    assert Survey.HoroscopeKey(t)[10..] == t.Key();
    KeyInjective(s, t);
  }

  /**
   * Failures stay with their sign: after the iterations, each sign's key
   * holds what its own iteration wrote, or what it held before if that
   * iteration failed, and every other key is untouched.
   */
  lemma CachedPerSign(redis: map<string, RedisEntry>, signs: seq<Sign>, base: string,
                      format: (string, string) -> Option<string>,
                      llm: (string, string) -> string, setFails: set<Sign>, key: string)
    ensures var r := Cached(redis, signs, base, format, llm, setFails);
      && (forall s :: s in signs && key == Survey.HoroscopeKey(s) && SignEntry(base, s, format, llm, setFails).Some? ==>
            key in r && r[key] == SignEntry(base, s, format, llm, setFails).value)
      && ((forall s :: s in signs ==> key != Survey.HoroscopeKey(s) || SignEntry(base, s, format, llm, setFails).None?) ==>
            (key in r <==> key in redis) && (key in redis ==> r[key] == redis[key]))
  {
    var entry := s => SignEntry(base, s, format, llm, setFails);
    forall s, t | Survey.HoroscopeKey(s) == Survey.HoroscopeKey(t) ensures s == t {
      HoroscopeKeyInjective(s, t);
    }
    WriteEachPerKey(redis, signs, Survey.HoroscopeKey, entry, key);
  }

  /** Each sign is written at most once, in the tables' order. */
  lemma {:induction false} WrittenDistinct(signs: seq<Sign>, base: string, format: (string, string) -> Option<string>,
                                           llm: (string, string) -> string, setFails: set<Sign>)
    requires forall i, j :: 0 <= i < j < |signs| ==> signs[i] != signs[j]
    ensures var w := Written(signs, base, format, llm, setFails);
      && (forall i, j :: 0 <= i < j < |w| ==> w[i] != w[j])
      && (forall s :: s in w <==> s in signs && SignEntry(base, s, format, llm, setFails).Some?)
  {
    if signs != [] {
      var init := signs[..|signs| - 1];
      WrittenDistinct(init, base, format, llm, setFails);
      assert signs == init + [signs[|signs| - 1]];
    }
  }

  lemma SignsDistinct()
    ensures forall i, j :: 0 <= i < j < |Signs| ==> Signs[i] != Signs[j]
  {
  }

  /**
   * `generate_daily_horoscopes`: for each sign in table order, format the
   * prompt, ask the model and cache the text for a day; an exception skips
   * that sign only. `written` lists the signs whose write succeeded.
   */
  method GenerateDailyHoroscopes(b: Backend, format: (string, string) -> Option<string>,
                                 llm: (string, string) -> string, setFails: set<Sign>)
    returns (written: seq<Sign>)
    modifies b`redis
    ensures var base := HoroscopePrompt(old(b.redis));
      && b.redis == Cached(old(b.redis), Signs, base, format, llm, setFails)
      && written == Written(Signs, base, format, llm, setFails)
  {
    var base := HoroscopePrompt(b.redis);
    ghost var redis0 := b.redis;
    written := [];
    var i := 0;
    while i < |Signs|
      invariant 0 <= i <= |Signs|
      invariant b.redis == Cached(redis0, Signs[..i], base, format, llm, setFails)
      invariant written == Written(Signs[..i], base, format, llm, setFails)
    {
      var s := Signs[i];
      assert Signs[..i + 1][..i] == Signs[..i];
      var system := format(base, s.RusName());
      if system.Some? && s !in setFails {
        var text := llm(system.value, HoroscopeRequest);
        b.redis := b.redis[Survey.HoroscopeKey(s) := RedisEntry(text, Some(HoroscopeTtl))];
        written := written + [s];
      }
      i := i + 1;
    }
    assert Signs[..i] == Signs;
  }
}
