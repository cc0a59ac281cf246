/**
 * The daily check-in (src/bot/handlers/tracking.py): a `track_<mode>_<status>`
 * button press stores one `DailyTracking` row per user, mode and day, and
 * answers with the current streak of successful days.
 */
module Tracking {
  import opened Wrappers
  import opened Strings
  import opened Models
  import opened Store

  /** The statuses that continue a streak. */
  predicate Good(status: string)
  {
    status == "success" || status == "partial"
  }

  // ---- The history query ----

  /** `select(DailyTracking).where(user_id == …, mode == …)`, in table order. */
  function History(ts: seq<DailyTracking>, userId: UserId, mode: string): seq<DailyTracking>
  {
    if ts == [] then []
    else (if ts[0].userId == userId && ts[0].mode == mode then [ts[0]] else []) + History(ts[1..], userId, mode)
  }

  /** The query reads exactly the user's records of the requested mode. */
  lemma {:induction false} HistoryMembers(ts: seq<DailyTracking>, userId: UserId, mode: string)
    ensures forall x :: x in History(ts, userId, mode) <==> x in ts && x.userId == userId && x.mode == mode
  {
    if ts != [] {
      HistoryMembers(ts[1..], userId, mode);
      assert ts == [ts[0]] + ts[1..];
    }
  }

  /** Insert `t` after every record at least as recent. */
  function InsertByDate(t: DailyTracking, s: seq<DailyTracking>): (r: seq<DailyTracking>)
    ensures |r| == |s| + 1
  {
    if s == [] || s[0].date < t.date then [t] + s
    else [s[0]] + InsertByDate(t, s[1..])
  }

  /** `.order_by(desc(DailyTracking.date))`; the order among equal dates is the database's choice. */
  function ByDateDesc(h: seq<DailyTracking>): (r: seq<DailyTracking>)
    ensures |r| == |h|
  {
    if h == [] then []
    else InsertByDate(h[0], ByDateDesc(h[1..]))
  }

  lemma {:induction false} InsertPermutes(t: DailyTracking, s: seq<DailyTracking>)
    ensures multiset(InsertByDate(t, s)) == multiset(s) + multiset{t}
  {
    if s != [] && s[0].date >= t.date {
      InsertPermutes(t, s[1..]);
      assert s == [s[0]] + s[1..];
    }
  }

  /** Ordering the query result keeps exactly its records. */
  lemma {:induction false} SortPermutes(h: seq<DailyTracking>)
    ensures multiset(ByDateDesc(h)) == multiset(h)
  {
    if h != [] {
      SortPermutes(h[1..]);
      InsertPermutes(h[0], ByDateDesc(h[1..]));
      assert h == [h[0]] + h[1..];
    }
  }

  predicate StrictlyDesc(h: seq<DailyTracking>)
  {
    forall i, j :: 0 <= i < j < |h| ==> h[i].date > h[j].date
  }

  predicate DistinctDates(h: seq<DailyTracking>)
  {
    forall i, j :: 0 <= i < j < |h| ==> h[i].date != h[j].date
  }

  lemma ConsStrict(x: DailyTracking, s: seq<DailyTracking>)
    requires StrictlyDesc(s)
    requires forall y :: y in s ==> y.date < x.date
    ensures StrictlyDesc([x] + s)
  {
    var r := [x] + s;
    forall i, j | 0 <= i < j < |r| ensures r[i].date > r[j].date {
      assert r[j] == s[j - 1];
      if i == 0 {
        assert s[j - 1] in s;
      } else {
        assert r[i] == s[i - 1];
      }
    }
  }

  lemma {:induction false} InsertKeepsStrict(t: DailyTracking, s: seq<DailyTracking>)
    requires StrictlyDesc(s)
    requires forall x :: x in s ==> x.date != t.date
    ensures StrictlyDesc(InsertByDate(t, s))
  {
    if s == [] || s[0].date < t.date {
      forall y | y in s ensures y.date < t.date {
        var k :| 0 <= k < |s| && s[k] == y;
      }
      ConsStrict(t, s);
    } else {
      assert s[0].date > t.date by { assert s[0] in s; }
      var tail := s[1..];
      forall x | x in tail ensures x.date != t.date && x.date < s[0].date {
        var k :| 0 <= k < |tail| && tail[k] == x;
        assert s[k + 1] == x;
      }
      assert StrictlyDesc(tail) by {
        forall i, j | 0 <= i < j < |tail| ensures tail[i].date > tail[j].date {
          assert tail[i] == s[i + 1] && tail[j] == s[j + 1];
        }
      }
      InsertKeepsStrict(t, tail);
      var m := InsertByDate(t, tail);
      InsertPermutes(t, tail);
      forall x | x in m ensures x.date < s[0].date {
        assert x in multiset(m);
      }
      ConsStrict(s[0], m);
    }
  }

  /** Sorting records with distinct dates gives strictly decreasing dates. */
  lemma {:induction false} SortStrict(h: seq<DailyTracking>)
    requires DistinctDates(h)
    ensures StrictlyDesc(ByDateDesc(h))
  {
    if h != [] {
      var tail := h[1..];
      assert DistinctDates(tail) by {
        forall i, j | 0 <= i < j < |tail| ensures tail[i].date != tail[j].date {
          assert tail[i] == h[i + 1] && tail[j] == h[j + 1];
        }
      }
      SortStrict(tail);
      var s := ByDateDesc(tail);
      SortPermutes(tail);
      forall x | x in s ensures x.date != h[0].date {
        assert x in multiset(s);
        assert x in multiset(tail);
        var k :| 0 <= k < |tail| && tail[k] == x;
        assert h[k + 1] == x;
      }
      InsertKeepsStrict(h[0], s);
    }
  }

  lemma ConsDistinct(x: DailyTracking, s: seq<DailyTracking>)
    requires DistinctDates(s)
    requires forall y :: y in s ==> y.date != x.date
    ensures DistinctDates([x] + s)
  {
    var r := [x] + s;
    forall i, j | 0 <= i < j < |r| ensures r[i].date != r[j].date {
      assert r[j] == s[j - 1];
      if i == 0 {
        assert s[j - 1] in s;
      } else {
        assert r[i] == s[i - 1];
      }
    }
  }

  lemma UniqueCheckinsTail(ts: seq<DailyTracking>)
    requires UniqueCheckins(ts) && ts != []
    ensures UniqueCheckins(ts[1..])
    ensures forall k :: 1 <= k < |ts| ==> (ts[k].userId, ts[k].mode, ts[k].date) != (ts[0].userId, ts[0].mode, ts[0].date)
  {
    var tail := ts[1..];
    forall i, j | 0 <= i < j < |tail|
      ensures (tail[i].userId, tail[i].mode, tail[i].date) != (tail[j].userId, tail[j].mode, tail[j].date)
    {
      assert tail[i] == ts[i + 1] && tail[j] == ts[j + 1];
    }
  }

  /** With one check-in per user, mode and day, a user's history for one mode has distinct dates. */
  lemma {:induction false} HistoryDistinct(ts: seq<DailyTracking>, userId: UserId, mode: string)
    requires UniqueCheckins(ts)
    ensures DistinctDates(History(ts, userId, mode))
  {
    if ts != [] {
      var tail := ts[1..];
      UniqueCheckinsTail(ts);
      HistoryDistinct(tail, userId, mode);
      var rest := History(tail, userId, mode);
      if ts[0].userId == userId && ts[0].mode == mode {
        HistoryMembers(tail, userId, mode);
        forall x | x in rest ensures x.date != ts[0].date {
          var k :| 0 <= k < |tail| && tail[k] == x;
          assert ts[k + 1] == x;
        }
        ConsDistinct(ts[0], rest);
      }
    }
  }

  /** The query result the streak walks: strictly newest first. */
  lemma SortedHistoryStrict(ts: seq<DailyTracking>, userId: UserId, mode: string)
    requires UniqueCheckins(ts)
    ensures StrictlyDesc(ByDateDesc(History(ts, userId, mode)))
  {
    HistoryDistinct(ts, userId, mode);
    SortStrict(History(ts, userId, mode));
  }

  // ---- The streak ----

  /**
   * The walk of `_calculate_streak` from `check` on: records after `check`
   * are skipped, a good record on `check` counts and moves `check` a day back,
   * anything else ends the walk.
   */
  function StreakFrom(h: seq<DailyTracking>, check: Day): (n: nat)
    ensures n <= |h|
  {
    if h == [] then 0
    else if h[0].date > check then StreakFrom(h[1..], check)
    else if h[0].date == check && Good(h[0].status) then 1 + StreakFrom(h[1..], check - 1)
    else 0
  }

  /** `_calculate_streak` over the query result, with `today` the local date. */
  method CalculateStreak(history: seq<DailyTracking>, today: Day) returns (streak: nat)
    ensures streak == StreakFrom(history, today)
  {
    if history == [] {
      return 0;
    }
    streak := 0;
    var check := today;
    var i := 0;
    while i < |history|
      invariant 0 <= i <= |history|
      invariant check == today - streak
      invariant streak + StreakFrom(history[i..], check) == StreakFrom(history, today)
    {
      var record := history[i];
      assert history[i..] == [record] + history[i + 1..];
      if record.date > check {
        i := i + 1;
        continue;
      }
      if record.date == check && Good(record.status) {
        streak := streak + 1;
        check := check - 1;
      } else if record.date < check {
        break;
      } else {
        break;
      }
      i := i + 1;
    }
  }

  /** A good check-in on day `d`. */
  predicate CheckedIn(h: seq<DailyTracking>, d: Day)
  {
    exists i :: 0 <= i < |h| && h[i].date == d && Good(h[i].status)
  }

  /** How many records are dated no later than `d`. */
  function CountNotAfter(h: seq<DailyTracking>, d: Day): nat
  {
    if h == [] then 0 else (if h[0].date <= d then 1 else 0) + CountNotAfter(h[1..], d)
  }

  lemma {:induction false} CountNotAfterMono(h: seq<DailyTracking>, d: Day, e: Day)
    requires d <= e
    ensures CountNotAfter(h, d) <= CountNotAfter(h, e)
  {
    if h != [] {
      CountNotAfterMono(h[1..], d, e);
    }
  }

  lemma CheckedInCons(h: seq<DailyTracking>, d: Day)
    requires h != []
    ensures CheckedIn(h, d) <==> (h[0].date == d && Good(h[0].status)) || CheckedIn(h[1..], d)
  {
    if CheckedIn(h[1..], d) {
      var k :| 0 <= k < |h[1..]| && h[1..][k].date == d && Good(h[1..][k].status);
      assert h[k + 1] == h[1..][k];
    }
    if CheckedIn(h, d) {
      var k :| 0 <= k < |h| && h[k].date == d && Good(h[k].status);
      if k > 0 {
        assert h[1..][k - 1] == h[k];
      }
    }
  }

  lemma TailStrict(h: seq<DailyTracking>)
    requires StrictlyDesc(h) && h != []
    ensures StrictlyDesc(h[1..])
    ensures forall k :: 0 <= k < |h[1..]| ==> h[1..][k].date < h[0].date
  {
    var tail := h[1..];
    forall i, j | 0 <= i < j < |tail| ensures tail[i].date > tail[j].date {
      assert tail[i] == h[i + 1] && tail[j] == h[j + 1];
    }
    forall k | 0 <= k < |tail| ensures tail[k].date < h[0].date {
      assert tail[k] == h[k + 1];
    }
  }

  /** A run of good days in the tail is one in the whole history. */
  lemma LiftRun(h: seq<DailyTracking>, lo: Day, hi: Day)
    requires h != []
    requires forall d :: lo < d <= hi ==> CheckedIn(h[1..], d)
    ensures forall d :: lo < d <= hi ==> CheckedIn(h, d)
  {
    forall d | lo < d <= hi ensures CheckedIn(h, d) {
      CheckedInCons(h, d);
    }
  }

  lemma LiftNone(h: seq<DailyTracking>, d: Day)
    requires h != []
    requires !CheckedIn(h[1..], d) && !(h[0].date == d && Good(h[0].status))
    ensures !CheckedIn(h, d)
  {
    CheckedInCons(h, d);
  }

  /**
   * On a strictly newest-first history the walk from `check` counts exactly
   * the run of consecutive good days ending on `check`: every day of the run
   * has a good check-in, the day before it has none, and the run is no longer
   * than the number of records not after `check`.
   */
  lemma {:induction false} StreakMeaning(h: seq<DailyTracking>, check: Day)
    requires StrictlyDesc(h)
    ensures var n := StreakFrom(h, check);
      && (forall d :: check - n < d <= check ==> CheckedIn(h, d))
      && !CheckedIn(h, check - n)
      && n <= CountNotAfter(h, check)
  {
    if h != [] {
      var tail := h[1..];
      TailStrict(h);
      var n := StreakFrom(h, check);
      if h[0].date > check {
        StreakMeaning(tail, check);
        LiftRun(h, check - n, check);
        LiftNone(h, check - n);
      } else if h[0].date == check && Good(h[0].status) {
        StreakMeaning(tail, check - 1);
        LiftRun(h, check - n, check - 1);
        assert CheckedIn(h, check) by { assert h[0].date == check && Good(h[0].status); }
        LiftNone(h, check - n);
        CountNotAfterMono(tail, check - 1, check);
      } else {
        LiftNone(h, check);
      }
    }
  }

  /** The streak is 0 exactly when today has no good check-in: an empty history, a missing day or a `fail`. */
  lemma StreakZeroIffNotToday(h: seq<DailyTracking>, today: Day)
    requires StrictlyDesc(h)
    ensures StreakFrom(h, today) == 0 <==> !CheckedIn(h, today)
  {
    StreakMeaning(h, today);
  }

  /** Three good days then a `fail` give a streak of 3. */
  lemma StreakExample(d: Day)
    ensures StreakFrom([DailyTracking(4, 1, "diet", d, "success"), DailyTracking(3, 1, "diet", d - 1, "success"),
                        DailyTracking(2, 1, "diet", d - 2, "partial"), DailyTracking(1, 1, "diet", d - 3, "fail")], d) == 3
  {
    var h := [DailyTracking(4, 1, "diet", d, "success"), DailyTracking(3, 1, "diet", d - 1, "success"),
              DailyTracking(2, 1, "diet", d - 2, "partial"), DailyTracking(1, 1, "diet", d - 3, "fail")];
    assert StreakFrom(h[3..], d - 3) == 0;
    assert StreakFrom(h[2..], d - 2) == 1 by { assert h[2..][1..] == h[3..]; }
    assert StreakFrom(h[1..], d - 1) == 2 by { assert h[1..][1..] == h[2..]; }
    assert h[1..] == h[0..][1..];
  }

  // ---- The handler ----

  const TrackPrefix := "track_"

  /** The callback data of a check-in button. */
  function TrackData(mode: string, status: string): (data: string)
    ensures HasPrefix(data, TrackPrefix)
  {
    TrackPrefix + mode + "_" + status
  }

  /** `_, mode, status = data.split("_")`, with `None` where Python raises. */
  function ParseTrackData(data: string): (r: Option<(string, string)>)
    ensures r.Some? ==> '_' !in r.value.0 && '_' !in r.value.1
  {
    var parts := Split(data, '_');
    if |parts| == 3 then Some((parts[1], parts[2])) else None
  }

  /** The buttons' data splits back into the mode and status it was built from. */
  lemma TrackDataRoundTrip(mode: string, status: string)
    requires '_' !in mode && '_' !in status
    ensures ParseTrackData(TrackData(mode, status)) == Some((mode, status))
  {
    SplitThreeFields("track", '_', mode, status);
    assert TrackData(mode, status) == "track" + ['_'] + mode + ['_'] + status;
  }

  /** Whether the user already checked in for this mode on `day`. */
  predicate HasCheckin(ts: seq<DailyTracking>, userId: UserId, mode: string, day: Day)
  {
    exists i :: 0 <= i < |ts| && ts[i].userId == userId && ts[i].date == day && ts[i].mode == mode
  }

  /** The reward sent at a seven-day streak. */
  function RewardText(mode: string): (t: string)
  {
    "🎉 <b>НЕДЕЛЯ ПОБЕД!</b>\nВы 7 дней подряд следуете плану ("
      + (if mode == "diet" then "питание" else "тренировки")
      + ").\n\n🎁 Ваш промокод: <code>HEALTH7DAY</code>"
  }

  /** The summary line: the streak for a good status, a reset notice otherwise. */
  function Summary(mode: string, status: string, streak: nat): (t: string)
  {
    if status == "success" then "🔥 Отлично! Серия (" + mode + "): " + IntToString(streak) + " дн."
    else if status == "partial" then "👍 Принято. Серия (" + mode + "): " + IntToString(streak) + " дн."
    else "Ничего, завтра наверстаете! Серия (" + mode + ") сброшена."
  }

  lemma SummaryShowsStreak(mode: string, status: string, streak: nat)
    ensures var t := Summary(mode, status, streak);
      && (Good(status) ==> exists p :: t == p + IntToString(streak) + " дн.")
      && (!Good(status) ==> exists p :: t == p + ") сброшена.")
  {
    var t := Summary(mode, status, streak);
    if status == "success" {
      var p := "🔥 Отлично! Серия (" + mode + "): ";
      assert t == p + IntToString(streak) + " дн.";
    } else if status == "partial" {
      var p := "👍 Принято. Серия (" + mode + "): ";
      assert t == p + IntToString(streak) + " дн.";
    } else {
      var p := "Ничего, завтра наверстаете! Серия (" + mode;
      assert t == p + ") сброшена.";
    }
  }

  /** What the user sees. */
  datatype TrackReply =
    | NotRouted                 // the data does not start with `track_`
    | Failed                    // the generic alert of the outer `except`
    | AlreadyCheckedIn
    | SaveError                 // the insert broke the user foreign key
    | Tracked(streak: nat, reward: Option<string>, edited: Option<string>)
      // `edited` is the new message text; `None` when the message had no text and the edit raised

  datatype TrackResult = TrackResult(w: World, reply: TrackReply)

  /** `process_daily_track`, with `today` the local date and `messageText` the pressed message's text. */
  function TrackEffect(w: World, userId: UserId, data: string, messageText: Option<string>, today: Day): (r: TrackResult)
  {
    if !HasPrefix(data, TrackPrefix) then TrackResult(w, NotRouted)
    else match ParseTrackData(data)
    case None => TrackResult(w, Failed)
    case Some((mode, status)) =>
      if HasCheckin(w.tracking, userId, mode, today) then TrackResult(w, AlreadyCheckedIn)
      else if GetUser(w.users, userId).None? then TrackResult(w, SaveError)
      else Record(w, userId, mode, status, messageText, today)
  }

  /** The check-in row of a new check-in. */
  function CheckinRow(w: World, userId: UserId, mode: string, status: string, today: Day): DailyTracking
  {
    NewDailyTracking(w.nextTrackingId, userId, status, today, Some(mode))
  }

  /** The insert, the streak and the reply of an accepted check-in. */
  function Record(w: World, userId: UserId, mode: string, status: string, messageText: Option<string>, today: Day): (r: TrackResult)
    ensures r.w == w.(tracking := w.tracking + [CheckinRow(w, userId, mode, status, today)], nextTrackingId := w.nextTrackingId + 1)
    ensures r.reply.Tracked?
  {
    var ts := w.tracking + [CheckinRow(w, userId, mode, status, today)];
    var streak := StreakFrom(ByDateDesc(History(ts, userId, mode)), today);
    TrackResult(w.(tracking := ts, nextTrackingId := w.nextTrackingId + 1), Tracked(streak, if streak == 7 then Some(RewardText(mode)) else None, Edited(messageText, mode, status, streak)))
  }

  /** `callback.message.text + "\n\n<b>Итог: …</b>"`; `None` when the message has no text and the concatenation raises. */
  function Edited(messageText: Option<string>, mode: string, status: string, streak: nat): (r: Option<string>)
    ensures r.Some? <==> messageText.Some?
  {
    if messageText.Some? then Some(messageText.value + "\n\n<b>Итог: " + Summary(mode, status, streak) + "</b>") else None
  }

  // ---- The walk as written: `date` is a `DateTime` column ----

  /**
   * `_calculate_streak` as the code runs it. `DailyTracking.date` is declared
   * with `DateTime` (src/database/models.py:101), so every row loaded from the
   * database carries a `datetime`, and `record.date > check_date` against the
   * `date` from `datetime.date.today()` raises `TypeError`. Only the row this
   * session has just inserted (id `freshId`) still holds the plain `date` it was
   * given, because the session does not expire it on commit. `None` is the
   * exception.
   */
  function StreakAsWritten(h: seq<DailyTracking>, check: Day, freshId: int): (r: Option<nat>)
    ensures r.Some? && h != [] ==> h[0].id == freshId
  {
    if h == [] then Some(0)
    else if h[0].id != freshId then None
    else if h[0].date > check then StreakAsWritten(h[1..], check, freshId)
    else if h[0].date == check && Good(h[0].status) then
      match StreakAsWritten(h[1..], check - 1, freshId)
      case None => None
      case Some(n) => Some(1 + n)
    else Some(0)
  }

  /**
   * The insert, the streak and the reply as written: the row is committed
   * before the walk, so when the walk raises the row stays and the outer
   * `except` answers with the generic alert.
   */
  function RecordAsWritten(w: World, userId: UserId, mode: string, status: string, messageText: Option<string>, today: Day): (r: TrackResult)
    ensures r.w == Record(w, userId, mode, status, messageText, today).w
    ensures r.reply.Failed? || r.reply.Tracked?
  {
    var row := CheckinRow(w, userId, mode, status, today);
    var ts := w.tracking + [row];
    var w' := w.(tracking := ts, nextTrackingId := w.nextTrackingId + 1);
    match StreakAsWritten(ByDateDesc(History(ts, userId, mode)), today, row.id)
    case None => TrackResult(w', Failed)
    case Some(streak) =>
      TrackResult(w', Tracked(streak, if streak == 7 then Some(RewardText(mode)) else None, Edited(messageText, mode, status, streak)))
  }

  /** A walk that starts on the fresh row, good and dated `check`, raises on the next row. */
  lemma WalkReachesLoadedRow(h: seq<DailyTracking>, check: Day, freshId: int)
    requires |h| >= 2
    requires forall i, j :: 0 <= i < j < |h| && h[i].id == freshId ==> h[j].id != freshId
    requires forall i :: 0 <= i < |h| && h[i].id == freshId ==> h[i].date == check && Good(h[i].status)
    ensures StreakAsWritten(h, check, freshId).None?
  {
    if h[0].id == freshId {
      assert h[1..][0] == h[1];
      assert StreakAsWritten(h[1..], check - 1, freshId).None?;
    }
  }

  /**
   * As written, a good check-in of a user who has any other check-in for the
   * same mode is committed and then answered with the generic error alert: the
   * walk reaches a row loaded from the database. No streak above 1 is shown
   * and the reward at 7 is never sent.
   */
  lemma CheckinAsWrittenFailsOnHistory(w: World, userId: UserId, mode: string, status: string, messageText: Option<string>, today: Day, k: nat)
    requires ValidWorld(w)
    requires !HasCheckin(w.tracking, userId, mode, today) && Good(status)
    requires k < |w.tracking| && w.tracking[k].userId == userId && w.tracking[k].mode == mode
    ensures var r := RecordAsWritten(w, userId, mode, status, messageText, today);
      && r.w == w.(tracking := w.tracking + [CheckinRow(w, userId, mode, status, today)], nextTrackingId := w.nextTrackingId + 1)
      && r.reply == Failed
  {
    WalkAsWrittenRaises(w.tracking, CheckinRow(w, userId, mode, status, today), k);
  }

  /** The history of a good first check-in with an older row of the same mode makes the walk raise. */
  lemma WalkAsWrittenRaises(ts: seq<DailyTracking>, t: DailyTracking, k: nat)
    requires UniqueCheckins(ts) && !HasCheckin(ts, t.userId, t.mode, t.date) && Good(t.status)
    requires forall i :: 0 <= i < |ts| ==> ts[i].id < t.id
    requires k < |ts| && ts[k].userId == t.userId && ts[k].mode == t.mode
    ensures StreakAsWritten(ByDateDesc(History(ts + [t], t.userId, t.mode)), t.date, t.id).None?
  {
    var ts' := ts + [t];
    var hist := History(ts', t.userId, t.mode);
    var h := ByDateDesc(hist);
    CheckinKeepsUnique(ts, t);
    SortedHistoryStrict(ts', t.userId, t.mode);
    FreshRowSorted(ts, t, k);
    FreshRowOnce(h, t);
    WalkReachesLoadedRow(h, t.date, t.id);
  }

  /** The sorted history holds the new row, another row, and no other row with the new row's id. */
  lemma FreshRowSorted(ts: seq<DailyTracking>, t: DailyTracking, k: nat)
    requires forall i :: 0 <= i < |ts| ==> ts[i].id < t.id
    requires k < |ts| && ts[k].userId == t.userId && ts[k].mode == t.mode
    ensures var h := ByDateDesc(History(ts + [t], t.userId, t.mode));
      |h| >= 2 && forall i :: 0 <= i < |h| && h[i].id == t.id ==> h[i] == t
  {
    var ts' := ts + [t];
    var hist := History(ts', t.userId, t.mode);
    HistoryMembers(ts', t.userId, t.mode);
    SortPermutes(hist);
    FreshRowTwice(ts, t, k, hist, ByDateDesc(hist));
    FreshRowOnly(ts, t, hist, ByDateDesc(hist));
  }

  lemma FreshRowTwice(ts: seq<DailyTracking>, t: DailyTracking, k: nat, hist: seq<DailyTracking>, h: seq<DailyTracking>)
    requires k < |ts| && ts[k].userId == t.userId && ts[k].mode == t.mode && ts[k].id < t.id
    requires forall x :: x in ts + [t] && x.userId == t.userId && x.mode == t.mode ==> x in hist
    requires multiset(h) == multiset(hist)
    ensures |h| >= 2
  {
    var x := ts[k];
    assert (ts + [t])[k] == x && (ts + [t])[|ts|] == t;
    assert x in hist && t in hist && x != t;
    assert multiset{t, x} <= multiset(hist);
    assert |multiset{t, x}| <= |multiset(h)|;
  }

  lemma FreshRowOnly(ts: seq<DailyTracking>, t: DailyTracking, hist: seq<DailyTracking>, h: seq<DailyTracking>)
    requires forall i :: 0 <= i < |ts| ==> ts[i].id < t.id
    requires forall x :: x in hist ==> x in ts + [t]
    requires multiset(h) == multiset(hist)
    ensures forall i :: 0 <= i < |h| && h[i].id == t.id ==> h[i] == t
  {
    forall i | 0 <= i < |h| && h[i].id == t.id ensures h[i] == t {
      assert h[i] in multiset(hist);
      assert h[i] in ts + [t];
    }
  }

  /** In a strictly newest-first history the new row appears once. */
  lemma FreshRowOnce(h: seq<DailyTracking>, t: DailyTracking)
    requires StrictlyDesc(h)
    requires forall i :: 0 <= i < |h| && h[i].id == t.id ==> h[i] == t
    ensures forall i, j :: 0 <= i < j < |h| && h[i].id == t.id ==> h[j].id != t.id
  {
  }

  /** As written, a check-in that is answered shows a streak of at most 1. */
  lemma {:induction false} StreakAsWrittenAtMostOne(h: seq<DailyTracking>, check: Day, freshId: int)
    requires forall i, j :: 0 <= i < j < |h| && h[i].id == freshId ==> h[j].id != freshId
    ensures StreakAsWritten(h, check, freshId).Some? ==> StreakAsWritten(h, check, freshId).value <= 1
  {
    if h != [] && h[0].id == freshId && |h| >= 2 {
      assert h[1..][0] == h[1];
    }
  }

  /** A repeated check-in for the same mode and day changes nothing. */
  lemma DuplicateChangesNothing(w: World, userId: UserId, mode: string, status: string, messageText: Option<string>, today: Day)
    requires '_' !in mode && '_' !in status
    requires HasCheckin(w.tracking, userId, mode, today)
    ensures TrackEffect(w, userId, TrackData(mode, status), messageText, today) == TrackResult(w, AlreadyCheckedIn)
  {
    TrackDataRoundTrip(mode, status);
  }

  /**
   * A first check-in of a known user stores exactly one row, with the mode and
   * status of the button and today's date, and nothing else; the reward comes
   * exactly at a streak of 7; the streak is positive exactly for a good status.
   */
  lemma CheckinStoresOne(w: World, userId: UserId, mode: string, status: string, messageText: Option<string>, today: Day)
    requires ValidWorld(w)
    requires '_' !in mode && '_' !in status
    requires !HasCheckin(w.tracking, userId, mode, today) && GetUser(w.users, userId).Some?
    ensures var r := TrackEffect(w, userId, TrackData(mode, status), messageText, today);
      && r.w == w.(tracking := w.tracking + [NewDailyTracking(w.nextTrackingId, userId, status, today, Some(mode))],
                   nextTrackingId := w.nextTrackingId + 1)
      && r.reply.Tracked?
      && (r.reply.reward.Some? <==> r.reply.streak == 7)
      && (r.reply.streak > 0 <==> Good(status))
  {
    TrackDataRoundTrip(mode, status);
    FirstCheckinStreak(w.tracking, CheckinRow(w, userId, mode, status, today));
  }

  /** After a first check-in for a day, the streak is positive exactly when its status is good. */
  lemma FirstCheckinStreak(ts: seq<DailyTracking>, t: DailyTracking)
    requires UniqueCheckins(ts) && !HasCheckin(ts, t.userId, t.mode, t.date)
    ensures StreakFrom(ByDateDesc(History(ts + [t], t.userId, t.mode)), t.date) > 0 <==> Good(t.status)
  {
    var ts' := ts + [t];
    CheckinKeepsUnique(ts, t);
    var hist := History(ts', t.userId, t.mode);
    var h := ByDateDesc(hist);
    HistoryMembers(ts', t.userId, t.mode);
    SortPermutes(hist);
    SortedHistoryStrict(ts', t.userId, t.mode);
    StreakZeroIffNotToday(h, t.date);
    assert t in hist by { assert ts'[|ts|] == t; }
    FreshDecidesToday(ts, t, hist, h);
  }

  /** In a history holding the fresh row, today counts exactly when the fresh row is good. */
  lemma FreshDecidesToday(ts: seq<DailyTracking>, t: DailyTracking, hist: seq<DailyTracking>, h: seq<DailyTracking>)
    requires !HasCheckin(ts, t.userId, t.mode, t.date)
    requires t in hist && multiset(h) == multiset(hist)
    requires forall x :: x in hist ==> x in ts + [t] && x.userId == t.userId && x.mode == t.mode
    ensures CheckedIn(h, t.date) <==> Good(t.status)
  {
    assert t in h by { assert t in multiset(h); }
    if Good(t.status) {
      var k :| 0 <= k < |h| && h[k] == t;
    }
    if CheckedIn(h, t.date) {
      var k :| 0 <= k < |h| && h[k].date == t.date && Good(h[k].status);
      var x := h[k];
      assert x in multiset(hist) by { assert x in multiset(h); }
    }
  }

  lemma CheckinKeepsUnique(ts: seq<DailyTracking>, t: DailyTracking)
    requires UniqueCheckins(ts) && !HasCheckin(ts, t.userId, t.mode, t.date)
    ensures UniqueCheckins(ts + [t])
  {
    var r := ts + [t];
    forall i, j | 0 <= i < j < |r| ensures (r[i].userId, r[i].mode, r[i].date) != (r[j].userId, r[j].mode, r[j].date) {
      if j == |ts| {
        assert r[i] == ts[i];
      }
    }
  }

  /** A check-in keeps the store's invariants. */
  lemma TrackKeepsValid(w: World, userId: UserId, data: string, messageText: Option<string>, today: Day)
    requires ValidWorld(w)
    ensures ValidWorld(TrackEffect(w, userId, data, messageText, today).w)
  {
    var r := TrackEffect(w, userId, data, messageText, today);
    if r.w != w {
      var (mode, status) := ParseTrackData(data).value;
      CheckinKeepsUnique(w.tracking, CheckinRow(w, userId, mode, status, today));
    }
  }

  /** `process_daily_track` on a snapshot of the store. */
  method TrackValues(w0: World, userId: UserId, data: string, messageText: Option<string>, today: Day)
    returns (w: World, reply: TrackReply)
    ensures TrackResult(w, reply) == TrackEffect(w0, userId, data, messageText, today)
  {
    w := w0;
    if !HasPrefix(data, TrackPrefix) {
      return w, NotRouted;
    }
    var parsed := ParseTrackData(data);
    if parsed.None? {
      return w, Failed;
    }
    var (mode, status) := parsed.value;
    if HasCheckin(w.tracking, userId, mode, today) {
      return w, AlreadyCheckedIn;
    }
    if GetUser(w.users, userId).None? {
      return w, SaveError;
    }
    w, reply := RecordValues(w, userId, mode, status, messageText, today);
  }

  /** The insert, the streak and the reply, on a snapshot of the store. */
  method RecordValues(w0: World, userId: UserId, mode: string, status: string, messageText: Option<string>, today: Day)
    returns (w: World, reply: TrackReply)
    ensures TrackResult(w, reply) == Record(w0, userId, mode, status, messageText, today)
  {
    var ts := w0.tracking + [CheckinRow(w0, userId, mode, status, today)];
    var streak := CalculateStreak(ByDateDesc(History(ts, userId, mode)), today);
    w := w0.(tracking := ts, nextTrackingId := w0.nextTrackingId + 1);
    var reward: Option<string> := None;
    if streak == 7 {
      reward := Some(RewardText(mode));
    }
    reply := Tracked(streak, reward, Edited(messageText, mode, status, streak));
  }

  /** `process_daily_track`. */
  method ProcessDailyTrack(b: Backend, userId: UserId, data: string, messageText: Option<string>, today: Day)
    returns (reply: TrackReply)
    requires b.Valid()
    modifies b
    ensures b.Valid()
    ensures TrackResult(b.State(), reply) == TrackEffect(old(b.State()), userId, data, messageText, today)
  {
    var w;
    w, reply := TrackValues(b.State(), userId, data, messageText, today);
    TrackKeepsValid(b.State(), userId, data, messageText, today);
    b.SetState(w);
  }
}
