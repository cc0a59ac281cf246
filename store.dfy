/**
 * Everything the bot, the workers and the scheduler share: the database tables,
 * the Redis key space, the two queues and aiogram's FSM storage, as the fields
 * of one object that the handlers update in place.
 */
module Store {
  import opened Wrappers
  import opened Answers
  import opened Models
  import opened Queues

  /** A Redis string value and the expiry (in seconds) it was set with, if any. */
  datatype RedisEntry = RedisEntry(value: string, ttl: Option<int>)

  /** `SurveyState`: the two states of the questionnaire. */
  datatype SurveyState = InProgress | FinalConsent

  /**
   * One user's FSM context while a questionnaire runs: the state name and the
   * data keys `survey_mode`, `current_step` and `answers`. A cleared context
   * is an absent entry.
   */
  datatype Conversation = Conversation(state: SurveyState, mode: string, step: nat, answers: Answers)

  class Backend {
    // Database tables.
    var users: seq<User>
    var qrCodes: map<string, QRCode>
    var surveys: seq<UserSurvey>
    var matches: seq<DatingMatch>
    var tracking: seq<DailyTracking>
    // The next value of each autoincrement id.
    var nextSurveyId: int
    var nextMatchId: int
    var nextTrackingId: int
    // Redis: plain string keys, and the decoded `survey_config:{mode}` lists
    // (a mode without a readable list is absent).
    var redis: map<string, RedisEntry>
    var surveyConfigs: map<string, seq<Question>>
    // `q_ai_generation` and `q_notifications`, oldest first.
    var aiQueue: seq<GenerationTask>
    var notifications: seq<Notification>
    // aiogram's FSM storage, per user.
    var conversations: map<UserId, Conversation>

    /** `ValidTables` of the current state. */
    ghost predicate Valid()
      reads this
    {
      ValidWorld(State())
    }

    /** The whole state as one value. */
    function State(): (w: World)
      reads this
    {
      World(users, qrCodes, surveys, matches, tracking, nextSurveyId, nextMatchId, nextTrackingId,
            redis, surveyConfigs, aiQueue, notifications, conversations)
    }

    /** Write a whole snapshot back, field for field. */
    method SetState(w: World)
      modifies this
      ensures State() == w
    {
      SetTables(w);
      SetQueues(w);
    }

    /** Write back the tables and the id counters of a snapshot. */
    method SetTables(w: World)
      modifies this`users, this`qrCodes, this`surveys, this`matches, this`tracking
      modifies this`nextSurveyId, this`nextMatchId, this`nextTrackingId
      ensures users == w.users && qrCodes == w.qrCodes && surveys == w.surveys && matches == w.matches
      ensures tracking == w.tracking && nextSurveyId == w.nextSurveyId && nextMatchId == w.nextMatchId
      ensures nextTrackingId == w.nextTrackingId
    {
      users, qrCodes, surveys, matches, tracking := w.users, w.qrCodes, w.surveys, w.matches, w.tracking;
      nextSurveyId, nextMatchId, nextTrackingId := w.nextSurveyId, w.nextMatchId, w.nextTrackingId;
    }

    /** Write back the Redis keys, the queues and the FSM storage of a snapshot. */
    method SetQueues(w: World)
      modifies this`redis, this`surveyConfigs, this`aiQueue, this`notifications, this`conversations
      ensures redis == w.redis && surveyConfigs == w.surveyConfigs && aiQueue == w.aiQueue
      ensures notifications == w.notifications && conversations == w.conversations
    {
      redis, surveyConfigs, aiQueue, notifications := w.redis, w.surveyConfigs, w.aiQueue, w.notifications;
      conversations := w.conversations;
    }

    constructor()
      ensures Valid()
      ensures users == [] && qrCodes == map[] && surveys == [] && matches == [] && tracking == []
      ensures redis == map[] && surveyConfigs == map[] && aiQueue == [] && notifications == []
      ensures conversations == map[]
    {
      users, qrCodes, surveys, matches, tracking := [], map[], [], [], [];
      nextSurveyId, nextMatchId, nextTrackingId := 1, 1, 1;
      redis, surveyConfigs, aiQueue, notifications := map[], map[], [], [];
      conversations := map[];
    }
  }

  /** A snapshot of `Backend`, field for field. */
  datatype World = World(
    users: seq<User>,
    qrCodes: map<string, QRCode>,
    surveys: seq<UserSurvey>,
    matches: seq<DatingMatch>,
    tracking: seq<DailyTracking>,
    nextSurveyId: int,
    nextMatchId: int,
    nextTrackingId: int,
    redis: map<string, RedisEntry>,
    surveyConfigs: map<string, seq<Question>>,
    aiQueue: seq<GenerationTask>,
    notifications: seq<Notification>,
    conversations: map<UserId, Conversation>)

  predicate ValidWorld(w: World)
  {
    ValidTables(w.users, w.qrCodes, w.surveys, w.matches, w.tracking, w.nextSurveyId, w.nextMatchId, w.nextTrackingId)
  }

  /**
   * The invariants the handlers keep: primary keys are unique, a QR code is
   * stored under its own hash, the check-then-insert handlers leave at most one
   * vote per ordered pair and one check-in per (user, mode, day), and every id
   * handed out is below the next one.
   */
  predicate ValidTables(users: seq<User>, qrCodes: map<string, QRCode>, surveys: seq<UserSurvey>,
                        matches: seq<DatingMatch>, tracking: seq<DailyTracking>,
                        nextSurveyId: int, nextMatchId: int, nextTrackingId: int)
  {
    && UniqueUserIds(users)
    && QrKeyed(qrCodes)
    && UniqueVotes(matches)
    && UniqueCheckins(tracking)
    && SurveyIdsBelow(surveys, nextSurveyId)
    && MatchIdsBelow(matches, nextMatchId)
    && TrackingIdsBelow(tracking, nextTrackingId)
  }

  /** Every code is stored under its own hash. */
  predicate QrKeyed(qrCodes: map<string, QRCode>)
  {
    forall h :: h in qrCodes ==> qrCodes[h].codeHash == h
  }

  predicate SurveyIdsBelow(surveys: seq<UserSurvey>, next: int)
  {
    forall i :: 0 <= i < |surveys| ==> surveys[i].id < next
  }

  predicate MatchIdsBelow(matches: seq<DatingMatch>, next: int)
  {
    forall i :: 0 <= i < |matches| ==> matches[i].id < next
  }

  predicate TrackingIdsBelow(tracking: seq<DailyTracking>, next: int)
  {
    forall i :: 0 <= i < |tracking| ==> tracking[i].id < next
  }

  /** `redis.get(key)`: the value, or `None` for a missing key. */
  function RedisGet(redis: map<string, RedisEntry>, key: string): (r: Option<string>)
    ensures r.Some? <==> key in redis
  {
    if key in redis then Some(redis[key].value) else None
  }

  /** Python truthiness of an optional string: present and not empty. */
  predicate Truthy(s: Option<string>)
  {
    s.Some? && s.value != []
  }

  /** Replace the row at `i` by `u`: the table keeps its keys. */
  lemma UpdateKeepsUserIds(users: seq<User>, i: nat, u: User)
    requires UniqueUserIds(users) && i < |users| && u.userId == users[i].userId
    ensures UniqueUserIds(users[i := u])
  {
  }
}
