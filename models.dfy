/**
 * The database records (src/database/models.py) with their column defaults.
 * Autoincrement ids are kept where a caller reads them; `created_at` server
 * defaults are not modelled. Times are whole seconds, tracking dates whole days.
 */
module Models {
  import opened Wrappers
  import opened Answers

  type UserId = int

  /** A point in time, in seconds (UTC). */
  type Seconds = int

  /** A calendar day, as a day number. */
  type Day = int

  const SecondsPerDay: int := 86400

  /**
   * `User`. The last two fields are read and written by the survey handlers but
   * are not declared in models.py; they are assumed columns here, with the
   * defaults a new row would need (no credits, no consent).
   */
  datatype User = User(
    userId: UserId,
    username: Option<string>,
    fullName: Option<string>,
    role: string,
    subscriptionExpiresAt: Option<Seconds>,
    qrActivationsCount: int,
    isDietTracking: bool,
    isTrainerTracking: bool,
    natalChartCredits: int,
    hasAcceptedPolicy: bool)

  /** `User(user_id=…, username=…, full_name=…)` with every other column at its default. */
  function NewUser(userId: UserId, username: Option<string>, fullName: Option<string>): (u: User)
    ensures u.userId == userId && u.username == username && u.fullName == fullName
    ensures u.role == "user"
    ensures u.subscriptionExpiresAt.None?
    ensures u.qrActivationsCount == 0
    ensures !u.isDietTracking && !u.isTrainerTracking
    ensures u.natalChartCredits == 0 && !u.hasAcceptedPolicy
  {
    User(userId, username, fullName, "user", None, 0, false, false, 0, false)
  }

  /** `QRCode`, keyed by its `code_hash`. */
  datatype QRCode = QRCode(
    codeHash: string,
    batchId: string,
    isActive: bool,
    activatedAt: Option<Seconds>,
    activatedById: Option<UserId>)

  /** A freshly generated code: active and not yet activated by anyone. */
  function NewQRCode(codeHash: string, batchId: string): (q: QRCode)
    ensures q.codeHash == codeHash && q.batchId == batchId
    ensures q.isActive
    ensures q.activatedAt.None? && q.activatedById.None?
  {
    QRCode(codeHash, batchId, true, None, None)
  }

  /** `UserSurvey`: one completed questionnaire. */
  datatype UserSurvey = UserSurvey(
    id: int,
    userId: UserId,
    mode: string,
    surveyConfigId: int,
    answers: Answers,
    aiRecommendation: Option<string>)

  function NewUserSurvey(id: int, userId: UserId, mode: string, configId: int, answers: Answers): (s: UserSurvey)
    ensures s.id == id && s.userId == userId && s.mode == mode
    ensures s.surveyConfigId == configId && s.answers == answers
    ensures s.aiRecommendation.None?
  {
    UserSurvey(id, userId, mode, configId, answers, None)
  }

  /** `DatingMatch`: one vote of `userId` on `targetUserId`. */
  datatype DatingMatch = DatingMatch(
    id: int,
    userId: UserId,
    targetUserId: UserId,
    action: string,
    isMatch: bool)

  function NewDatingMatch(id: int, userId: UserId, targetUserId: UserId, action: string): (m: DatingMatch)
    ensures m.id == id && m.userId == userId && m.targetUserId == targetUserId && m.action == action
    ensures !m.isMatch
  {
    DatingMatch(id, userId, targetUserId, action, false)
  }

  /** `DailyTracking`: one check-in. */
  datatype DailyTracking = DailyTracking(
    id: int,
    userId: UserId,
    mode: string,
    date: Day,
    status: string)

  /** The `mode` column's default. */
  const DefaultTrackingMode: string := "diet"

  function NewDailyTracking(id: int, userId: UserId, status: string, date: Day, mode: Option<string>): (t: DailyTracking)
    ensures t.id == id && t.userId == userId && t.status == status && t.date == date
    ensures t.mode == mode.GetOr(DefaultTrackingMode)
    ensures mode.None? ==> t.mode == "diet"
  {
    DailyTracking(id, userId, mode.GetOr(DefaultTrackingMode), date, status)
  }

  /**
   * One question of a survey configuration, as src/services/sheets.py builds
   * it and the survey handlers read it back from the `survey_config:{mode}` key.
   */
  datatype Question = Question(key: string, qtype: string, text: string, options: seq<string>)

  /**
   * The tables declare no unique constraint on DatingMatch (user, target) or on
   * DailyTracking (user, mode, date): these predicates are what the handlers'
   * check-then-insert steps maintain, not what the database enforces.
   */
  predicate UniqueVotes(ms: seq<DatingMatch>)
  {
    forall i, j :: 0 <= i < j < |ms| ==> (ms[i].userId, ms[i].targetUserId) != (ms[j].userId, ms[j].targetUserId)
  }

  predicate UniqueCheckins(ts: seq<DailyTracking>)
  {
    forall i, j :: 0 <= i < j < |ts| ==> (ts[i].userId, ts[i].mode, ts[i].date) != (ts[j].userId, ts[j].mode, ts[j].date)
  }

  /** `session.get(User, id)`: the row with that primary key, if any. */
  function FindUser(users: seq<User>, id: UserId): (r: Option<nat>)
    ensures r.Some? ==> r.value < |users| && users[r.value].userId == id
    ensures r.None? ==> forall i :: 0 <= i < |users| ==> users[i].userId != id
  {
    if users == [] then None
    else if users[|users| - 1].userId == id then Some(|users| - 1)
    else FindUser(users[..|users| - 1], id)
  }

  /** Primary keys are unique. */
  predicate UniqueUserIds(users: seq<User>)
  {
    forall i, j :: 0 <= i < j < |users| ==> users[i].userId != users[j].userId
  }

  function GetUser(users: seq<User>, id: UserId): (r: Option<User>)
    ensures r.Some? <==> exists i :: 0 <= i < |users| && users[i].userId == id
    ensures r.Some? ==> r.value in users && r.value.userId == id
  {
    match FindUser(users, id)
    case Some(i) => Some(users[i])
    case None => None
  }
}
