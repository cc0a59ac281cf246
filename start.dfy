/**
 * `/start` (src/bot/main.py:34-121): register the user on first contact,
 * then either redeem the QR code passed as the command argument or show the
 * menu or the welcome text.
 */
module Start {
  import opened Wrappers
  import opened Models
  import opened Keyboards
  import opened Store

  /** Five days, the extension one activated code grants. */
  const ActivationBonus: int := 5 * SecondsPerDay

  /** The activation count at which the achievement message is sent. */
  const AchievementActivations: int := 3

  /**
   * The extended expiry: five days past the old expiry while it is still in
   * the future, five days past now otherwise.
   */
  function NewExpiry(expiresAt: Option<Seconds>, now: Seconds): (r: Seconds)
    ensures expiresAt.Some? ==> r >= expiresAt.value + ActivationBonus
    ensures r >= now + ActivationBonus
    ensures r == (if expiresAt.Some? && expiresAt.value > now then expiresAt.value else now) + ActivationBonus
  {
    if expiresAt.Some? && expiresAt.value > now then expiresAt.value + ActivationBonus
    else now + ActivationBonus
  }

  /** An extension never shortens a subscription: the new expiry is after the old one and after now. */
  lemma NewExpiryNeverShortens(expiresAt: Option<Seconds>, now: Seconds)
    ensures expiresAt.Some? ==> NewExpiry(expiresAt, now) > expiresAt.value
    ensures NewExpiry(expiresAt, now) > now
  {
  }

  /** The user's row after a redemption: one more activation and an extended subscription. */
  function Redeemed(u: User, now: Seconds): (r: User)
    ensures r.qrActivationsCount == u.qrActivationsCount + 1
    ensures r.subscriptionExpiresAt == Some(NewExpiry(u.subscriptionExpiresAt, now))
    ensures r.userId == u.userId
    ensures r == u.(qrActivationsCount := r.qrActivationsCount, subscriptionExpiresAt := r.subscriptionExpiresAt)
  {
    u.(qrActivationsCount := u.qrActivationsCount + 1,
       subscriptionExpiresAt := Some(NewExpiry(u.subscriptionExpiresAt, now)))
  }

  /** The users table after the registration step: unchanged if the id is known, one new default row otherwise. */
  function Registered(users: seq<User>, userId: UserId, username: Option<string>, fullName: Option<string>): (r: seq<User>)
    ensures FindUser(users, userId).Some? ==> r == users
    ensures FindUser(users, userId).None? ==> r == users + [NewUser(userId, username, fullName)]
    ensures FindUser(r, userId).Some?
  {
    if FindUser(users, userId).Some? then users
    else
      var r := users + [NewUser(userId, username, fullName)];
      assert r[|r| - 1].userId == userId;
      r
  }

  lemma RegisteredKeepsIds(users: seq<User>, userId: UserId, username: Option<string>, fullName: Option<string>)
    requires UniqueUserIds(users)
    ensures UniqueUserIds(Registered(users, userId, username, fullName))
  {
  }

  /** A plain `/start` shows the menu exactly while the subscription runs strictly past now. */
  predicate SubscriptionActive(u: User, now: Seconds)
  {
    u.subscriptionExpiresAt.Some? && u.subscriptionExpiresAt.value > now
  }

  datatype StartReply =
    | InvalidCode                       // "❌ Неверный QR-код."
    | CodeDeactivated                   // "❌ Этот код деактивирован администратором."
    | AlreadyYours(menu: ReplyKeyboard) // "ℹ️ Вы уже активировали этот код ранее." and the menu
    | UsedByOther(menu: ReplyKeyboard)  // "❌ Этот код уже использован другим пользователем." and the menu
    | Activated(expiresAt: Seconds, menu: ReplyKeyboard, achievement: bool)
    | MainMenuShown(menu: ReplyKeyboard)
    | Welcome

  /** What `/start` leaves in the two tables it touches, and what it answers. */
  datatype StartResult = StartResult(users: seq<User>, qrCodes: map<string, QRCode>, reply: StartReply)

  /**
   * The effect of `start_handler`, step by step as the handler takes them.
   * `code` is the command argument (`None` or empty for a plain `/start`).
   */
  function StartEffect(users: seq<User>, qrCodes: map<string, QRCode>, userId: UserId,
                       username: Option<string>, fullName: Option<string>,
                       code: Option<string>, now: Seconds): (r: StartResult)
  {
    var reg := Registered(users, userId, username, fullName);
    var i := FindUser(reg, userId).value;
    var u := reg[i];
    if !Truthy(code) then
      StartResult(reg, qrCodes, if SubscriptionActive(u, now) then MainMenuShown(MainMenu(u.qrActivationsCount)) else Welcome)
    else if code.value !in qrCodes then StartResult(reg, qrCodes, InvalidCode)
    else
      var q := qrCodes[code.value];
      if !q.isActive then StartResult(reg, qrCodes, CodeDeactivated)
      else if q.activatedAt.Some? then
        StartResult(reg, qrCodes,
          if q.activatedById == Some(userId) then AlreadyYours(MainMenu(u.qrActivationsCount))
          else UsedByOther(MainMenu(u.qrActivationsCount)))
      else
        var u' := Redeemed(u, now);
        StartResult(reg[i := u'], qrCodes[code.value := q.(activatedAt := Some(now), activatedById := Some(userId))],
          Activated(u'.subscriptionExpiresAt.value, MainMenu(u'.qrActivationsCount), u'.qrActivationsCount == AchievementActivations))
  }

  /** The users table after `/start` is the registered one, with at most the caller's row redeemed; only a redemption changes it. */
  lemma StartEffectUsers(users: seq<User>, qrCodes: map<string, QRCode>, userId: UserId,
                         username: Option<string>, fullName: Option<string>, code: Option<string>, now: Seconds)
    ensures var reg := Registered(users, userId, username, fullName);
      var i := FindUser(reg, userId).value;
      var r := StartEffect(users, qrCodes, userId, username, fullName, code, now);
      && (r.users == reg || r.users == reg[i := Redeemed(reg[i], now)])
      && (r.users != reg ==> r.reply.Activated?)
  {
  }

  /** The codes table after `/start` is unchanged, or has the argument's code stamped with the time and the caller. */
  lemma StartEffectCodes(users: seq<User>, qrCodes: map<string, QRCode>, userId: UserId,
                         username: Option<string>, fullName: Option<string>, code: Option<string>, now: Seconds)
    ensures var r := StartEffect(users, qrCodes, userId, username, fullName, code, now);
      || r.qrCodes == qrCodes
      || (&& Truthy(code) && code.value in qrCodes
          && r.qrCodes == qrCodes[code.value := qrCodes[code.value].(activatedAt := Some(now), activatedById := Some(userId))])
  {
  }

  /** An unknown user is registered exactly once, with default columns; a known user's row stays where it is. */
  lemma StartRegistersOnce(users: seq<User>, qrCodes: map<string, QRCode>, userId: UserId,
                           username: Option<string>, fullName: Option<string>, code: Option<string>, now: Seconds)
    ensures var r := StartEffect(users, qrCodes, userId, username, fullName, code, now);
      && FindUser(r.users, userId).Some?
      && |r.users| == |users| + (if FindUser(users, userId).Some? then 0 else 1)
      && (forall j :: 0 <= j < |users| && users[j].userId != userId ==> r.users[j] == users[j])
      && (FindUser(users, userId).None? && !r.reply.Activated? ==> r.users[|users|] == NewUser(userId, username, fullName))
  {
    var reg := Registered(users, userId, username, fullName);
    var i := FindUser(reg, userId).value;
    var r := StartEffect(users, qrCodes, userId, username, fullName, code, now);
    StartEffectUsers(users, qrCodes, userId, username, fullName, code, now);
    if r.users != reg {
      FindUserUpdated(reg, i, Redeemed(reg[i], now));
    }
  }

  /**
   * An unknown code, an inactive code and an already-activated code change no
   * record beyond the registration; the reply tells an own earlier
   * activation from someone else's.
   */
  lemma StartRejectedCodeChangesNothing(users: seq<User>, qrCodes: map<string, QRCode>, userId: UserId,
                                        username: Option<string>, fullName: Option<string>, code: Option<string>, now: Seconds)
    requires Truthy(code)
    requires code.value !in qrCodes || !qrCodes[code.value].isActive || qrCodes[code.value].activatedAt.Some?
    ensures var r := StartEffect(users, qrCodes, userId, username, fullName, code, now);
      && r.users == Registered(users, userId, username, fullName)
      && r.qrCodes == qrCodes
      && (code.value !in qrCodes ==> r.reply == InvalidCode)
      && (code.value in qrCodes && !qrCodes[code.value].isActive ==> r.reply == CodeDeactivated)
      && (code.value in qrCodes && qrCodes[code.value].isActive && qrCodes[code.value].activatedAt.Some? ==>
            (r.reply.AlreadyYours? <==> qrCodes[code.value].activatedById == Some(userId)) && (r.reply.AlreadyYours? || r.reply.UsedByOther?))
  {
  }

  /**
   * Redeeming a fresh active code stamps it with the time and the user, adds
   * exactly one activation, extends the subscription to `max(old, now)` plus
   * five days, and sends the achievement exactly when the count reaches 3.
   */
  lemma StartActivation(users: seq<User>, qrCodes: map<string, QRCode>, userId: UserId,
                        username: Option<string>, fullName: Option<string>, code: Option<string>, now: Seconds)
    requires Truthy(code) && code.value in qrCodes
    requires qrCodes[code.value].isActive && qrCodes[code.value].activatedAt.None?
    ensures var r := StartEffect(users, qrCodes, userId, username, fullName, code, now);
      var reg := Registered(users, userId, username, fullName);
      var i := FindUser(reg, userId).value;
      && r.reply.Activated?
      && r.qrCodes == qrCodes[code.value := qrCodes[code.value].(activatedAt := Some(now), activatedById := Some(userId))]
      && |r.users| == |reg|
      && GetUser(r.users, userId) == Some(r.users[i])
      && r.users[i].qrActivationsCount == reg[i].qrActivationsCount + 1
      && r.users[i].subscriptionExpiresAt == Some(NewExpiry(reg[i].subscriptionExpiresAt, now))
      && r.reply.expiresAt == r.users[i].subscriptionExpiresAt.value
      && (r.reply.achievement <==> r.users[i].qrActivationsCount == 3)
      && (forall j :: 0 <= j < |reg| && j != i ==> r.users[j] == reg[j])
  {
    var reg := Registered(users, userId, username, fullName);
    var i := FindUser(reg, userId).value;
    var r := StartEffect(users, qrCodes, userId, username, fullName, code, now);
    assert r.users == reg[i := Redeemed(reg[i], now)];
    FindUserUpdated(reg, i, Redeemed(reg[i], now));
  }

  /** With no code, the menu is shown exactly while the subscription runs past now. */
  lemma StartPlain(users: seq<User>, qrCodes: map<string, QRCode>, userId: UserId,
                   username: Option<string>, fullName: Option<string>, code: Option<string>, now: Seconds)
    requires !Truthy(code)
    ensures var r := StartEffect(users, qrCodes, userId, username, fullName, code, now);
      var u := GetUser(r.users, userId).value;
      && r.users == Registered(users, userId, username, fullName)
      && r.qrCodes == qrCodes
      && (r.reply.MainMenuShown? <==> SubscriptionActive(u, now))
      && (!r.reply.MainMenuShown? ==> r.reply == Welcome)
  {
  }

  lemma RegisteredIndex(users: seq<User>, userId: UserId, username: Option<string>, fullName: Option<string>)
    ensures var reg := Registered(users, userId, username, fullName);
      GetUser(reg, userId) == Some(reg[FindUser(reg, userId).value])
  {
  }

  /** Overwriting the row a lookup found, keeping its id, is what the next lookup finds. */
  lemma FindUserUpdated(users: seq<User>, i: nat, u: User)
    requires FindUser(users, u.userId) == Some(i)
    ensures FindUser(users[i := u], u.userId) == Some(i)
    ensures GetUser(users[i := u], u.userId) == Some(u)
  {
    if users != [] && users[|users| - 1].userId != u.userId {
      assert users[i := u][..|users| - 1] == users[..|users| - 1][i := u];
      FindUserUpdated(users[..|users| - 1], i, u);
    }
  }

  /**
   * The work `start_handler` does inside its database session, on the rows it
   * loaded: the tables the session would commit, and the reply.
   */
  method StartSession(users0: seq<User>, qrCodes0: map<string, QRCode>, userId: UserId,
                      username: Option<string>, fullName: Option<string>, code: Option<string>, now: Seconds)
    returns (users: seq<User>, qrCodes: map<string, QRCode>, reply: StartReply)
    ensures StartResult(users, qrCodes, reply) == StartEffect(users0, qrCodes0, userId, username, fullName, code, now)
  {
    // 1. Find or create the user.
    users := Registered(users0, userId, username, fullName);
    qrCodes := qrCodes0;
    var i := FindUser(users, userId).value;
    var user := users[i];

    if Truthy(code) {
      // 2. Redeem a code.
      var h := code.value;
      if h !in qrCodes {
        reply := InvalidCode;
      } else if !qrCodes[h].isActive {
        reply := CodeDeactivated;
      } else if qrCodes[h].activatedAt.Some? {
        if qrCodes[h].activatedById == Some(userId) {
          reply := AlreadyYours(MainMenu(user.qrActivationsCount));
        } else {
          reply := UsedByOther(MainMenu(user.qrActivationsCount));
        }
      } else {
        qrCodes := qrCodes[h := qrCodes[h].(activatedAt := Some(now), activatedById := Some(userId))];
        user := user.(qrActivationsCount := user.qrActivationsCount + 1);
        if user.subscriptionExpiresAt.Some? && user.subscriptionExpiresAt.value > now {
          user := user.(subscriptionExpiresAt := Some(user.subscriptionExpiresAt.value + ActivationBonus));
        } else {
          user := user.(subscriptionExpiresAt := Some(now + ActivationBonus));
        }
        assert user == Redeemed(users[i], now);
        users := users[i := user];
        reply := Activated(user.subscriptionExpiresAt.value, MainMenu(user.qrActivationsCount),
                           user.qrActivationsCount == AchievementActivations);
      }
    } else if SubscriptionActive(user, now) {
      // 3. A plain /start.
      reply := MainMenuShown(MainMenu(user.qrActivationsCount));
    } else {
      reply := Welcome;
    }
  }

  /** `start_handler`, with `now` the current time: the session's work, then its commit. */
  method StartHandler(b: Backend, userId: UserId, username: Option<string>, fullName: Option<string>,
                      code: Option<string>, now: Seconds)
    returns (reply: StartReply)
    requires b.Valid()
    modifies b
    ensures b.Valid()
    ensures var r := StartEffect(old(b.users), old(b.qrCodes), userId, username, fullName, code, now);
      b.users == r.users && b.qrCodes == r.qrCodes && reply == r.reply
    ensures b.surveys == old(b.surveys) && b.matches == old(b.matches) && b.tracking == old(b.tracking)
    ensures b.redis == old(b.redis) && b.surveyConfigs == old(b.surveyConfigs)
    ensures b.aiQueue == old(b.aiQueue) && b.notifications == old(b.notifications)
    ensures b.conversations == old(b.conversations)
    ensures b.nextSurveyId == old(b.nextSurveyId) && b.nextMatchId == old(b.nextMatchId) && b.nextTrackingId == old(b.nextTrackingId)
  {
    var users, qrCodes;
    users, qrCodes, reply := StartSession(b.users, b.qrCodes, userId, username, fullName, code, now);
    StartEffectValid(b.users, b.qrCodes, b.surveys, b.matches, b.tracking, b.nextSurveyId, b.nextMatchId, b.nextTrackingId,
                     userId, username, fullName, code, now);
    b.users, b.qrCodes := users, qrCodes;
  }

  /** `/start` keeps the store's keys unique and every code under its own hash. */
  lemma StartEffectValid(users: seq<User>, qrCodes: map<string, QRCode>, surveys: seq<UserSurvey>,
                         matches: seq<DatingMatch>, tracking: seq<DailyTracking>, ns: int, nm: int, nt: int,
                         userId: UserId, username: Option<string>, fullName: Option<string>, code: Option<string>, now: Seconds)
    requires ValidTables(users, qrCodes, surveys, matches, tracking, ns, nm, nt)
    ensures var r := StartEffect(users, qrCodes, userId, username, fullName, code, now);
      ValidTables(r.users, r.qrCodes, surveys, matches, tracking, ns, nm, nt)
  {
    var r := StartEffect(users, qrCodes, userId, username, fullName, code, now);
    StartEffectUsers(users, qrCodes, userId, username, fullName, code, now);
    StartEffectCodes(users, qrCodes, userId, username, fullName, code, now);
    assert UniqueUserIds(r.users) by {
      var reg := Registered(users, userId, username, fullName);
      RegisteredKeepsIds(users, userId, username, fullName);
      var i := FindUser(reg, userId).value;
      if r.users != reg {
        UpdateKeepsUserIds(reg, i, Redeemed(reg[i], now));
      }
    }
    assert QrKeyed(r.qrCodes);
  }
}
