/**
 * Votes on dating profiles (src/bot/handlers/dating.py): one vote per ordered
 * pair, and a match when a like meets an earlier like in the other direction.
 */
module Dating {
  import opened Wrappers
  import opened Strings
  import opened Models
  import opened Keyboards
  import opened Queues
  import opened Store

  /** Whether `userId` already voted on `target`. */
  predicate HasVote(ms: seq<DatingMatch>, userId: UserId, target: UserId)
  {
    exists i :: 0 <= i < |ms| && ms[i].userId == userId && ms[i].targetUserId == target
  }

  /** The row of a like from `userId` to `target`, if any (the last one; with one vote per pair there is at most one). */
  function FindLike(ms: seq<DatingMatch>, userId: UserId, target: UserId): (r: Option<nat>)
    ensures r.Some? ==> r.value < |ms| && ms[r.value].userId == userId && ms[r.value].targetUserId == target
                        && ms[r.value].action == "like"
    ensures r.None? ==> forall i :: (0 <= i < |ms| && ms[i].userId == userId && ms[i].targetUserId == target)
                                    ==> ms[i].action != "like"
  {
    if ms == [] then None
    else
      var last := ms[|ms| - 1];
      if last.userId == userId && last.targetUserId == target && last.action == "like" then Some(|ms| - 1)
      else FindLike(ms[..|ms| - 1], userId, target)
  }

  /**
   * `_create_interaction_record`: refuses a second vote on the same ordered
   * pair, otherwise adds exactly one row with the given action.
   */
  function CreateInteractionRecord(w: World, userId: UserId, target: UserId, action: string): (r: (World, bool))
    ensures r.1 <==> !HasVote(w.matches, userId, target)
    ensures !r.1 ==> r.0 == w
    ensures r.1 ==> r.0 == w.(matches := w.matches + [NewDatingMatch(w.nextMatchId, userId, target, action)],
                              nextMatchId := w.nextMatchId + 1)
  {
    if HasVote(w.matches, userId, target) then (w, false)
    else (w.(matches := w.matches + [NewDatingMatch(w.nextMatchId, userId, target, action)],
             nextMatchId := w.nextMatchId + 1), true)
  }

  /** `_get_user_mention`: `@username` when there is one, else the full name (`None` prints as `None`). */
  function Mention(u: User): (s: string)
    ensures u.username.Some? && u.username.value != [] ==> s == "@" + u.username.value
    ensures (u.username.None? || u.username.value == []) && u.fullName.Some? ==> s == u.fullName.value
  {
    if u.username.Some? && u.username.value != [] then "@" + u.username.value
    else if u.fullName.Some? then u.fullName.value
    else "None"
  }

  /** The match message the liker sees, with the target's contact button. */
  function MatchMessage(target: User): (string, InlineKeyboard)
  {
    ("🎉 <b>IT'S A MATCH!</b>\nВам ответил(а) взаимностью " + Mention(target) + "!", ContactKeyboard(target.username))
  }

  /** The queued notice to the target, with the liker's contact button. */
  function MatchNotification(target: UserId, me: User): (n: Notification)
    ensures n.userId == target && n.photo.None? && n.keyboard == Some(ContactKeyboard(me.username))
  {
    Notification(target, "🎉 <b>У вас новое совпадение!</b>\nПользователь " + Mention(me) + " ответил взаимностью!",
                 None, Some(ContactKeyboard(me.username)))
  }

  datatype DatingReply =
    | NotRouted
    | Raised                              // the handler raises; the session is rolled back
    | SelfLike
    | AlreadyVoted
    | Liked(matchMessage: Option<(string, InlineKeyboard)>)
    | Disliked

  datatype DatingResult = DatingResult(w: World, reply: DatingReply)

  const LikePrefix := "like_"
  const DislikePrefix := "dislike_"

  /** The two rows of a match: the earlier like at `j` and the new like, both flagged. */
  function Matched(ms: seq<DatingMatch>, j: nat, rec: DatingMatch): seq<DatingMatch>
    requires j < |ms|
  {
    ms[j := ms[j].(isMatch := true)] + [rec.(isMatch := true)]
  }

  /**
   * `process_like` with line 64 dropped: the like is stored and, when the
   * target liked back, both rows are flagged and the target is notified.
   * An unknown liker breaks the foreign key at the autoflush before the
   * mutual query, so the handler raises.
   */
  function LikeEffect(w: World, userId: UserId, data: string): (r: DatingResult)
  {
    if !HasPrefix(data, LikePrefix) then DatingResult(w, NotRouted)
    else match CallbackTarget(data)
    case None => DatingResult(w, Raised)
    case Some(target) =>
      if target == userId then DatingResult(w, SelfLike)
      else if HasVote(w.matches, userId, target) then DatingResult(w, AlreadyVoted)
      else match GetUser(w.users, userId)
      case None => DatingResult(w, Raised)
      case Some(me) => AcceptLike(w, me, target)
  }

  /** The vote table after a first like: the new row, and both rows flagged when it answers a like. */
  function LikeRows(ms: seq<DatingMatch>, next: int, userId: UserId, target: UserId): seq<DatingMatch>
  {
    var rec := NewDatingMatch(next, userId, target, "like");
    match FindLike(ms, target, userId)
    case None => ms + [rec]
    case Some(j) => Matched(ms, j, rec)
  }

  /** A stored first like of the known user `me`, and the match it may complete. */
  function AcceptLike(w: World, me: User, target: UserId): (r: DatingResult)
  {
    var notify := FindLike(w.matches, target, me.userId).Some? && GetUser(w.users, target).Some?;
    DatingResult(
      w.(matches := LikeRows(w.matches, w.nextMatchId, me.userId, target),
         nextMatchId := w.nextMatchId + 1,
         notifications := if notify then w.notifications + [MatchNotification(target, me)] else w.notifications),
      Liked(if notify then Some(MatchMessage(GetUser(w.users, target).value)) else None))
  }

  /**
   * `process_like` as written: on a mutual like, `session.get(DatingMatch,
   * (user_id, target_user_id))` passes two key values for the one-column
   * primary key `id` and raises before the commit.
   */
  function LikeEffectAsWritten(w: World, userId: UserId, data: string): (r: DatingResult)
  {
    var r := LikeEffect(w, userId, data);
    match CallbackTarget(data)
    case Some(target) =>
      if r.reply.Liked? && FindLike(w.matches, target, userId).Some? then DatingResult(w, Raised) else r
    case None => r
  }

  /** As written, a like that answers a like always raises and stores nothing: no match is ever recorded. */
  lemma MutualLikeAsWrittenRaises(w: World, userId: UserId, target: UserId)
    requires target != userId && !HasVote(w.matches, userId, target) && GetUser(w.users, userId).Some?
    requires FindLike(w.matches, target, userId).Some?
    ensures LikeEffectAsWritten(w, userId, LikePrefix + IntToString(target)) == DatingResult(w, Raised)
  {
    LikeData(target);
  }

  lemma LikeData(target: UserId)
    ensures HasPrefix(LikePrefix + IntToString(target), LikePrefix)
    ensures CallbackTarget(LikePrefix + IntToString(target)) == Some(target)
  {
    DatingKeyboardRoundTrip(target);
    assert DatingKeyboard(target)[0][0].action.data == LikePrefix + IntToString(target);
  }

  lemma DislikeData(target: UserId)
    ensures HasPrefix(DislikePrefix + IntToString(target), DislikePrefix)
    ensures CallbackTarget(DislikePrefix + IntToString(target)) == Some(target)
  {
    DatingKeyboardRoundTrip(target);
    assert DatingKeyboard(target)[0][1].action.data == DislikePrefix + IntToString(target);
  }

  /** `process_dislike`: no self check, one row or nothing, and never a match. */
  function DislikeEffect(w: World, userId: UserId, data: string): (r: DatingResult)
  {
    if !HasPrefix(data, DislikePrefix) then DatingResult(w, NotRouted)
    else match CallbackTarget(data)
    case None => DatingResult(w, Raised)
    case Some(target) =>
      var (w1, created) := CreateInteractionRecord(w, userId, target, "dislike");
      if !created then DatingResult(w, AlreadyVoted)
      else if GetUser(w.users, userId).None? then DatingResult(w, Raised)   // the commit breaks the foreign key
      else DatingResult(w1, Disliked)
  }

  /** Liking oneself is refused before the store is read. */
  lemma SelfLikeRefused(w: World, userId: UserId)
    ensures LikeEffect(w, userId, LikePrefix + IntToString(userId)) == DatingResult(w, SelfLike)
  {
    LikeData(userId);
  }

  /** A second vote on the same ordered pair, like or dislike, changes nothing. */
  lemma SecondVoteChangesNothing(w: World, userId: UserId, target: UserId)
    requires HasVote(w.matches, userId, target)
    ensures LikeEffect(w, userId, LikePrefix + IntToString(target)).w == w
    ensures DislikeEffect(w, userId, DislikePrefix + IntToString(target)) == DatingResult(w, AlreadyVoted)
  {
    LikeData(target);
    DislikeData(target);
  }

  /**
   * A first like of a known user on someone else adds exactly one row; both
   * rows are flagged as a match exactly when the target liked back, and only
   * then is one notification queued, to the target.
   */
  lemma LikeMatchesIffMutual(w: World, userId: UserId, target: UserId)
    requires target != userId && !HasVote(w.matches, userId, target) && GetUser(w.users, userId).Some?
    ensures var r := LikeEffect(w, userId, LikePrefix + IntToString(target));
      var rec := NewDatingMatch(w.nextMatchId, userId, target, "like");
      var mutual := FindLike(w.matches, target, userId);
      && r.reply.Liked?
      && r.w.nextMatchId == w.nextMatchId + 1
      && (mutual.None? ==> r.w.matches == w.matches + [rec] && r.w.notifications == w.notifications)
      && (mutual.Some? ==>
            && r.w.matches == w.matches[mutual.value := w.matches[mutual.value].(isMatch := true)] + [rec.(isMatch := true)]
            && (GetUser(w.users, target).Some? ==>
                  r.w.notifications == w.notifications + [MatchNotification(target, GetUser(w.users, userId).value)])
            && (GetUser(w.users, target).None? ==> r.w.notifications == w.notifications))
      && r.w.users == w.users && r.w.surveys == w.surveys && r.w.tracking == w.tracking
  {
    LikeData(target);
  }

  /** Only the earlier like that the new like answers changes its match flag; the new row is flagged exactly then. */
  lemma LikeFlagsOnlyTheMutual(ms: seq<DatingMatch>, next: int, userId: UserId, target: UserId)
    ensures var r := LikeRows(ms, next, userId, target);
      var mutual := FindLike(ms, target, userId);
      && |r| == |ms| + 1
      && (forall i :: 0 <= i < |ms| && r[i] != ms[i] ==> mutual == Some(i) && r[i] == ms[i].(isMatch := true))
      && r[|ms|].(isMatch := false) == NewDatingMatch(next, userId, target, "like")
      && (r[|ms|].isMatch <==> mutual.Some?)
  {
  }

  /** A dislike never flags a match. */
  lemma DislikeNeverMatches(w: World, userId: UserId, data: string)
    ensures var r := DislikeEffect(w, userId, data);
      && |r.w.matches| >= |w.matches|
      && (forall i :: 0 <= i < |w.matches| ==> r.w.matches[i] == w.matches[i])
      && (forall i :: |w.matches| <= i < |r.w.matches| ==> !r.w.matches[i].isMatch && r.w.matches[i].action == "dislike")
      && r.w.notifications == w.notifications
  {
    var r := DislikeEffect(w, userId, data);
    if r.w != w {
      var target := CallbackTarget(data).value;
      var rec := NewDatingMatch(w.nextMatchId, userId, target, "dislike");
      assert r.w.matches == w.matches + [rec];
      assert !rec.isMatch && rec.action == "dislike";
    }
  }

  // ---- Validity ----

  lemma VoteKeepsUnique(ms: seq<DatingMatch>, rec: DatingMatch)
    requires UniqueVotes(ms) && !HasVote(ms, rec.userId, rec.targetUserId)
    ensures UniqueVotes(ms + [rec])
  {
    var r := ms + [rec];
    forall i, j | 0 <= i < j < |r| ensures (r[i].userId, r[i].targetUserId) != (r[j].userId, r[j].targetUserId) {
      if j == |ms| {
        assert r[i] == ms[i];
      }
    }
  }

  lemma MatchedKeepsValid(ms: seq<DatingMatch>, j: nat, rec: DatingMatch, next: int)
    requires UniqueVotes(ms) && MatchIdsBelow(ms, next) && j < |ms|
    requires !HasVote(ms, rec.userId, rec.targetUserId) && rec.id == next
    ensures UniqueVotes(Matched(ms, j, rec)) && MatchIdsBelow(Matched(ms, j, rec), next + 1)
  {
    var m := ms[j := ms[j].(isMatch := true)];
    assert forall i :: 0 <= i < |m| ==> m[i].userId == ms[i].userId && m[i].targetUserId == ms[i].targetUserId && m[i].id == ms[i].id;
    assert !HasVote(m, rec.userId, rec.targetUserId);
    VoteKeepsUnique(m, rec.(isMatch := true));
  }

  lemma LikeKeepsValid(w: World, userId: UserId, data: string)
    requires ValidWorld(w)
    ensures ValidWorld(LikeEffect(w, userId, data).w)
  {
    var r := LikeEffect(w, userId, data);
    if r.w != w {
      var target := CallbackTarget(data).value;
      AcceptLikeKeepsValid(w, GetUser(w.users, userId).value, target);
    }
  }

  lemma AcceptLikeKeepsValid(w: World, me: User, target: UserId)
    requires ValidWorld(w) && !HasVote(w.matches, me.userId, target)
    ensures ValidWorld(AcceptLike(w, me, target).w)
  {
    var rec := NewDatingMatch(w.nextMatchId, me.userId, target, "like");
    match FindLike(w.matches, target, me.userId)
    case None => VoteKeepsUnique(w.matches, rec);
    case Some(j) => MatchedKeepsValid(w.matches, j, rec, w.nextMatchId);
  }

  lemma DislikeKeepsValid(w: World, userId: UserId, data: string)
    requires ValidWorld(w)
    ensures ValidWorld(DislikeEffect(w, userId, data).w)
  {
    var r := DislikeEffect(w, userId, data);
    if r.w != w {
      var target := CallbackTarget(data).value;
      VoteKeepsUnique(w.matches, NewDatingMatch(w.nextMatchId, userId, target, "dislike"));
    }
  }

  // ---- The handlers, on the store ----

  /** `process_like` (line 64 dropped) on a snapshot of the store. */
  method LikeValues(w0: World, userId: UserId, data: string) returns (w: World, reply: DatingReply)
    ensures DatingResult(w, reply) == LikeEffect(w0, userId, data)
  {
    w := w0;
    if !HasPrefix(data, LikePrefix) {
      return w, NotRouted;
    }
    var parsed := CallbackTarget(data);
    if parsed.None? {
      return w, Raised;
    }
    var target := parsed.value;
    if target == userId {
      return w, SelfLike;
    }
    if HasVote(w.matches, userId, target) {
      return w, AlreadyVoted;
    }
    var me := GetUser(w.users, userId);
    if me.None? {
      return w, Raised;
    }
    w, reply := AcceptLikeValues(w, me.value, target);
  }

  /** The stored like and the match check, on a snapshot of the store. */
  method AcceptLikeValues(w0: World, me: User, target: UserId) returns (w: World, reply: DatingReply)
    requires !HasVote(w0.matches, me.userId, target)
    ensures DatingResult(w, reply) == AcceptLike(w0, me, target)
  {
    var (w1, _) := CreateInteractionRecord(w0, me.userId, target, "like");
    w := w1;
    reply := Liked(None);
    var mutual := FindLike(w0.matches, target, me.userId);
    if mutual.Some? {
      // Flag the mutual like and the new like.
      var ms := w.matches;
      ms := ms[mutual.value := ms[mutual.value].(isMatch := true)];
      ms := ms[|ms| - 1 := ms[|ms| - 1].(isMatch := true)];
      assert ms == LikeRows(w0.matches, w0.nextMatchId, me.userId, target);
      w := w.(matches := ms);
      var them := GetUser(w0.users, target);
      if them.Some? {
        w := w.(notifications := w0.notifications + [MatchNotification(target, me)]);
        reply := Liked(Some(MatchMessage(them.value)));
      }
    }
  }

  /** `process_like`, with line 64 dropped. */
  method ProcessLike(b: Backend, userId: UserId, data: string) returns (reply: DatingReply)
    requires b.Valid()
    modifies b
    ensures b.Valid()
    ensures DatingResult(b.State(), reply) == LikeEffect(old(b.State()), userId, data)
  {
    var w;
    w, reply := LikeValues(b.State(), userId, data);
    LikeKeepsValid(b.State(), userId, data);
    b.SetState(w);
  }

  /** `process_dislike` on a snapshot of the store. */
  method DislikeValues(w0: World, userId: UserId, data: string) returns (w: World, reply: DatingReply)
    ensures DatingResult(w, reply) == DislikeEffect(w0, userId, data)
  {
    w := w0;
    if !HasPrefix(data, DislikePrefix) {
      return w, NotRouted;
    }
    var parsed := CallbackTarget(data);
    if parsed.None? {
      return w, Raised;
    }
    var (w1, created) := CreateInteractionRecord(w, userId, parsed.value, "dislike");
    if !created {
      return w, AlreadyVoted;
    }
    if GetUser(w.users, userId).None? {
      return w, Raised;
    }
    w, reply := w1, Disliked;
  }

  /** `process_dislike`. */
  method ProcessDislike(b: Backend, userId: UserId, data: string) returns (reply: DatingReply)
    requires b.Valid()
    modifies b
    ensures b.Valid()
    ensures DatingResult(b.State(), reply) == DislikeEffect(old(b.State()), userId, data)
  {
    var w;
    w, reply := DislikeValues(b.State(), userId, data);
    DislikeKeepsValid(b.State(), userId, data);
    b.SetState(w);
  }
}
