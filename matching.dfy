/**
 * The daily matching job of src/services/matching.py: every dating profile
 * is offered the first other dating profile its owner has not rated yet,
 * as a photo card with the like, skip and report buttons. The job only
 * reads the tables and appends to `q_notifications`.
 */
module Matching {
  import opened Wrappers
  import opened Strings
  import opened Models
  import opened Keyboards
  import opened Queues
  import opened Store
  import Answers

  const DatingMode := "dating"

  /** `select(DatingMatch.target_user_id).where(user_id == my_id)`: everyone `me` already rated. */
  function Seen(matches: seq<DatingMatch>, me: UserId): (seen: set<UserId>)
    ensures forall i :: 0 <= i < |matches| && matches[i].userId == me ==> matches[i].targetUserId in seen
    ensures forall t :: t in seen ==> exists i :: 0 <= i < |matches| && matches[i].userId == me && matches[i].targetUserId == t
  {
    set i | 0 <= i < |matches| && matches[i].userId == me :: matches[i].targetUserId
  }

  /** The candidate query's condition on one profile. */
  predicate Qualifies(s: UserSurvey, me: UserId, seen: set<UserId>)
  {
    s.mode == DatingMode && s.userId != me && s.userId !in seen
  }

  /**
   * The row `.limit(1)` returns, from index `from` on. The query has no
   * ORDER BY; the model takes the first qualifying row in table order.
   */
  function FirstQualifying(surveys: seq<UserSurvey>, from: nat, me: UserId, seen: set<UserId>): (r: Option<nat>)
    requires from <= |surveys|
    ensures r.Some? ==> from <= r.value < |surveys| && Qualifies(surveys[r.value], me, seen)
    ensures r.Some? ==> forall j :: from <= j < r.value ==> !Qualifies(surveys[j], me, seen)
    ensures r.None? ==> forall j :: from <= j < |surveys| ==> !Qualifies(surveys[j], me, seen)
    decreases |surveys| - from
  {
    if from == |surveys| then None
    else if Qualifies(surveys[from], me, seen) then Some(from)
    else FirstQualifying(surveys, from + 1, me, seen)
  }

  /** The candidate for `me`: another dating profile whose owner `me` has not liked or skipped. */
  function Candidate(surveys: seq<UserSurvey>, matches: seq<DatingMatch>, me: UserId): (c: Option<UserSurvey>)
    ensures c.Some? ==> c.value in surveys && Qualifies(c.value, me, Seen(matches, me))
    ensures c.None? ==> forall j :: 0 <= j < |surveys| ==> !Qualifies(surveys[j], me, Seen(matches, me))
  {
    var seen := Seen(matches, me);
    match FirstQualifying(surveys, 0, me, seen)
    case Some(i) => Some(surveys[i])
    case None => None
  }

  /** `my_data.get('city', '').lower().strip()`. */
  function CityOf(answers: Answers.Answers): (r: string)
    // no surrounding whitespace ...
    ensures r == [] || (!IsSpace(r[0]) && !IsSpace(r[|r| - 1]))
    // ... and already in lower case
    ensures forall i :: 0 <= i < |r| ==> LowerChar(r[i]) == r[i]
  {
    Strip(Lower(Answers.GetOr(answers, "city", "")))
  }

  /** The card text; the city shown is the recipient's own, as the query does not filter by city. */
  function Caption(myCity: string, candidate: Answers.Answers): string
  {
    "💘 <b>Кандидат дня:</b>\n\n" + Answers.GetOr(candidate, "name", "Аноним") + ", " + Answers.GetOr(candidate, "age", "??")
      + "\n📍 " + myCity + "\n\nℹ️ " + Answers.GetOr(candidate, "about", "")
  }

  /** One card to send: the profile it goes to and the candidate it shows. */
  datatype Offer = Offer(recipient: UserSurvey, candidate: UserSurvey)

  /** What the loop does for one profile: a dating profile with a candidate gets an offer. */
  function OfferFor(me: UserSurvey, surveys: seq<UserSurvey>, matches: seq<DatingMatch>): (o: Option<Offer>)
    ensures o.Some? <==> me.mode == DatingMode && Candidate(surveys, matches, me.userId).Some?
    ensures o.Some? ==> o.value == Offer(me, Candidate(surveys, matches, me.userId).value)
  {
    if me.mode != DatingMode then None
    else
      match Candidate(surveys, matches, me.userId)
      case None => None
      case Some(c) => Some(Offer(me, c))
  }

  /** The queued payload: the candidate's photo and card, sent to the recipient, with buttons about the candidate. */
  function Card(o: Offer): (n: Notification)
    ensures n.userId == o.recipient.userId
    ensures n.photo == Answers.Get(o.candidate.answers, "photo")
    ensures n.keyboard == Some(DatingKeyboard(o.candidate.userId))
  {
    Notification(o.recipient.userId, Caption(CityOf(o.recipient.answers), o.candidate.answers),
                 Answers.Get(o.candidate.answers, "photo"), Some(DatingKeyboard(o.candidate.userId)))
  }

  /**
   * An offer is a real candidate: someone else with a dating profile whom
   * the recipient has not rated, and the card's like and skip buttons
   * decode back to that person's id. There is no offer exactly when every
   * other dating profile belongs to someone already rated.
   */
  lemma OfferMeaning(me: UserSurvey, surveys: seq<UserSurvey>, matches: seq<DatingMatch>)
    requires me.mode == DatingMode
    ensures var o := OfferFor(me, surveys, matches);
      o.Some? ==>
        && o.value.candidate in surveys && o.value.candidate.mode == DatingMode
        && o.value.candidate.userId != me.userId
        && (forall i :: 0 <= i < |matches| && matches[i].userId == me.userId ==> matches[i].targetUserId != o.value.candidate.userId)
        && CallbackTarget(Card(o.value).keyboard.value[0][0].action.data) == Some(o.value.candidate.userId)
        && CallbackTarget(Card(o.value).keyboard.value[0][1].action.data) == Some(o.value.candidate.userId)
    ensures OfferFor(me, surveys, matches).None? <==>
      forall j :: 0 <= j < |surveys| && surveys[j].mode == DatingMode && surveys[j].userId != me.userId ==>
        exists i :: 0 <= i < |matches| && matches[i].userId == me.userId && matches[i].targetUserId == surveys[j].userId
  {
    var c := Candidate(surveys, matches, me.userId);
    if c.Some? {
      DatingKeyboardRoundTrip(c.value.userId);
    } else {
      var seen := Seen(matches, me.userId);
      assert forall j :: 0 <= j < |surveys| ==> !Qualifies(surveys[j], me.userId, seen);
    }
  }

  /** The offers the loop makes for `profiles` (a prefix of the table), in table order. */
  function Offers(profiles: seq<UserSurvey>, surveys: seq<UserSurvey>, matches: seq<DatingMatch>): seq<Offer>
  {
    if profiles == [] then []
    else
      var me := profiles[|profiles| - 1];
      var o := OfferFor(me, surveys, matches);
      Offers(profiles[..|profiles| - 1], surveys, matches) + (if o.Some? then [o.value] else [])
  }

  /** The cards of a list of offers, in order. */
  function Cards(os: seq<Offer>): (ns: seq<Notification>)
    ensures |ns| == |os|
    ensures forall k :: 0 <= k < |os| ==> ns[k] == Card(os[k])
  {
    seq(|os|, k requires 0 <= k < |os| => Card(os[k]))
  }

  /** Every offer goes to a dating profile of the table that has a candidate, and there is at most one per profile. */
  lemma {:induction false} OffersSound(profiles: seq<UserSurvey>, surveys: seq<UserSurvey>, matches: seq<DatingMatch>)
    ensures var os := Offers(profiles, surveys, matches);
      && |os| <= |profiles|
      && forall k :: 0 <= k < |os| ==> exists i :: 0 <= i < |profiles| && OfferFor(profiles[i], surveys, matches) == Some(os[k])
  {
    if profiles != [] {
      var init := profiles[..|profiles| - 1];
      OffersSound(init, surveys, matches);
      assert forall i :: 0 <= i < |init| ==> init[i] == profiles[i];
    }
  }

  /** Each dating profile that has a candidate gets its offer. */
  lemma {:induction false} OffersComplete(profiles: seq<UserSurvey>, surveys: seq<UserSurvey>, matches: seq<DatingMatch>)
    ensures forall i :: 0 <= i < |profiles| && OfferFor(profiles[i], surveys, matches).Some? ==>
      OfferFor(profiles[i], surveys, matches).value in Offers(profiles, surveys, matches)
  {
    if profiles != [] {
      var init := profiles[..|profiles| - 1];
      OffersComplete(init, surveys, matches);
      assert forall i :: 0 <= i < |init| ==> init[i] == profiles[i];
    }
  }

  /** Someone who has rated every other dating profile gets no card at all. */
  lemma NoCardWhenAllRated(profiles: seq<UserSurvey>, surveys: seq<UserSurvey>, matches: seq<DatingMatch>, me: UserId)
    requires forall j :: 0 <= j < |surveys| && surveys[j].mode == DatingMode && surveys[j].userId != me ==>
      surveys[j].userId in Seen(matches, me)
    ensures forall o :: o in Offers(profiles, surveys, matches) ==> o.recipient.userId != me
  {
    OffersSound(profiles, surveys, matches);
    var os := Offers(profiles, surveys, matches);
    forall o | o in os ensures o.recipient.userId != me {
      var k :| 0 <= k < |os| && os[k] == o;
      var i :| 0 <= i < |profiles| && OfferFor(profiles[i], surveys, matches) == Some(os[k]);
    }
  }

  lemma OffersSnoc(profiles: seq<UserSurvey>, i: nat, surveys: seq<UserSurvey>, matches: seq<DatingMatch>)
    requires i < |profiles|
    ensures var o := OfferFor(profiles[i], surveys, matches);
      Offers(profiles[..i + 1], surveys, matches) == Offers(profiles[..i], surveys, matches) + (if o.Some? then [o.value] else [])
  {
    assert profiles[..i + 1][..i] == profiles[..i];
  }

  lemma CardsSnoc(os: seq<Offer>, o: Offer)
    ensures Cards(os + [o]) == Cards(os) + [Card(o)]
  {
    assert (os + [o])[|os|] == o;
    forall k | 0 <= k < |os| ensures (os + [o])[k] == os[k] {}
  }

  /**
   * `run_daily_matching`: for each dating profile in table order, queue the
   * card of its candidate, if any. The matches table is only read, so a
   * candidate offered today is offered again until it is rated.
   */
  method RunDailyMatching(b: Backend) returns (sent: nat)
    modifies b`notifications
    ensures b.notifications == old(b.notifications) + Cards(Offers(b.surveys, b.surveys, b.matches))
    ensures sent == |Offers(b.surveys, b.surveys, b.matches)|
  {
    var profiles := b.surveys;
    ghost var offers: seq<Offer> := [];
    sent := 0;
    var i := 0;
    while i < |profiles|
      invariant 0 <= i <= |profiles|
      invariant offers == Offers(profiles[..i], profiles, b.matches)
      invariant b.notifications == old(b.notifications) + Cards(offers)
      invariant sent == |offers|
    {
      OffersSnoc(profiles, i, profiles, b.matches);
      var me := profiles[i];
      var o := OfferFor(me, profiles, b.matches);
      if o.Some? {
        CardsSnoc(offers, o.value);
        b.notifications := b.notifications + [Card(o.value)];
        offers := offers + [o.value];
        sent := sent + 1;
      }
      i := i + 1;
    }
    assert profiles[..i] == profiles;
  }

  /** Once the recipient likes or skips today's candidate, no later run offers that person to them again. */
  lemma RatingRemovesCandidate(me: UserSurvey, surveys: seq<UserSurvey>, matches: seq<DatingMatch>, m: DatingMatch)
    requires Candidate(surveys, matches, me.userId).Some?
    requires m.userId == me.userId && m.targetUserId == Candidate(surveys, matches, me.userId).value.userId
    ensures var c := Candidate(surveys, matches + [m], me.userId);
      c.Some? ==> c.value.userId != m.targetUserId
  {
    assert (matches + [m])[|matches|] == m;
  }
}
