/**
 * The decision of the subscription middleware
 * (src/bot/middlewares/check_sub.py): let an update through to its handler
 * or answer with the "access expired" notice instead. src/bot/main.py never
 * registers the middleware, so as the program stands it is not applied.
 */
module Access {
  import opened Wrappers
  import opened Strings
  import opened Models
  import opened Config
  import opened Store
  import Start

  /** The update kinds the gate tells apart, with their sender (if any) and a message's text. */
  datatype Event =
    | MessageEvent(sender: Option<UserId>, text: Option<string>)
    | CallbackEvent(sender: Option<UserId>)
    | OtherEvent

  /** What the gate does: call the handler once, answer with the block notice, or raise. */
  datatype Gate =
    | Pass
    | Block(alert: bool)   // `alert` for a callback query (an alert, and the menu message deleted)
    | Raises               // `int()` of a malformed `ADMIN_IDS` part

  /** A message whose text starts with `/start`. */
  predicate IsStart(e: Event)
  {
    e.MessageEvent? && e.text.Some? && e.text.value != [] && HasPrefix(e.text.value, "/start")
  }

  function Sender(e: Event): Option<UserId>
  {
    if e.OtherEvent? then None else e.sender
  }

  /** `CheckSubscriptionMiddleware.__call__`, with `now` the current time. */
  function Decide(e: Event, adminRaw: string, users: seq<User>, now: Seconds): (g: Gate)
    // `/start` always passes; a malformed `ADMIN_IDS` raises only once a sender must be checked
    ensures IsStart(e) ==> g == Pass
    ensures g == Raises <==> !IsStart(e) && Sender(e).Some? && AdminIds(adminRaw).None?
    // a blocked callback is answered with an alert, a blocked message with a reply
    ensures g.Block? ==> g.alert == e.CallbackEvent?
  {
    if IsStart(e) then Pass
    else match Sender(e)
    case None => Pass
    case Some(id) =>
      match AdminIds(adminRaw)
      case None => Raises
      case Some(ids) =>
        if id in ids then Pass
        else match GetUser(users, id)
        case None => Block(e.CallbackEvent?)
        case Some(u) =>
          if u.subscriptionExpiresAt.None? then Block(e.CallbackEvent?)
          else if u.subscriptionExpiresAt.value < now then Block(e.CallbackEvent?)
          else Pass
  }

  /**
   * The gate passes exactly for a `/start` message, an update without a
   * sender, an admin, or a known user whose expiry is not before now; it
   * raises exactly when it has to read a malformed `ADMIN_IDS`; and it blocks
   * everything else.
   */
  lemma DecideMeaning(e: Event, adminRaw: string, users: seq<User>, now: Seconds)
    ensures var g := Decide(e, adminRaw, users, now);
      var id := Sender(e);
      var ids := AdminIds(adminRaw);
      var u := if id.Some? then GetUser(users, id.value) else None;
      && (g == Raises <==> !IsStart(e) && id.Some? && ids.None?)
      && (g == Pass <==>
            || IsStart(e)
            || id.None?
            || (ids.Some? && id.value in ids.value)
            || (ids.Some? && u.Some? && u.value.subscriptionExpiresAt.Some? && u.value.subscriptionExpiresAt.value >= now))
      && (g.Block? ==> g.alert == e.CallbackEvent?)
  {
  }

  /** An admin passes whatever the store holds: no lookup decides it. */
  lemma AdminNeedsNoLookup(e: Event, adminRaw: string, users1: seq<User>, users2: seq<User>, now: Seconds)
    requires Sender(e).Some? && AdminIds(adminRaw).Some? && Sender(e).value in AdminIds(adminRaw).value
    ensures Decide(e, adminRaw, users1, now) == Decide(e, adminRaw, users2, now) == Pass
  {
  }

  /**
   * At the expiry instant itself the gate still passes, while a plain
   * `/start` already shows the welcome text instead of the menu.
   */
  lemma ExpiryInstant(e: Event, adminRaw: string, users: seq<User>, u: User, now: Seconds)
    requires !IsStart(e) && Sender(e) == Some(u.userId) && AdminIds(adminRaw).Some? && u.userId !in AdminIds(adminRaw).value
    requires GetUser(users, u.userId) == Some(u) && u.subscriptionExpiresAt == Some(now)
    ensures Decide(e, adminRaw, users, now) == Pass
    ensures !Start.SubscriptionActive(u, now)
    ensures Decide(e, adminRaw, users, now + 1) == Block(e.CallbackEvent?)
  {
  }
}
