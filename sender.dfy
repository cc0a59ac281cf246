/**
 * The delivery worker of src/workers/sender_worker.py: it decodes one
 * `q_notifications` message, makes one Bot API call and settles the message.
 * The call itself is a parameter `bot` that says how the platform answers.
 */
module Sender {
  import opened Wrappers
  import opened Models
  import opened Keyboards
  import opened Queues

  /** The Bot API call the worker makes for a message. */
  datatype Call =
    | SendMessage(chatId: UserId, text: string, markup: Option<InlineKeyboard>)
    | SendPhoto(chatId: UserId, photo: string, caption: string, markup: Option<InlineKeyboard>)

  /** How the call ends: delivered, `TelegramRetryAfter`, or any other exception. */
  datatype CallResult = Delivered | RetryAfter(seconds: int) | CallFailed

  /** How the handler leaves the message. */
  datatype Settlement = Acked | Requeued | Unsettled

  /**
   * What one run of `process_notification` does: the call it makes, how the
   * message is settled, the pause after a rate limit, and whether an
   * exception escapes the handler.
   */
  datatype Handling = Handling(call: Option<Call>, settlement: Settlement, pause: Option<int>, escapes: bool)

  /** `if photo:`: a photo id is used when it is present and not empty. */
  predicate HasPhoto(photo: Option<string>)
  {
    photo.Some? && photo.value != []
  }

  /** The call for a decoded body: a photo with the text as caption, or a plain message. */
  function CallFor(userId: UserId, text: string, photo: Option<string>, markup: Option<InlineKeyboard>): (c: Call)
    ensures HasPhoto(photo) <==> c.SendPhoto?
    ensures c.chatId == userId && c.markup == markup
    ensures c.SendPhoto? ==> c.photo == photo.value && c.caption == text
    ensures c.SendMessage? ==> c.text == text
  {
    if HasPhoto(photo) then SendPhoto(userId, photo.value, text, markup) else SendMessage(userId, text, markup)
  }

  /**
   * `process_notification`. A body that does not decode or has no `user_id`
   * reaches the generic handler with `user_id` unbound, whose log line then
   * raises: the message is left unsettled. A keyboard that fails validation
   * is an ordinary failure. A rate limit requeues the message and pauses for
   * the advised time; every other outcome acks.
   */
  function Handle(p: Payload, bot: Call -> CallResult): (h: Handling)
    ensures h.settlement == Unsettled <==> p.Undecodable? || p.userId.None?
    ensures h.escapes <==> h.settlement == Unsettled
    ensures h.settlement == Requeued <==> h.call.Some? && bot(h.call.value).RetryAfter?
    ensures h.settlement == Requeued ==> h.pause == Some(bot(h.call.value).seconds)
    ensures h.settlement != Requeued ==> h.pause.None?
    ensures h.call.Some? <==> p.Payload? && p.userId.Some? && !p.keyboard.InvalidKeyboard?
    ensures h.call.Some? ==> h.call.value.chatId == p.userId.value
  {
    if p.Undecodable? || p.userId.None? then Handling(None, Unsettled, None, true)
    else if p.keyboard.InvalidKeyboard? then Handling(None, Acked, None, false)
    else
      var markup := if p.keyboard.ValidKeyboard? then Some(p.keyboard.kb) else None;
      var call := CallFor(p.userId.value, p.text.GetOr(""), p.photo, markup);
      match bot(call)
      case Delivered => Handling(Some(call), Acked, None, false)
      case RetryAfter(t) => Handling(Some(call), Requeued, Some(t), false)
      case CallFailed => Handling(Some(call), Acked, None, false)
  }

  /** The call a producer's notification should turn into. */
  function Intended(n: Notification): Call
  {
    CallFor(n.userId, n.text, n.photo, n.keyboard)
  }

  /**
   * Every notification a producer queues is decoded back into exactly the
   * call it describes (recipient, text or caption, photo, keyboard) and is
   * settled exactly once: requeued if rate-limited, acked otherwise.
   */
  lemma ProducedNotificationDelivered(n: Notification, bot: Call -> CallResult)
    ensures var h := Handle(Encode(n), bot);
      && h.call == Some(Intended(n))
      && !h.escapes
      && (h.settlement == Requeued <==> bot(Intended(n)).RetryAfter?)
      && (h.settlement == Acked <==> !bot(Intended(n)).RetryAfter?)
  {
  }

  /**
   * A requeued message is not lost: when it comes back, the same call is
   * made again whatever the platform answers this time.
   */
  lemma RequeueRepeatsCall(p: Payload, bot1: Call -> CallResult, bot2: Call -> CallResult)
    requires Handle(p, bot1).settlement == Requeued
    ensures Handle(p, bot2).call == Handle(p, bot1).call
    ensures Handle(p, bot2).settlement != Unsettled
  {
  }

  /** A rate limit is the only outcome that keeps the message; a failed send drops it. */
  lemma OnlyRateLimitRetries(p: Payload, bot: Call -> CallResult)
    requires p.Payload? && p.userId.Some?
    ensures Handle(p, bot).settlement == Requeued || Handle(p, bot).settlement == Acked
    ensures Handle(p, bot).call.Some? && bot(Handle(p, bot).call.value) == CallFailed ==>
      Handle(p, bot).settlement == Acked
  {
  }

  /** A body without `text` is sent with the empty text. */
  lemma MissingTextIsEmpty(userId: UserId, bot: Call -> CallResult)
    ensures Handle(Payload(Some(userId), None, None, NoKeyboard), bot).call == Some(SendMessage(userId, "", None))
  {
  }

  /**
   * `process_notification` on the delivered message: it makes the call, then
   * acks, nacks with requeue, or raises with the message untouched.
   */
  method ProcessNotification(msg: IncomingMessage<Payload>, bot: Call -> CallResult)
    returns (call: Option<Call>, pause: Option<int>, escapes: bool)
    modifies msg
    ensures Handling(call, if escapes then Unsettled else if pause.Some? then Requeued else Acked, pause, escapes)
            == Handle(msg.body, bot)
    ensures Handle(msg.body, bot).settlement == Acked ==> msg.acks == old(msg.acks) + 1 && msg.nacks == old(msg.nacks)
    ensures Handle(msg.body, bot).settlement == Requeued ==>
      msg.nacks == old(msg.nacks) + 1 && msg.requeues == old(msg.requeues) + 1 && msg.acks == old(msg.acks)
    ensures Handle(msg.body, bot).settlement == Unsettled ==> msg.acks == old(msg.acks) && msg.nacks == old(msg.nacks)
    ensures msg.rejects == old(msg.rejects)
    ensures msg.Settlements() == old(msg.Settlements()) + (if escapes then 0 else 1)
  {
    var p := msg.body;
    call, pause, escapes := None, None, false;
    if p.Undecodable? || p.userId.None? {
      // json.loads or data['user_id'] raised; the except branch reads the unbound user_id
      escapes := true;
      return;
    }
    if p.keyboard.InvalidKeyboard? {
      msg.Ack();
      return;
    }
    var markup := if p.keyboard.ValidKeyboard? then Some(p.keyboard.kb) else None;
    var text := p.text.GetOr("");
    var c: Call;
    if HasPhoto(p.photo) {
      c := SendPhoto(p.userId.value, p.photo.value, text, markup);
    } else {
      c := SendMessage(p.userId.value, text, markup);
    }
    call := Some(c);
    var result := bot(c);
    if result.RetryAfter? {
      msg.Nack(true);
      pause := Some(result.seconds);
    } else {
      msg.Ack();
    }
  }
}
