/**
 * The two RabbitMQ queues and what travels on them. `send_to_queue`
 * (src/services/rabbit.py:10-35) serialises a dict to JSON and publishes it;
 * here a queue is a sequence of the payloads producers build, and the sender
 * worker's view of a delivered message body is `Payload`.
 */
module Queues {
  import opened Wrappers
  import opened Answers
  import opened Models
  import opened Keyboards

  /** A `q_notifications` payload: `{user_id, text, photo?, keyboard?}`. */
  datatype Notification = Notification(
    userId: UserId,
    text: string,
    photo: Option<string>,
    keyboard: Option<InlineKeyboard>)

  /** A `q_ai_generation` task: `{user_id, mode, answers, survey_id}`. */
  datatype GenerationTask = GenerationTask(
    userId: UserId,
    mode: string,
    answers: Answers,
    surveyId: int)

  /** The `keyboard` entry of a decoded body, as `InlineKeyboardMarkup.model_validate` sees it. */
  datatype KeyboardField =
    | NoKeyboard                        // absent, null or an empty dict: no markup
    | ValidKeyboard(kb: InlineKeyboard)
    | InvalidKeyboard                   // present but not a keyboard: validation raises

  /** A message body as the sender worker decodes it. */
  datatype Payload =
    | Undecodable                       // `json.loads` raises
    | Payload(
        userId: Option<UserId>,      // `None` when the key is absent
        text: Option<string>,
        photo: Option<string>,
        keyboard: KeyboardField)

  /** The JSON a producer's `send_to_queue("q_notifications", …)` publishes, as decoded again. */
  function Encode(n: Notification): (p: Payload)
    ensures p.Payload? && p.userId == Some(n.userId) && p.text == Some(n.text) && p.photo == n.photo
    ensures p.keyboard == if n.keyboard.Some? then ValidKeyboard(n.keyboard.value) else NoKeyboard
  {
    Payload(Some(n.userId), Some(n.text), n.photo,
      if n.keyboard.Some? then ValidKeyboard(n.keyboard.value) else NoKeyboard)
  }

  /**
   * An `aio_pika.IncomingMessage`: its decoded body and how it was settled. A
   * message is settled by `ack`, by `nack` (optionally requeued) or by `reject`.
   */
  class IncomingMessage<Body> {
    const body: Body
    var acks: nat
    var nacks: nat
    var requeues: nat
    var rejects: nat

    constructor(body: Body)
      ensures this.body == body
      ensures acks == 0 && nacks == 0 && requeues == 0 && rejects == 0
    {
      this.body := body;
      acks, nacks, requeues, rejects := 0, 0, 0, 0;
    }

    function Settlements(): nat
      reads this
    {
      acks + nacks + rejects
    }

    method Ack()
      modifies this
      ensures acks == old(acks) + 1
      ensures nacks == old(nacks) && requeues == old(requeues) && rejects == old(rejects)
    {
      acks := acks + 1;
    }

    method Nack(requeue: bool)
      modifies this
      ensures nacks == old(nacks) + 1
      ensures requeues == old(requeues) + (if requeue then 1 else 0)
      ensures acks == old(acks) && rejects == old(rejects)
    {
      nacks := nacks + 1;
      if requeue {
        requeues := requeues + 1;
      }
    }

    method Reject()
      modifies this
      ensures rejects == old(rejects) + 1
      ensures acks == old(acks) && nacks == old(nacks) && requeues == old(requeues)
    {
      rejects := rejects + 1;
    }
  }
}
