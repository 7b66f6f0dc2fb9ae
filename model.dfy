/** Values shared by every part of the notification pipeline: the channels,
    the notification object that the POST handlers save and publish, the
    rows of the `notifications` table, and the outcomes of the calls into
    PostgreSQL, RabbitMQ and the mail transport, which the model receives as
    parameters instead of performing them. */
module Model {

  datatype Option<T> = None | Some(value: T)

  /** The three delivery channels; each has its own route, queue and service. */
  datatype Channel = Email | Push | Sms

  /** The `type` a handler writes into the notification object. */
  function TypeName(ch: Channel): string {
    match ch
    case Email => "email"
    case Push => "push"
    case Sms => "sms"
  }

  /** The durable queue each channel publishes to and consumes from. */
  function QueueName(ch: Channel): string {
    match ch
    case Email => "email_notifications"
    case Push => "push_notifications"
    case Sms => "sms_notifications"
  }

  /** The object a POST handler builds from the request body, saves and
      publishes: {type, recipient, message}, plus `media` on the push route.
      It has no id key. */
  datatype Notification = Notification(kind: Channel, recipient: string, message: string, media: Option<string>)

  /** The fields a POST handler reads from the JSON request body. */
  datatype Request = Request(recipient: string, message: string, media: Option<string>)

  /** Message content as the broker holds it: a JSON-encoded notification, or
      bytes that JSON.parse rejects, with the SyntaxError's message. */
  datatype Body = Json(notification: Notification) | Malformed(reason: string)

  /** A message in a queue, with the `persistent` publish option. */
  datatype Message = Message(content: Body, persistent: bool)

  /** What a consumer callback receives: the delivery tag it acks with, and the content. */
  datatype Delivery = Delivery(tag: nat, content: Body)

  /** A row of the `notifications` table: type, recipient, message, status,
      created_at and updated_at (the SERIAL id is the table's key). */
  datatype Row = Row(kind: string, recipient: string, message: string, status: string, createdAt: int, updatedAt: int)

  const Pending: string := "pending"
  const Sent: string := "sent"

  /** The answer of an external call that either returns or throws. */
  datatype Attempt = Succeeds | Fails(message: string)

  /** The answer of a pooled database call: `pool.connect()` throws, or the
      query throws, or both succeed. */
  datatype DbOutcome = Completes | ConnectFails(message: string) | QueryFails(message: string)

  /** An error thrown out of a service method, with the text the method
      logged at error level before rethrowing it (None: it logged nothing). */
  datatype Thrown = Thrown(message: string, loggedAs: Option<string>)

  /** The settlement of an async service method: its value, or what it threw. */
  datatype Result<T> = Ok(value: T) | Err(error: Thrown)

  /** An HTTP response: status code and text body. */
  datatype Response = Response(status: int, text: string)

  /** How a consumer callback ends: it ignored a null message, acked, caught
      and logged an error (with the log's context and the error's message),
      or let an exception escape (no log line of its own, no ack). */
  datatype Disposition =
    | Skipped
    | Acked
    | Caught(context: string, message: string)
    | Escaped(message: string)

  /** JSON.parse of a message's content. */
  function Parse(b: Body): (r: Result<Notification>)
    ensures r.Ok? <==> b.Json?
    ensures b.Json? ==> r.value == b.notification
  {
    match b
    case Json(n) => Ok(n)
    case Malformed(reason) => Err(Thrown(reason, None))
  }
}
