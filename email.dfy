/** The email service: the mail options `sendEmail` hands to the transport,
    what `sendEmail` does with the transport's answer, and the service's
    consumer callback. The transport itself is an Attempt passed in. */
module Email {
  import opened Model
  import opened Store
  import opened Queue

  /** The mail options object given to `transporter.sendMail`. */
  datatype Mail = Mail(from: string, to: string, subject: string, text: string)

  const Subject: string := "Notification"

  function MailOptions(sender: string, n: Notification): Mail {
    Mail(sender, n.recipient, Subject, n.message)
  }

  const SendingFailed: string := "Error sending email: "

  /** What `sendEmail` settles to once the transport has answered: it
      completes, or it logs the transport's error and rethrows it. */
  function Delivered(transport: Attempt): (r: Result<()>)
    ensures r.Ok? <==> transport.Succeeds?
    ensures r.Err? ==> r.error.message == transport.message
    ensures r.Err? ==> r.error.loggedAs == Some(SendingFailed + transport.message)
  {
    match transport
    case Succeeds => Ok(())
    case Fails(m) => Err(Thrown(m, Some(SendingFailed + m)))
  }

  const ProcessingFailed: string := "Failed to process email notification:"

  /** How the consumer callback of the email service ends for message `msg`,
      given the transport's answer and the outcome of the status update. */
  function OnMessage(msg: Option<Delivery>, transport: Attempt, update: DbOutcome): (d: Disposition)
    ensures d.Skipped? <==> msg.None?
    ensures d.Escaped? <==> msg.Some? && msg.value.content.Malformed?
    ensures d.Acked? <==> msg.Some? && msg.value.content.Json? && transport.Succeeds? && update.Completes?
    ensures d.Caught? ==> d.context == ProcessingFailed
    ensures d.Caught? && transport.Fails? ==> d.message == transport.message
  {
    match msg
    case None => Skipped
    case Some(delivery) =>
      match Parse(delivery.content)
      case Err(e) => Escaped(e.message)
      case Ok(_) =>
        match Delivered(transport)
        case Err(e) => Caught(ProcessingFailed, e.message)
        case Ok(_) =>
          if !update.Completes? then Caught(ProcessingFailed, update.message) else Acked
  }

  class EmailService {
    const store: PgStore
    const broker: Broker
    /** EMAIL_SERVICE_CONFIG.auth.user, the address mail is sent from. */
    const sender: string

    constructor (store: PgStore, broker: Broker, sender: string)
      ensures this.store == store && this.broker == broker && this.sender == sender
    {
      this.store := store;
      this.broker := broker;
      this.sender := sender;
    }

    /** `sendEmail({recipient, message})`: `mail` is what it hands to the
        transport, whose answer is `transport`. */
    method SendEmail(n: Notification, transport: Attempt) returns (mail: Mail, r: Result<()>)
      ensures mail.from == sender && mail.to == n.recipient
      ensures mail.subject == Subject && mail.text == n.message
      ensures r.Ok? <==> transport.Succeeds?
      ensures r.Err? ==> r.error == Thrown(transport.message, Some(SendingFailed + transport.message))
    {
      mail := MailOptions(sender, n);
      r := Delivered(transport);
    }

    /** The consumer callback registered in `initializeRabbitMQ`. The parsed
        object has no id, so its status update is bound to NULL and matches
        no row: the table is left as it was. */
    method Consume(msg: Option<Delivery>, transport: Attempt, updateAt: int, update: DbOutcome) returns (d: Disposition)
      requires store.db.Valid()
      modifies store.pool, store.db, broker
      ensures d == OnMessage(msg, transport, update)
      ensures store.db.Valid() && store.db.Snapshot() == old(store.db.Snapshot())
      ensures store.pool.borrowed == old(store.pool.borrowed)
      ensures broker.queues == old(broker.queues)
      ensures broker.acked == if d.Acked? then old(broker.acked) + {msg.value.tag} else old(broker.acked)
    {
      if msg.None? {
        return Skipped;
      }
      var delivery := msg.value;
      // JSON.parse runs before the try block
      var parsed := Parse(delivery.content);
      if parsed.Err? {
        return Escaped(parsed.error.message);
      }
      var notification := parsed.value;
      var mail, sent := SendEmail(notification, transport);
      if sent.Err? {
        return Caught(ProcessingFailed, sent.error.message);
      }
      // `notification.id` is undefined
      var updated := store.UpdateNotificationStatus(None, Sent, updateAt, update);
      if updated.Err? {
        return Caught(ProcessingFailed, updated.error.message);
      }
      broker.Ack(delivery.tag);
      d := Acked;
    }
  }
}
