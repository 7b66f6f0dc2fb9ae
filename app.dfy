/** app.js: the module-level `channel`, the three POST handlers and the three
    consumer callbacks, over the services' pools, the shared table and the
    broker. Each method is proved to perform the step of the Pipeline state
    machine it stands for, and to hand every borrowed pool client back. */
module Application {
  import opened Model
  import opened Store
  import opened Queue
  import Email
  import Sms
  import Pipeline

  /** The push service (its source file is not part of this model): like the
      other services it holds its own pool onto the shared table; its
      `sendPushNotification` is an external call whose answer is passed in. */
  class PushService {
    const store: PgStore

    constructor (store: PgStore)
      ensures this.store == store
    {
      this.store := store;
    }
  }

  class App {
    /** The module-level `channel`. */
    var channel: Pipeline.ChannelState
    const db: Database
    const broker: Broker
    const email: Email.EmailService
    const sms: Sms.SmsService
    const push: PushService

    /** All three services reach the same table through pools of their own,
        and the email and SMS services share the app's broker. */
    ghost predicate Valid()
      reads this, db
    {
      && email.store.db == db && sms.store.db == db && push.store.db == db
      && email.broker == broker && sms.broker == broker
      && email.store.pool != sms.store.pool
      && email.store.pool != push.store.pool
      && sms.store.pool != push.store.pool
      && db.Valid()
    }

    ghost function Snapshot(): Pipeline.World
      reads this, db, broker
    {
      Pipeline.World(db.Snapshot(), broker.queues, broker.acked, channel)
    }

    /** The clients each service's pool has handed out. */
    ghost function Borrowed(): (nat, nat, nat)
      reads email.store.pool, sms.store.pool, push.store.pool
    {
      (email.store.pool.borrowed, sms.store.pool.borrowed, push.store.pool.borrowed)
    }

    constructor (sender: string)
      ensures Valid() && fresh(db) && fresh(broker)
      ensures Snapshot() == Pipeline.Initial()
      ensures Borrowed() == (0, 0, 0)
      ensures email.sender == sender
    {
      var database := new Database();
      var b := new Broker();
      var emailStore := new PgStore(database);
      var smsStore := new PgStore(database);
      var pushStore := new PgStore(database);
      db := database;
      broker := b;
      email := new Email.EmailService(emailStore, b, sender);
      sms := new Sms.SmsService(smsStore, b);
      push := new PushService(pushStore);
      channel := Pipeline.Undefined;
    }

    /** The service whose pool the handler of channel `ch` uses. */
    function StoreFor(ch: Channel): PgStore {
      match ch
      case Email => email.store
      case Push => push.store
      case Sms => sms.store
    }

    /** `connectToRabbitMQ()`. */
    method ConnectToRabbitMQ(connected: bool, assertsOk: nat)
      requires Valid()
      modifies this, broker
      ensures Valid()
      ensures Snapshot() == Pipeline.Connect(old(Snapshot()), connected, assertsOk)
    {
      if !connected {
        return;
      }
      channel := Pipeline.Open;
      // the broker closes the channel on a rejected assertQueue
      if assertsOk == 0 {
        channel := Pipeline.Closed;
        return;
      }
      broker.AssertQueue(QueueName(Email));
      if assertsOk == 1 {
        channel := Pipeline.Closed;
        return;
      }
      broker.AssertQueue(QueueName(Push));
      if assertsOk == 2 {
        channel := Pipeline.Closed;
        return;
      }
      broker.AssertQueue(QueueName(Sms));
    }

    /** `channel.sendToQueue(name, m, {persistent: true})`: it throws while
        `channel` is undefined or closed, or when the broker connection fails
        under it (`publish`); otherwise the broker routes the message. */
    method SendToChannel(name: string, m: Message, publish: Attempt) returns (r: Result<()>)
      modifies broker
      ensures r == Pipeline.Sending(channel, publish)
      ensures broker.queues == if r.Ok? then Publish(old(broker.queues), name, m) else old(broker.queues)
      ensures broker.acked == old(broker.acked)
    {
      r := Pipeline.Sending(channel, publish);
      if r.Ok? {
        broker.SendToQueue(name, m);
      }
    }

    /** The rest of the POST handler of channel `ch` once `n` is saved as row
        `id`: publish, mark the row "sent", answer. */
    method Enqueue(ch: Channel, n: Notification, id: int, updateAt: int, publish: Attempt, update: DbOutcome)
      returns (resp: Response)
      requires Valid()
      modifies db, StoreFor(ch).pool, broker
      ensures Valid()
      ensures StoreFor(ch).pool.borrowed == old(StoreFor(ch).pool.borrowed)
      ensures (Snapshot(), resp) == Pipeline.Enqueue(old(Snapshot()), ch, n, id, updateAt, publish, update)
    {
      var store := StoreFor(ch);
      var sending := SendToChannel(QueueName(ch), Message(Json(n), true), publish);
      if sending.Err? {
        return Response(500, Pipeline.FailurePrefix(ch) + sending.error.message);
      }
      var done := store.UpdateNotificationStatus(Some(id), Sent, updateAt, update);
      if done.Err? {
        return Response(500, Pipeline.FailurePrefix(ch) + done.error.message);
      }
      resp := Response(200, Pipeline.Confirmation(ch));
    }

    /** The POST handler of channel `ch` (/email, /push or /sms). */
    method Post(ch: Channel, req: Request, saveAt: int, updateAt: int, save: DbOutcome, publish: Attempt, update: DbOutcome)
      returns (resp: Response)
      requires Valid()
      modifies db, broker, email.store.pool, sms.store.pool, push.store.pool
      ensures Valid()
      ensures Borrowed() == old(Borrowed())
      ensures (Snapshot(), resp) == Pipeline.Ingest(old(Snapshot()), ch, req, saveAt, updateAt, save, publish, update)
    {
      var notification := Pipeline.NotificationFor(ch, req);
      var store := StoreFor(ch);
      assert store.pool in {email.store.pool, sms.store.pool, push.store.pool};
      var id := store.SaveNotificationToDB(notification, Pending, saveAt, save);
      if id.Err? {
        return Response(500, Pipeline.FailurePrefix(ch) + id.error.message);
      }
      resp := Enqueue(ch, notification, id.value, updateAt, publish, update);
    }

    /** The email consumer callback of `consumeMessages`. */
    method ConsumeEmail(msg: Option<Delivery>, transport: Attempt) returns (d: Disposition)
      requires Valid() && channel == Pipeline.Open
      modifies broker
      ensures d == Pipeline.AppConsume(Email, msg, transport)
      ensures Snapshot() == Pipeline.Step(old(Snapshot()), Pipeline.AppReceived(Email, msg, transport))
    {
      if msg.None? {
        // `msg.content` is read before the try block
        return Escaped(Pipeline.NullMessage);
      }
      var delivery := msg.value;
      var parsed := Parse(delivery.content);
      if parsed.Err? {
        return Caught(Pipeline.CatchContext(Email), parsed.error.message);
      }
      var mail, sent := email.SendEmail(parsed.value, transport);
      if sent.Err? {
        return Caught(Pipeline.CatchContext(Email), sent.error.message);
      }
      broker.Ack(delivery.tag);
      d := Acked;
    }

    /** The SMS consumer callback of `consumeMessages`; `sendSMS` makes no
        external call, so the outcome passed to the specification is unused. */
    method ConsumeSms(msg: Option<Delivery>) returns (d: Disposition)
      requires Valid() && channel == Pipeline.Open
      modifies broker
      ensures d == Pipeline.AppConsume(Sms, msg, Succeeds)
      ensures Snapshot() == Pipeline.Step(old(Snapshot()), Pipeline.AppReceived(Sms, msg, Succeeds))
    {
      if msg.None? {
        return Escaped(Pipeline.NullMessage);
      }
      var delivery := msg.value;
      var parsed := Parse(delivery.content);
      if parsed.Err? {
        return Caught(Pipeline.CatchContext(Sms), parsed.error.message);
      }
      var sent := Sms.SendSMS(parsed.value);
      if sent.Err? {
        return Caught(Pipeline.CatchContext(Sms), sent.error.message);
      }
      broker.Ack(delivery.tag);
      d := Acked;
    }

    /** The push consumer callback of `consumeMessages`; it parses before its
        try block. */
    method ConsumePush(msg: Option<Delivery>, send: Attempt) returns (d: Disposition)
      requires Valid() && channel == Pipeline.Open
      modifies broker
      ensures d == Pipeline.AppConsume(Push, msg, send)
      ensures Snapshot() == Pipeline.Step(old(Snapshot()), Pipeline.AppReceived(Push, msg, send))
    {
      if msg.None? {
        return Escaped(Pipeline.NullMessage);
      }
      var delivery := msg.value;
      var parsed := Parse(delivery.content);
      if parsed.Err? {
        return Escaped(parsed.error.message);
      }
      if send.Fails? {
        return Caught(Pipeline.CatchContext(Push), send.message);
      }
      broker.Ack(delivery.tag);
      d := Acked;
    }

    /** The email service's consumer callback, run on its own channel: one
        WorkerReceived step of the system, with the service's pool restored. */
    method EmailServiceReceives(msg: Option<Delivery>, transport: Attempt, updateAt: int, update: DbOutcome)
      returns (d: Disposition)
      requires Valid()
      modifies db, broker, email.store.pool
      ensures Valid() && Borrowed() == old(Borrowed())
      ensures d == Pipeline.WorkerConsume(Pipeline.EmailWorker, msg, transport, update)
      ensures Snapshot() == Pipeline.Step(old(Snapshot()), Pipeline.WorkerReceived(Pipeline.EmailWorker, msg, transport, updateAt, update))
    {
      ghost var before := Snapshot();
      Pipeline.WorkersLeaveTableAlone(before, Pipeline.EmailWorker, msg, transport, updateAt, update);
      d := email.Consume(msg, transport, updateAt, update);
    }

    /** The SMS service's consumer callback, run on its own channel: one
        WorkerReceived step of the system, with the service's pool restored. */
    method SmsServiceReceives(msg: Option<Delivery>, updateAt: int, update: DbOutcome) returns (d: Disposition)
      requires Valid()
      modifies db, broker, sms.store.pool
      ensures Valid() && Borrowed() == old(Borrowed())
      ensures d == Pipeline.WorkerConsume(Pipeline.SmsWorker, msg, Succeeds, update)
      ensures Snapshot() == Pipeline.Step(old(Snapshot()), Pipeline.WorkerReceived(Pipeline.SmsWorker, msg, Succeeds, updateAt, update))
    {
      ghost var before := Snapshot();
      Pipeline.WorkersLeaveTableAlone(before, Pipeline.SmsWorker, msg, Succeeds, updateAt, update);
      d := sms.Consume(msg, updateAt, update);
    }
  }
}
