/** The notification pipeline as a sequential state machine. The shared
    state (World) is the table, the broker's queues and acknowledged tags,
    and the state of app.js's module-level `channel`. Each
    handler of app.js, and each service consumer, is one step over it. The
    lemmas at the end show what holds after any sequence of steps: only
    "pending" and "sent" are ever written, and every queued message is a
    notification for that queue's channel whose row was saved first. */
module Pipeline {
  import opened Model
  import opened Store
  import opened Queue
  import Email
  import Sms

  /** The state of app.js's module-level `channel`: never assigned, open, or
      assigned but since closed by the broker. */
  datatype ChannelState = Undefined | Open | Closed

  datatype World = World(table: Table, queues: map<string, seq<Message>>, acked: set<nat>, channel: ChannelState)

  /** Before anything has run: an empty table, no queues, `channel` undefined. */
  function Initial(): World {
    World(Table(map[], 1), map[], {}, Undefined)
  }

  /** The queues declared by the first `count` of app.js's three assertQueue
      calls, which run in the order email, push, SMS. */
  function Asserted(count: nat): set<string> {
    if count == 0 then {}
    else if count == 1 then {QueueName(Email)}
    else if count == 2 then {QueueName(Email), QueueName(Push)}
    else {QueueName(Email), QueueName(Push), QueueName(Sms)}
  }

  /** `connectToRabbitMQ()`: `connected` says whether connect and createChannel
      succeeded (only then is `channel` assigned); `assertsOk` how many of the
      three assertQueue calls succeed before one is rejected. A rejected
      assertQueue is a channel error, upon which the broker closes the
      channel; the consumers are registered only when all three succeed. */
  function Connect(w: World, connected: bool, assertsOk: nat): (r: World)
    ensures r.table == w.table && r.acked == w.acked
    ensures !connected ==> r == w
    ensures connected ==> r.channel == if assertsOk >= 3 then Open else Closed
    ensures connected ==> r.queues.Keys == w.queues.Keys + Asserted(assertsOk)
    ensures forall q :: q in w.queues ==> q in r.queues && r.queues[q] == w.queues[q]
    ensures forall q :: q in r.queues && q !in w.queues ==> r.queues[q] == []
    ensures connected && assertsOk >= 3 ==> forall ch: Channel :: QueueName(ch) in r.queues
  {
    if !connected then w
    else
      var declared1 := if assertsOk > 0 then Declare(w.queues, QueueName(Email)) else w.queues;
      var declared2 := if assertsOk > 1 then Declare(declared1, QueueName(Push)) else declared1;
      var declared3 := if assertsOk > 2 then Declare(declared2, QueueName(Sms)) else declared2;
      w.(channel := if assertsOk > 2 then Open else Closed, queues := declared3)
  }

  /** The notification object a POST handler builds; only /push copies `media`. */
  function NotificationFor(ch: Channel, req: Request): Notification {
    Notification(ch, req.recipient, req.message, if ch == Push then req.media else None)
  }

  function Confirmation(ch: Channel): string {
    match ch
    case Email => "Email notification queued successfully"
    case Push => "Push notification queued successfully"
    case Sms => "SMS notification queued successfully"
  }

  function FailurePrefix(ch: Channel): string {
    match ch
    case Email => "Failed to queue email notification: "
    case Push => "Failed to queue push notification: "
    case Sms => "Failed to queue SMS notification: "
  }

  /** The TypeError thrown by `channel.sendToQueue` while `channel` is undefined. */
  const ChannelUndefined: string := "Cannot read properties of undefined (reading 'sendToQueue')"

  /** amqplib's IllegalOperationError from `sendToQueue` on a closed channel. */
  const ChannelClosed: string := "Channel closed"

  /** Whether `channel.sendToQueue` returns or throws: it throws while
      `channel` is undefined or closed, and on an open channel exactly when
      the broker connection fails under it (`publish`). */
  function Sending(c: ChannelState, publish: Attempt): Result<()> {
    match c
    case Undefined => Err(Thrown(ChannelUndefined, None))
    case Closed => Err(Thrown(ChannelClosed, None))
    case Open => if publish.Succeeds? then Ok(()) else Err(Thrown(publish.message, None))
  }

  /** What a POST handler does once `n` is saved as row `id` of `w.table`:
      publish it, set the row to "sent", answer 200; whatever throws first
      turns into a 500 carrying its message. */
  function Enqueue(w: World, ch: Channel, n: Notification, id: int, updateAt: int, publish: Attempt, update: DbOutcome)
    : (World, Response)
  {
    var sent := Sending(w.channel, publish);
    if sent.Err? then
      (w, Response(500, FailurePrefix(ch) + sent.error.message))
    else
      var queues := Publish(w.queues, QueueName(ch), Message(Json(n), true));
      var (updated, done) := Update(w.table, Some(id), Sent, updateAt, update);
      if done.Err? then
        (w.(table := updated, queues := queues), Response(500, FailurePrefix(ch) + done.error.message))
      else
        (w.(table := updated, queues := queues), Response(200, Confirmation(ch)))
  }

  /** The POST handler of channel `ch`: save the notification as "pending",
      publish it to the channel's queue, set its row to "sent", answer 200;
      whatever throws first turns into a 500 carrying its message. */
  function Ingest(w: World, ch: Channel, req: Request, saveAt: int, updateAt: int,
                  save: DbOutcome, publish: Attempt, update: DbOutcome)
    : (r: (World, Response))
    requires w.table.Valid()
    ensures r.0.table.Valid()
    ensures r.0.acked == w.acked && r.0.channel == w.channel
    // publishing happens only once the row is saved, and only to the channel's queue
    ensures r.0.queues ==
      if save.Completes? && w.channel == Open && publish.Succeeds?
      then Publish(w.queues, QueueName(ch), Message(Json(NotificationFor(ch, req)), true))
      else w.queues
    // exactly one row is added, and only when the save succeeds; no other row changes
    ensures r.0.table.rows.Keys == w.table.rows.Keys + (if save.Completes? then {w.table.nextId} else {})
    ensures forall id :: id in w.table.rows ==> r.0.table.rows[id] == w.table.rows[id]
    ensures save.Completes? ==>
      var row := r.0.table.rows[w.table.nextId];
      var delivered := w.channel == Open && publish.Succeeds? && update.Completes?;
      && w.table.nextId !in w.table.rows
      && row.kind == TypeName(ch) && row.recipient == req.recipient && row.message == req.message
      && row.createdAt == saveAt
      && row.status == (if delivered then Sent else Pending)
      && row.updatedAt == (if delivered then updateAt else saveAt)
    // the response
    ensures r.1.status == 200 <==> save.Completes? && w.channel == Open && publish.Succeeds? && update.Completes?
    ensures r.1.status == 200 ==> r.1.text == Confirmation(ch)
    ensures r.1.status != 200 ==> r.1.status == 500
    ensures !save.Completes? ==> r.0 == w && r.1.text == FailurePrefix(ch) + save.message
    ensures save.Completes? && w.channel == Undefined ==> r.1.text == FailurePrefix(ch) + ChannelUndefined
    ensures save.Completes? && w.channel == Closed ==> r.1.text == FailurePrefix(ch) + ChannelClosed
    ensures save.Completes? && w.channel == Open && publish.Fails? ==> r.1.text == FailurePrefix(ch) + publish.message
    ensures save.Completes? && w.channel == Open && publish.Succeeds? && !update.Completes? ==>
      r.1.text == FailurePrefix(ch) + update.message
  {
    var n := NotificationFor(ch, req);
    var (saved, id) := Save(w.table, n, Pending, saveAt, save);
    if id.Err? then
      (w.(table := saved), Response(500, FailurePrefix(ch) + id.error.message))
    else
      Enqueue(w.(table := saved), ch, n, id.value, updateAt, publish, update)
  }

  /** The TypeError thrown by `msg.content` when the broker passes a null message. */
  const NullMessage: string := "Cannot read properties of null (reading 'content')"

  function CatchContext(ch: Channel): string {
    match ch
    case Email => "Failed to process Email:"
    case Push => "Failed to process Push:"
    case Sms => "Failed to process SMS:"
  }

  /** What the send call of an app.js consumer settles to: `sendEmail` given
      the transport's answer, `sendSMS` on the recipient, and the push
      service's `sendPushNotification`, whose answer is passed in. */
  function SendOutcome(ch: Channel, n: Notification, send: Attempt): (r: Result<()>)
    ensures ch == Sms ==> (r.Ok? <==> Sms.PhoneNumber(n.recipient))
    ensures ch != Sms ==> (r.Ok? <==> send.Succeeds?)
    ensures r.Err? && ch != Sms ==> r.error.message == send.message
  {
    match ch
    case Email => Email.Delivered(send)
    case Sms => Sms.SendSMS(n)
    case Push => if send.Succeeds? then Ok(()) else Err(Thrown(send.message, None))
  }

  /** How the app.js consumer of channel `ch` ends for message `msg`. The
      email and SMS callbacks parse inside their try block; the push callback
      parses before it. None of them checks for a null message. */
  function AppConsume(ch: Channel, msg: Option<Delivery>, send: Attempt): (d: Disposition)
    ensures d.Acked? <==>
      msg.Some? && msg.value.content.Json? && SendOutcome(ch, msg.value.content.notification, send).Ok?
    ensures d.Escaped? <==> msg.None? || (ch == Push && msg.value.content.Malformed?)
    ensures d.Caught? ==> d.context == CatchContext(ch)
    ensures !d.Skipped?
  {
    match msg
    case None => Escaped(NullMessage)
    case Some(delivery) =>
      match Parse(delivery.content)
      case Err(e) => if ch == Push then Escaped(e.message) else Caught(CatchContext(ch), e.message)
      case Ok(n) =>
        match SendOutcome(ch, n, send)
        case Err(e) => Caught(CatchContext(ch), e.message)
        case Ok(_) => Acked
  }

  /** The effect of a consumer's ending on the broker: the tag is acked only on Acked. */
  function Acknowledge(w: World, msg: Option<Delivery>, d: Disposition): World {
    if d.Acked? && msg.Some? then w.(acked := w.acked + {msg.value.tag}) else w
  }

  /** The consumers of the two service files shown. */
  datatype Worker = EmailWorker | SmsWorker

  function WorkerConsume(worker: Worker, msg: Option<Delivery>, send: Attempt, update: DbOutcome): Disposition {
    match worker
    case EmailWorker => Email.OnMessage(msg, send, update)
    case SmsWorker => Sms.OnMessage(msg, update)
  }

  /** Whether a service consumer gets as far as its status update: the
      message is there, parses, and its send completes. */
  function ReachesUpdate(worker: Worker, msg: Option<Delivery>, send: Attempt): bool {
    && msg.Some? && msg.value.content.Json?
    && match worker
       case EmailWorker => Email.Delivered(send).Ok?
       case SmsWorker => Sms.SendSMS(msg.value.content.notification).Ok?
  }

  /** One sequential step of the system. */
  datatype Event =
    | Connected(connected: bool, assertsOk: nat)
    | Posted(ch: Channel, req: Request, saveAt: int, updateAt: int, save: DbOutcome, publish: Attempt, update: DbOutcome)
    | AppReceived(channel: Channel, msg: Option<Delivery>, send: Attempt)
    | WorkerReceived(worker: Worker, delivery: Option<Delivery>, transport: Attempt, statusAt: int, status: DbOutcome)

  function Step(w: World, e: Event): (r: World)
    requires w.table.Valid()
    ensures r.table.Valid()
  {
    match e
    case Connected(connected, assertsOk) => Connect(w, connected, assertsOk)
    case Posted(ch, req, saveAt, updateAt, save, publish, update) =>
      Ingest(w, ch, req, saveAt, updateAt, save, publish, update).0
    case AppReceived(ch, msg, send) =>
      // app.js registers its consumers only once all three queues are asserted
      if w.channel == Open then Acknowledge(w, msg, AppConsume(ch, msg, send)) else w
    case WorkerReceived(worker, msg, send, updateAt, update) =>
      // the parsed object has no id, so the update is bound to NULL
      var table := if ReachesUpdate(worker, msg, send) then Update(w.table, None, Sent, updateAt, update).0 else w.table;
      Acknowledge(w.(table := table), msg, WorkerConsume(worker, msg, send, update))
  }

  function Run(w: World, events: seq<Event>): (r: World)
    requires w.table.Valid()
    ensures r.table.Valid()
    decreases |events|
  {
    if events == [] then w else Run(Step(w, events[0]), events[1..])
  }

  /** The row was saved from notification `n` (its status aside). */
  ghost predicate Describes(row: Row, n: Notification) {
    row.kind == TypeName(n.kind) && row.recipient == n.recipient && row.message == n.message
  }

  /** Message `m` in queue `q` came from a POST handler: a persistent JSON
      notification of the queue's own channel, with a saved row. */
  ghost predicate Backed(t: Table, q: string, m: Message) {
    && m.content.Json? && m.persistent
    && q == QueueName(m.content.notification.kind)
    && exists id :: id in t.rows && Describes(t.rows[id], m.content.notification)
  }

  ghost predicate Consistent(w: World) {
    && w.table.Valid()
    && (forall id :: id in w.table.rows ==> w.table.rows[id].status in {Pending, Sent})
    && (forall q, i :: q in w.queues && 0 <= i < |w.queues[q]| ==> Backed(w.table, q, w.queues[q][i]))
  }

  /** Every row of `t` is still in `t'` with the same type, recipient and message. */
  ghost predicate Keeps(t: Table, t': Table) {
    forall id :: id in t.rows ==>
      && id in t'.rows
      && t'.rows[id].kind == t.rows[id].kind
      && t'.rows[id].recipient == t.rows[id].recipient
      && t'.rows[id].message == t.rows[id].message
  }

  lemma BackedPersists(t: Table, t': Table, q: string, m: Message)
    requires Backed(t, q, m) && Keeps(t, t')
    ensures Backed(t', q, m)
  {
    var id :| id in t.rows && Describes(t.rows[id], m.content.notification);
    assert id in t'.rows && Describes(t'.rows[id], m.content.notification);
  }

  lemma InitialIsConsistent()
    ensures Consistent(Initial())
  {
  }

  lemma IngestKeepsConsistent(w: World, ch: Channel, req: Request, saveAt: int, updateAt: int,
                              save: DbOutcome, publish: Attempt, update: DbOutcome)
    requires Consistent(w)
    ensures Consistent(Ingest(w, ch, req, saveAt, updateAt, save, publish, update).0)
    ensures Keeps(w.table, Ingest(w, ch, req, saveAt, updateAt, save, publish, update).0.table)
  {
    var r := Ingest(w, ch, req, saveAt, updateAt, save, publish, update).0;
    var n := NotificationFor(ch, req);
    var m := Message(Json(n), true);
    assert Keeps(w.table, r.table);
    forall q, i | q in r.queues && 0 <= i < |r.queues[q]|
      ensures Backed(r.table, q, r.queues[q][i])
    {
      if q in w.queues && i < |w.queues[q]| {
        assert r.queues[q][i] == w.queues[q][i];
        BackedPersists(w.table, r.table, q, w.queues[q][i]);
      } else {
        assert r.queues[q][i] == m && q == QueueName(ch);
        assert Describes(r.table.rows[w.table.nextId], n);
      }
    }
  }

  /** A service consumer's update, bound to NULL, leaves the table as it was. */
  lemma WorkersLeaveTableAlone(w: World, worker: Worker, msg: Option<Delivery>, send: Attempt, updateAt: int, update: DbOutcome)
    requires w.table.Valid()
    ensures Update(w.table, None, Sent, updateAt, update).0 == w.table
    ensures Step(w, WorkerReceived(worker, msg, send, updateAt, update)).table == w.table
  {
    var t := Update(w.table, None, Sent, updateAt, update).0;
    assert t.rows == w.table.rows;
  }

  lemma StepKeepsConsistent(w: World, e: Event)
    requires Consistent(w)
    ensures Consistent(Step(w, e))
    ensures Keeps(w.table, Step(w, e).table) && w.acked <= Step(w, e).acked
  {
    match e
    case Connected(connected, assertsOk) =>
    case Posted(ch, req, saveAt, updateAt, save, publish, update) =>
      IngestKeepsConsistent(w, ch, req, saveAt, updateAt, save, publish, update);
    case AppReceived(ch, msg, send) =>
    case WorkerReceived(worker, msg, send, updateAt, update) =>
      WorkersLeaveTableAlone(w, worker, msg, send, updateAt, update);
  }

  /** After any sequence of steps from a consistent state, the state is
      consistent, no row has disappeared or changed its type, recipient or
      message, and no acknowledgement has been taken back. */
  lemma {:induction false} RunKeepsConsistent(w: World, events: seq<Event>)
    requires Consistent(w)
    ensures Consistent(Run(w, events))
    ensures Keeps(w.table, Run(w, events).table) && w.acked <= Run(w, events).acked
    decreases |events|
  {
    if events != [] {
      var next := Step(w, events[0]);
      StepKeepsConsistent(w, events[0]);
      RunKeepsConsistent(next, events[1..]);
    }
  }

  /** The code never writes any status but "pending" and "sent" (in particular never "failed"). */
  lemma OnlyPendingOrSent(events: seq<Event>, id: int)
    requires id in Run(Initial(), events).table.rows
    ensures Run(Initial(), events).table.rows[id].status in {Pending, Sent}
  {
    InitialIsConsistent();
    RunKeepsConsistent(Initial(), events);
  }

  /** Nothing is ever published without a saved row: every message queued
      from the start is a notification of the queue's channel with a row. */
  lemma QueuedMessagesAreSaved(events: seq<Event>, q: string, i: int)
    requires q in Run(Initial(), events).queues && 0 <= i < |Run(Initial(), events).queues[q]|
    ensures Backed(Run(Initial(), events).table, q, Run(Initial(), events).queues[q][i])
  {
    InitialIsConsistent();
    RunKeepsConsistent(Initial(), events);
  }

  /** What a POST handler publishes is what the consumer of its queue reads:
      the queue grows by one message exactly when the save and the publish
      succeed, that message parses back to the handler's notification, and
      the app.js consumer acks it exactly when sending that notification
      succeeds. */
  lemma ConsumerReadsWhatWasPublished(w: World, ch: Channel, req: Request, saveAt: int, updateAt: int,
                                      save: DbOutcome, publish: Attempt, update: DbOutcome, tag: nat, send: Attempt)
    requires w.table.Valid() && QueueName(ch) in w.queues
    ensures
      var before := w.queues[QueueName(ch)];
      var after := Ingest(w, ch, req, saveAt, updateAt, save, publish, update).0.queues[QueueName(ch)];
      && |after| == |before| + (if save.Completes? && w.channel == Open && publish.Succeeds? then 1 else 0)
      && after[..|before|] == before
      && forall i :: |before| <= i < |after| ==>
           && Parse(after[i].content) == Ok(NotificationFor(ch, req))
           && (AppConsume(ch, Some(Delivery(tag, after[i].content)), send).Acked?
               <==> SendOutcome(ch, NotificationFor(ch, req), send).Ok?)
  {
  }

  /** Every message the consumer of a queue can be handed, after any run from
      the start, parses to a notification of that queue's own channel: the
      parse that the push callback runs outside its try block never throws on
      it, and the consumer acks it exactly when sending it succeeds. */
  lemma QueuedMessagesParse(events: seq<Event>, ch: Channel, i: int, tag: nat, send: Attempt)
    requires QueueName(ch) in Run(Initial(), events).queues && 0 <= i < |Run(Initial(), events).queues[QueueName(ch)]|
    ensures
      var m := Run(Initial(), events).queues[QueueName(ch)][i];
      var d := AppConsume(ch, Some(Delivery(tag, m.content)), send);
      && Parse(m.content).Ok? && Parse(m.content).value.kind == ch
      && !d.Escaped?
      && (d.Acked? <==> SendOutcome(ch, Parse(m.content).value, send).Ok?)
  {
    QueuedMessagesAreSaved(events, QueueName(ch), i);
    var m := Run(Initial(), events).queues[QueueName(ch)][i];
    var kind := m.content.notification.kind;
    assert QueueName(kind) == QueueName(ch);
    assert kind == ch by {
      assert QueueName(Email) != QueueName(Push) && QueueName(Push) != QueueName(Sms) && QueueName(Sms) != QueueName(Email);
    }
  }

  /** A consumer acks only a message it received, parsed and sent, and only
      once it is registered: app.js's consumers while its channel is open,
      the service workers once their status update succeeded too. */
  lemma AckOnlyAfterEverySuccess(w: World, e: Event)
    requires w.table.Valid() && (e.AppReceived? || e.WorkerReceived?)
    ensures Step(w, e).acked != w.acked ==> (
      match e
      case AppReceived(ch, msg, send) =>
        w.channel == Open && msg.Some? && msg.value.content.Json?
          && SendOutcome(ch, msg.value.content.notification, send).Ok?
      case WorkerReceived(worker, msg, send, updateAt, update) =>
        msg.Some? && msg.value.content.Json? && update.Completes?
          && (if worker == EmailWorker then send.Succeeds? else Sms.PhoneNumber(msg.value.content.notification.recipient))
      case _ => false)
  {
  }
}
