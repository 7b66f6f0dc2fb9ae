# Notification microservice: a Dafny model of the ingress/queue/consumer pipeline

The service accepts POST /email, /push and /sms requests. Each handler saves a
notification row with status "pending" in the PostgreSQL table
`notifications`. It then publishes the notification to the channel's durable
RabbitMQ queue and overwrites the row's status with "sent" before answering
200. Any exception on the way answers 500 with "Failed to queue … notification:
<error message>". Consumer callbacks in app.js and in the email and SMS
service files parse each delivery, send it, and ack it. The service callbacks
also try to mark the row "sent" first.

The model keeps the libraries as abstract state. Their successes and failures
are parameters:

- **Table** (`Store`): a `map<int, Row>` keyed by SERIAL id plus the sequence's
  next value. The INSERT and UPDATE statements are the functions `InsertRow`
  and `SetStatusWhere`. The pg pool is a counter of borrowed clients.
- **Broker** (`Queue`): a `seq<Message>` per declared queue and the set of acked
  delivery tags.
- **Services** (`Store.PgStore`, `Email`, `Sms`, `Application.PushService`):
  classes whose methods borrow a client, run one statement and release the
  client on every path. The DB methods of the email and SMS services
  (service/email_service.js:42-101 and service/sms_service.js:30-90) are the
  same apart from an info log in `initializeDatabase` and the layout of its
  DDL. Both are modelled by the one class `PgStore`, and each service holds
  its own instance (its own pool) onto the one shared `Database`.
- **app.js** (`Application.App`): the module-level `channel`, the POST handlers
  and the three consumer callbacks. The service consumers are reached through
  the app's services.
- **State machine** (`Pipeline`): every handler and every consumer is one step
  over a `World`: the table, the queues, the acked tags, and the state of
  `channel` (undefined, open or closed). Each method of `Application.App` is
  proved to perform its step. Lemmas cover any sequence of steps.

Outcomes of external calls are values:
- `DbOutcome`: `pool.connect()` throws, the query throws, or both succeed.
- `Attempt`: the mail transport, the push service's send, and a publish on an
  open channel whose broker connection may fail under it.
- `Thrown(message, loggedAs)`: the error a service method rethrows, with the
  text it logged first. A failed `pool.connect()` sits outside the try block,
  so it is thrown unlogged.
- `Disposition`: how a consumer callback ends. It ignored a null message,
  acked, caught and logged an error, or let an exception escape.

Behaviour of the code as written that the model keeps:
- The handlers write "sent", never "queued", and no code writes "failed".
- The published object is `{type, recipient, message}`, plus `media` on /push.
  It carries no id. So the service consumers' `updateNotificationStatus(notification.id, "sent")`
  binds NULL, matches no row, and leaves the table as it was (`Pipeline.WorkersLeaveTableAlone`).
- While `channel` is undefined, `channel.sendToQueue` throws a TypeError. Once
  the broker has closed the channel (a rejected `assertQueue` is a channel
  error), it throws "Channel closed". In both cases the saved row stays
  "pending" and the response is 500. The app.js consumers are registered only
  when all three queues were asserted.
- The push callback in app.js and both service callbacks parse before their try
  block, so a malformed message escapes with no log line and no ack. The app.js
  callbacks never check for a null message.
- There is no requeue, no retry and no reject.

A hardened version would add a "queued" status, the id in the payload,
"failed" on delivery errors and bounded retry. The code has none of these, and
the model follows the code.

## Model

| member | source | states |
|---|---|---|
| Store.InsertRow | service/email_service.js:67-79 | the INSERT adds exactly one row, under a fresh id (the sequence's next value) that it returns, and leaves every existing row unchanged |
| Store.SetStatusWhere | service/email_service.js:91-94 | the UPDATE changes status and updated_at on the row whose id matches and on no other; with no matching id (or a NULL id) the table is unchanged |
| Store.Save | service/email_service.js:64-86 | saveNotificationToDB succeeds iff connect and query succeed; then exactly one new row holds the given type, recipient, message and status and its fresh id is returned; on failure the table is unchanged and the error is rethrown, logged only when the query (not the connect) failed |
| Store.Update | service/email_service.js:88-101 | updateNotificationStatus succeeds iff connect and query succeed; only the matching row changes; on failure the table is unchanged and the error is rethrown, logged only for a query failure |
| Store.Pool.Connect | service/email_service.js:65 | pool.connect hands out one client when the server is reachable and none otherwise |
| Store.Pool.Release | service/email_service.js:84 | client.release gives one borrowed client back |
| Store.Database.Insert | service/email_service.js:67-75 | executing the INSERT changes the table as InsertRow says |
| Store.Database.Update | service/email_service.js:91-94 | executing the UPDATE changes the table as SetStatusWhere says |
| Store.PgStore.InitializeDatabase | service/sms_service.js:30-51 | initializeDatabase returns its client on every path and rethrows every error, logged only when the query failed |
| Store.PgStore.SaveNotificationToDB | service/email_service.js:64-86 | the method returns its client on every path (borrowed count unchanged) and its effect and result are those of Save |
| Store.PgStore.UpdateNotificationStatus | service/email_service.js:88-101 | the method returns its client on every path and its effect and result are those of Update |
| Queue.Declare | app.js:28-30 | assertQueue makes the queue exist and keeps the messages of a queue that already exists |
| Queue.DeclareIsIdempotent | app.js:28-30 | asserting a queue twice is the same as asserting it once |
| Queue.Publish | app.js:50-54 | sendToQueue appends the message to the named queue only; every other queue is unchanged, and a message for an undeclared queue is dropped |
| Queue.Broker.AssertQueue | app.js:28 | the broker's queues become Declare of the old ones; acks unchanged |
| Queue.Broker.SendToQueue | app.js:50-54 | the broker's queues become Publish of the old ones; acks unchanged |
| Queue.Broker.Ack | app.js:118 | channel.ack adds the delivery tag to the acked set and leaves the queues alone |
| Sms.AllDigitsCons | service/sms_service.js:93 | a non-empty string is all ASCII digits iff its head is a digit and its tail is all digits |
| Sms.Scan | service/sms_service.js:93 | running the matcher of `^\+?\d+$` over a string ends in the accepting phase exactly when the string completes the pattern from the phase it started in; from the start, exactly when it is an optional single '+' followed by one or more ASCII digits |
| Sms.SendSMS | service/sms_service.js:92-100 | sendSMS completes iff the recipient is an optional leading '+' then one or more ASCII digits and nothing else; otherwise it throws "Invalid recipient" without logging |
| Sms.RecipientExamples | service/sms_service.js:93 | "+15551234567" and "42" are accepted; "", "+", "abc", "12a" and "++1" are rejected |
| Sms.OnMessage | service/sms_service.js:108-124 | the SMS service callback skips a null message, lets a parse error escape, and acks iff the message parses, the recipient is valid and the status update succeeds; an invalid recipient is caught as "Invalid recipient" with no ack |
| Sms.SmsService.Consume | service/sms_service.js:108-125 | the callback ends as OnMessage says, acks that delivery's tag only on Acked, leaves queues and table unchanged and returns its pooled client |
| Email.Delivered | service/email_service.js:111-117 | sendEmail completes iff the transport does; a transport error is logged as "Error sending email: …" and rethrown with the same message |
| Email.EmailService.SendEmail | service/email_service.js:103-118 | the mail handed to the transport is from the configured user, to the recipient, with subject "Notification" and the message as text; a transport failure is rethrown |
| Email.OnMessage | service/email_service.js:126-137 | the email service callback skips a null message, lets a parse error escape, and acks iff parse, send and the status update all succeed; errors are caught under "Failed to process email notification:" |
| Email.EmailService.Consume | service/email_service.js:126-138 | the callback ends as OnMessage says, acks that delivery's tag only on Acked, leaves queues and table unchanged (its update has no id) and returns its pooled client |
| Pipeline.Connect | app.js:23-36 | connectToRabbitMQ changes nothing unless connect and createChannel succeed; then `channel` is assigned, the queues declared are exactly those of the assertQueue calls that succeeded, in order, added to the existing ones with their messages kept, and the channel stays open only when all three succeed (a rejected assertQueue closes it) |
| Pipeline.Ingest | app.js:40-109 | a POST handler publishes only after the row is saved, only on an open channel whose publish goes through, and only to its channel's queue, with persistent set; it adds exactly one row only when the save succeeds and changes no other; the row ends "sent" only if publish and update both succeed, else stays "pending"; 200 iff save, publish and update succeed, else 500 with the channel's prefix and the first error's message (the TypeError for an undefined channel, "Channel closed" for a closed one) |
| Pipeline.SendOutcome | app.js:117 | the send step of an app.js consumer succeeds: for SMS iff the recipient is valid, for email and push iff the external call succeeds |
| Pipeline.AppConsume | app.js:111-151 | an app.js callback acks iff the message is non-null, parses and is sent; a null message, and a malformed one in the push callback, escape without a log line; other errors are caught under the channel's context |
| Pipeline.Step | app.js:40-151 | every step of the system keeps the table well-formed (ids below the sequence value) |
| Pipeline.Run | app.js:40-151 | any sequence of steps keeps the table well-formed |
| Pipeline.InitialIsConsistent | app.js:21 | the starting state (no rows, no queues, `channel` undefined) satisfies the pipeline invariant |
| Pipeline.IngestKeepsConsistent | app.js:40-109 | a POST handler keeps the invariant: statuses in {pending, sent}, every queued message a persistent notification of that queue's channel with a saved row; and it keeps every existing row's type, recipient and message |
| Pipeline.StepKeepsConsistent | app.js:40-151 | every kind of step keeps the invariant, keeps every row, and never takes back an ack |
| Pipeline.RunKeepsConsistent | app.js:40-151 | the invariant, row retention and ack monotonicity hold after any sequence of steps |
| Pipeline.OnlyPendingOrSent | app.js:47 | after any run from the start, every row's status is "pending" or "sent"; nothing ever writes "failed" or "queued" |
| Pipeline.QueuedMessagesAreSaved | app.js:45-54 | after any run from the start, every message in any queue is a notification of that queue's channel whose row was saved: nothing is published without a saved row |
| Pipeline.ConsumerReadsWhatWasPublished | app.js:50-54 | the message a POST handler appends (one, exactly when save and publish succeed, after the queue's earlier messages) parses back to the handler's notification, and the app.js consumer acks it exactly when sending that notification succeeds |
| Pipeline.QueuedMessagesParse | app.js:113-145 | after any run from the start, every message in a channel's queue parses to a notification of that channel, so no consumer meets a parse error (the push callback's parse outside its try block never throws) and it acks exactly when the send succeeds |
| Pipeline.WorkersLeaveTableAlone | service/email_service.js:132 | the service consumers' status update, bound to NULL because the payload has no id, matches no row, so a worker step never changes the table |
| Pipeline.AckOnlyAfterEverySuccess | app.js:113-145 | a consumer step adds an ack only when the message was non-null, parsed and sent; for app.js's consumers only while the channel is open, for the service workers only once the status update succeeded |
| Application.App.ConnectToRabbitMQ | app.js:23-36 | the method performs the Connect step on the app's state: it assigns `channel`, asserts the queues in order and leaves the channel closed at the first rejected assert |
| Application.App.SendToChannel | app.js:50-54 | `channel.sendToQueue` throws while the channel is undefined or closed or its connection fails, and otherwise routes the message as Publish says |
| Application.App.Enqueue | app.js:50-57 | once the row is saved, the handler's remaining steps (publish, mark "sent", answer) are the Enqueue step on the app's state, and the store's pool gets its client back |
| Application.App.Post | app.js:40-109 | the handler performs the Ingest step and answers its response, and every service pool ends with the clients it started with |
| Application.App.ConsumeEmail | app.js:113-122 | on an open channel the email callback ends as AppConsume says and performs the AppReceived step: it acks only on Acked |
| Application.App.ConsumeSms | app.js:124-133 | on an open channel the SMS callback ends as AppConsume says and performs the AppReceived step: it acks only on Acked |
| Application.App.ConsumePush | app.js:135-145 | on an open channel the push callback ends as AppConsume says (parse errors escape) and performs the AppReceived step: it acks only on Acked |
| Application.App.EmailServiceReceives | service/email_service.js:126-138 | the email service's consumer callback performs the WorkerReceived step (its update bound to NULL), ends as Email.OnMessage says, and its pool gets its client back |
| Application.App.SmsServiceReceives | service/sms_service.js:108-125 | the SMS service's consumer callback performs the WorkerReceived step (its update bound to NULL), ends as Sms.OnMessage says, and its pool gets its client back |

## Left out

- Express setup, the Swagger UI, `app.listen` and reading the request body: HTTP plumbing. A handler receives its body fields as a `Request`. Missing body fields (undefined values) are not modelled; the NOT NULL failure they would cause is covered by a failing query outcome.
- amqplib connect, createChannel and consumer registration, and `initializeRabbitMQ` of both services: library calls. The model keeps only the callback bodies. Which consumer receives which message, redelivery of unacked messages and the removal of messages from a queue are not modelled. A callback receives its delivery as a parameter. Delivery tags are treated as unique across the app's channel and the services' channels.
- Queue durability: every declared queue is durable (all declarations pass `durable: true`). The flag is not represented.
- The nodemailer transport, winston and console logging, dotenv configuration. The transport's answer is an `Attempt`. Error-level log lines appear only as the `loggedAs` of a thrown error and the context of a `Caught` disposition. Info logs are not modelled.
- Table DDL in `initializeDatabase`: only the row shape is kept. The sequence value that a failed INSERT may consume is not modelled (a failed save leaves the table as it was).
- The one-second `setTimeout` in `sendSMS`: timing only.
- JSON (de)serialisation: content is either a notification or malformed.
- Interleaving of concurrent requests and callbacks: each handler is one sequential step.
- The self-initialising instances created at module load, and the second instance each service file exports: lifecycle only. Each service is modelled once.
- push_service.js is not part of this model. `PushService` holds only its pool onto the shared table and is assumed to have the same DB methods as the other services. Its `sendPushNotification` is an `Attempt`. No consumer of the push service is modelled.
- Store.InsertRow: ids are unbounded integers. SERIAL is a 32-bit sequence, so in PostgreSQL an insert after id 2147483647 fails; that failure is not modelled.
- amqplib's `error` and `close` events on a channel: a rejected assertQueue only marks `channel` closed. A connection lost later is a failing publish outcome per request; the channel is not marked closed by it.
- Process termination: a consumer callback that ends `Escaped` leaves an unhandled promise rejection, and a channel closed by a rejected assertQueue emits an `error` event that app.js does not listen for. Either may stop the Node process. The model over-approximates: later steps still run where the process may have stopped.
- `connectToRabbitMQ` runs once, at module load. The model allows a `Connected` step at any time and any number of times.
- Timestamps come from the database clock. They are parameters (`saveAt`, `updateAt`).
