/** The SMS service: the recipient check of `sendSMS`, the service's consumer
    callback, and the class that holds the service's pool and channel. The
    regular expression `^\+?\d+$` is given twice: as the language it denotes
    (PhoneNumber) and as the automaton a matcher runs over the string (Scan);
    Scan's contract proves the two agree on every string. */
module Sms {
  import opened Model
  import opened Store
  import opened Queue

  /** `\d` in a JavaScript regular expression: the ASCII digits only. */
  predicate IsDigit(c: char) {
    '0' <= c <= '9'
  }

  ghost predicate AllDigits(s: string) {
    forall i :: 0 <= i < |s| ==> IsDigit(s[i])
  }

  /** The strings `^\+?\d+$` matches: one or more ASCII digits, optionally
      after a single leading '+', and nothing else. */
  ghost predicate PhoneNumber(s: string) {
    || (|s| > 0 && AllDigits(s))
    || (|s| > 1 && s[0] == '+' && AllDigits(s[1..]))
  }

  /** How far a match of `^\+?\d+$` has got. */
  datatype Phase = Start | Signed | InDigits | Rejected

  function Next(p: Phase, c: char): Phase {
    match p
    case Start => if c == '+' then Signed else if IsDigit(c) then InDigits else Rejected
    case Signed => if IsDigit(c) then InDigits else Rejected
    case InDigits => if IsDigit(c) then InDigits else Rejected
    case Rejected => Rejected
  }

  /** The suffixes that complete a match from phase `p`. */
  ghost predicate Completes(p: Phase, s: string) {
    match p
    case Start => PhoneNumber(s)
    case Signed => |s| > 0 && AllDigits(s)
    case InDigits => AllDigits(s)
    case Rejected => false
  }

  lemma AllDigitsCons(s: string)
    requires |s| > 0
    ensures AllDigits(s) <==> IsDigit(s[0]) && AllDigits(s[1..])
  {
    if IsDigit(s[0]) && AllDigits(s[1..]) {
      forall i | 0 <= i < |s| ensures IsDigit(s[i]) {
        if i > 0 {
          assert s[i] == s[1..][i - 1];
        }
      }
    }
  }

  /** Runs the matcher over `s` from phase `p`; it ends in InDigits exactly
      when the rest of the pattern matches all of `s`. */
  function Scan(p: Phase, s: string): (q: Phase)
    ensures q == InDigits <==> Completes(p, s)
    decreases |s|
  {
    if s == [] then p
    else
      AllDigitsCons(s);
      assert p == Start && s[0] == '+' ==> (PhoneNumber(s) <==> Completes(Signed, s[1..]));
      Scan(Next(p, s[0]), s[1..])
  }

  /** `/^\+?\d+$/.test(recipient)`. */
  predicate MatchesRecipient(s: string) {
    Scan(Start, s) == InDigits
  }

  const InvalidRecipient: string := "Invalid recipient"

  /** `sendSMS({recipient, message})`: throws "Invalid recipient", without
      logging it, unless the recipient matches; otherwise completes (the
      simulated send only logs and waits). */
  function SendSMS(n: Notification): (r: Result<()>)
    ensures r.Ok? <==> PhoneNumber(n.recipient)
    ensures r.Err? ==> r.error == Thrown(InvalidRecipient, None)
  {
    if !MatchesRecipient(n.recipient) then Err(Thrown(InvalidRecipient, None)) else Ok(())
  }

  lemma RecipientExamples()
    ensures MatchesRecipient("+15551234567") && MatchesRecipient("42")
    ensures !MatchesRecipient("") && !MatchesRecipient("+") && !MatchesRecipient("abc")
    ensures !MatchesRecipient("12a") && !MatchesRecipient("++1")
  {
    var e164, short := "+15551234567", "42";
    assert e164[1..] == "15551234567";
    assert AllDigits(e164[1..]);
    assert AllDigits(short);
    assert !IsDigit("abc"[0]) && !IsDigit("12a"[2]) && !IsDigit("++1"[1]);
  }

  const ProcessingFailed: string := "Error processing SMS notification: "

  /** How the consumer callback of the SMS service ends for message `msg`,
      given the outcome of its status update. */
  function OnMessage(msg: Option<Delivery>, update: DbOutcome): (d: Disposition)
    ensures d.Skipped? <==> msg.None?
    ensures d.Escaped? <==> msg.Some? && msg.value.content.Malformed?
    ensures d.Acked? <==>
      msg.Some? && msg.value.content.Json? && PhoneNumber(msg.value.content.notification.recipient) && update.Completes?
    ensures d.Caught? ==> d.context == ProcessingFailed
    ensures msg.Some? && msg.value.content.Json? && !PhoneNumber(msg.value.content.notification.recipient) ==>
      d == Caught(ProcessingFailed, InvalidRecipient)
  {
    match msg
    case None => Skipped
    case Some(delivery) =>
      match Parse(delivery.content)
      case Err(e) => Escaped(e.message)
      case Ok(n) =>
        match SendSMS(n)
        case Err(e) => Caught(ProcessingFailed, e.message)
        case Ok(_) =>
          if !update.Completes? then Caught(ProcessingFailed, update.message) else Acked
  }

  class SmsService {
    const store: PgStore
    const broker: Broker

    constructor (store: PgStore, broker: Broker)
      ensures this.store == store && this.broker == broker
    {
      this.store := store;
      this.broker := broker;
    }

    /** The consumer callback registered in `initializeRabbitMQ`. The parsed
        object has no id, so its status update is bound to NULL and matches
        no row: the table is left as it was. */
    method Consume(msg: Option<Delivery>, updateAt: int, update: DbOutcome) returns (d: Disposition)
      requires store.db.Valid()
      modifies store.pool, store.db, broker
      ensures d == OnMessage(msg, update)
      ensures store.db.Valid() && store.db.Snapshot() == old(store.db.Snapshot())
      ensures store.pool.borrowed == old(store.pool.borrowed)
      ensures broker.queues == old(broker.queues)
      ensures broker.acked == if d.Acked? then old(broker.acked) + {msg.value.tag} else old(broker.acked)
    {
      if msg.None? {
        return Skipped;
      }
      var delivery := msg.value;
      // JSON.parse runs before the try block
      var parsed := Parse(delivery.content);
      if parsed.Err? {
        return Escaped(parsed.error.message);
      }
      var notification := parsed.value;
      var sent := SendSMS(notification);
      if sent.Err? {
        return Caught(ProcessingFailed, sent.error.message);
      }
      // `notification.id` is undefined
      var updated := store.UpdateNotificationStatus(None, Sent, updateAt, update);
      if updated.Err? {
        return Caught(ProcessingFailed, updated.error.message);
      }
      broker.Ack(delivery.tag);
      d := Acked;
    }
  }
}
