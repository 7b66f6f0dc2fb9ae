/** The RabbitMQ side of the pipeline: named queues of messages and the set
    of delivery tags that consumers have acknowledged. Connections, channels
    and consumer registration belong to amqplib and are not modelled. */
module Queue {
  import opened Model

  /** `assertQueue(name)`: idempotent; a queue that exists keeps its messages. */
  function Declare(queues: map<string, seq<Message>>, name: string): (r: map<string, seq<Message>>)
    ensures r.Keys == queues.Keys + {name}
    ensures forall q :: q in queues ==> r[q] == queues[q]
    ensures name !in queues ==> r[name] == []
  {
    if name in queues then queues else queues[name := []]
  }

  /** `sendToQueue(name, content, options)` through the default exchange: the
      message is appended to the queue of that name; with no such queue the
      broker drops it. */
  function Publish(queues: map<string, seq<Message>>, name: string, m: Message): (r: map<string, seq<Message>>)
    ensures r.Keys == queues.Keys
    ensures forall q :: q in queues && q != name ==> r[q] == queues[q]
    ensures name in queues ==> r[name] == queues[name] + [m]
  {
    if name in queues then queues[name := queues[name] + [m]] else queues
  }

  lemma DeclareIsIdempotent(queues: map<string, seq<Message>>, name: string)
    ensures Declare(Declare(queues, name), name) == Declare(queues, name)
  {
  }

  class Broker {
    var queues: map<string, seq<Message>>
    var acked: set<nat>

    constructor ()
      ensures queues == map[] && acked == {}
    {
      queues := map[];
      acked := {};
    }

    method AssertQueue(name: string)
      modifies this
      ensures queues == Declare(old(queues), name) && acked == old(acked)
    {
      if name !in queues {
        queues := queues[name := []];
      }
    }

    method SendToQueue(name: string, m: Message)
      modifies this
      ensures queues == Publish(old(queues), name, m) && acked == old(acked)
    {
      if name in queues {
        queues := queues[name := queues[name] + [m]];
      }
    }

    /** `channel.ack(msg)`. */
    method Ack(tag: nat)
      modifies this
      ensures acked == old(acked) + {tag} && queues == old(queues)
    {
      acked := acked + {tag};
    }
  }
}
