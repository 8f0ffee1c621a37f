/** The in-memory broker the consumer runs against. */
module DeepiriBus {
  import opened JsonValues
  import opened OperationStore

  datatype DeepiriMessage<+P> = DeepiriMessage(messageId: string, payload: P, headers: Object, deliveryAttempt: nat,
                                               topic: string)

  /** The queue of a topic; asyncio queues are created on first use. */
  function Queue(queues: map<string, seq<DeepiriMessage<Object>>>, topic: string): seq<DeepiriMessage<Object>> {
    if topic in queues then queues[topic] else []
  }

  /** A message without a topic is retried on the document stream; "" stands for no topic. */
  function RetryTopic(topic: string): string {
    if topic == "" then "document.vectorize" else topic
  }

  class InMemoryDeepiriTransport {
    var connected: bool
    var queues: map<string, seq<DeepiriMessage<Object>>>
    var published: seq<DeepiriMessage<ResultMessage>>
    var acknowledged: seq<string>
    var retried: seq<string>
    var failPublications: int

    constructor ()
      ensures !connected && queues == map[] && published == [] && acknowledged == [] && retried == []
      ensures failPublications == 0
    {
      connected, queues, published := false, map[], [];
      acknowledged, retried, failPublications := [], [], 0;
    }

    /** False is a DeepiriTransportError; an injected failure is used up by the attempt it fails. */
    method Publish(outbound: Outbound, headers: Object) returns (ok: bool)
      modifies this`published, this`failPublications
      ensures ok == (connected && old(failPublications) <= 0)
      ensures failPublications == old(failPublications) - if connected && old(failPublications) > 0 then 1 else 0
      ensures published == old(published) +
        if ok then [DeepiriMessage(outbound.messageId, outbound.payload, headers, 1, outbound.topic)] else []
    {
      if !connected {
        return false;
      }
      if failPublications > 0 {
        failPublications := failPublications - 1;
        return false;
      }
      published := published + [DeepiriMessage(outbound.messageId, outbound.payload, headers, 1, outbound.topic)];
      return true;
    }

    /** Acknowledging twice is the same as acknowledging once. */
    method Acknowledge(message: DeepiriMessage<Object>) returns (ok: bool)
      modifies this`acknowledged
      ensures ok == connected
      ensures acknowledged == old(acknowledged) +
        if ok && message.messageId !in old(acknowledged) then [message.messageId] else []
    {
      if !connected {
        return false;
      }
      if message.messageId !in acknowledged {
        acknowledged := acknowledged + [message.messageId];
      }
      return true;
    }

    /** Requeues a copy with the delivery attempt one higher. */
    method Retry(message: DeepiriMessage<Object>) returns (ok: bool)
      modifies this`retried, this`queues
      ensures ok == connected
      ensures retried == old(retried) + if ok then [message.messageId] else []
      ensures
        var topic := RetryTopic(message.topic);
        queues == if ok
          then old(queues)[topic := Queue(old(queues), topic) +
                                    [message.(deliveryAttempt := message.deliveryAttempt + 1, topic := topic)]]
          else old(queues)
    {
      if !connected {
        return false;
      }
      retried := retried + [message.messageId];
      var topic := if message.topic == "" then "document.vectorize" else message.topic;
      var again := DeepiriMessage(message.messageId, message.payload, message.headers, message.deliveryAttempt + 1, topic);
      queues := queues[topic := Queue(queues, topic) + [again]];
      return true;
    }
  }
}
