/**
 * PubSubClient (wrapper.go): a cached topic registry, ordered publish with
 * resume-on-failure whose errors are wrapped, and a Close that stops every
 * cached handle before closing the connection.
 */
module Wrapper {
  import opened Backend
  import opened Registry
  import opened Policy

  /** The context fmt.Errorf adds to a publish error. */
  const PublishFailed := "failed to publish message"

  class PubSubClient {
    const client: Client
    var topics: map<string, Topic>

    ghost predicate Valid()
      reads this, topics.Values
    {
      Registered(topics, client)
    }

    constructor (client: Client)
      ensures this.client == client && topics == map[] && Valid()
    {
      this.client := client;
      topics := map[];
    }

    /**
     * On a hit, the cached handle and no change; on a miss, a new handle with
     * ordering enabled, stored unless an entry appeared meanwhile.
     */
    method GetTopic(topicId: string) returns (t: Topic)
      requires Valid()
      modifies this
      ensures Valid()
      ensures topicId in topics && t == topics[topicId]
      ensures old(topicId in topics) ==> topics == old(topics)
      ensures old(topicId !in topics) ==>
                fresh(t) && topics == old(topics)[topicId := t] && t.State() == OrderedInitial
    {
      if topicId in topics {
        return topics[topicId];
      }
      t := client.Topic(topicId);
      t.orderingEnabled := true;
      var stored := LoadOrStore(topics, topicId, t);
      topics := stored.entries;
      t := stored.actual;
    }

    /**
     * Publish `data`, `attrs` and `orderingKey` to the topic and wait;
     * `verdict` is the service's answer.  The handle ends in the state the
     * policy prescribes: a failed keyed publish is resumed.
     */
    method Publish(topicId: string, data: Bytes, attrs: map<string, string>, orderingKey: string, verdict: Verdict)
      returns (id: string, err: Option<Error>)
      requires Valid()
      modifies this, Cached(topics, topicId)
      ensures Valid()
      ensures topicId in topics && topics == old(topics)[topicId := topics[topicId]]
      ensures old(topicId in topics) ==> topics[topicId] == old(topics[topicId])
      ensures old(topicId !in topics) ==> fresh(topics[topicId])
      ensures var st := PublishResuming(old(HandleState(topics, topicId)), Message(data, attrs, orderingKey), verdict);
              && topics[topicId].State() == st.next
              && (st.outcome.Published? ==> id == st.outcome.id && err == None)
              && (st.outcome.Failed? ==> id == "" && err == Some(Wrapped(PublishFailed, st.outcome.error)))
    {
      ghost var before := HandleState(topics, topicId);
      var topic := GetTopic(topicId);
      assert topic.State() == before;
      var msg := Message(data, attrs, orderingKey);
      var result := topic.Publish(msg, verdict);
      if result.Failed? {
        // A failed keyed publish pauses the key; resume it or it stays paused.
        if orderingKey != "" {
          topic.ResumePublish(orderingKey);
        }
        id, err := "", Some(Wrapped(PublishFailed, result.error));
      } else {
        id, err := result.id, None;
      }
      assert topic.State() == PublishResuming(before, msg, verdict).next;
      // The other cached handles were not touched.
      forall n | n in topics && n != topicId
        ensures Configured(topics[n], n, client)
      {
        assert old(Configured(topics[n], n, client));
      }
    }

    /** Stop every cached handle (flushing it), then close the connection. */
    method Close()
      requires Valid()
      modifies topics.Values, client
      ensures Valid()
      ensures client.closed
      ensures forall n :: n in topics ==>
                && topics[n].State() == Halt(old(topics[n].State()))
                && topics[n].flushed == (old(topics[n].flushed) || !old(client.closed))
    {
      // topics.Range: each cached handle is visited once.
      var remaining := topics.Keys;
      while remaining != {}
        invariant remaining <= topics.Keys
        invariant client.closed == old(client.closed)
        invariant forall n :: n in topics ==>
                    && topics[n].State() == (if n in remaining then old(topics[n].State()) else Halt(old(topics[n].State())))
                    && topics[n].flushed == (old(topics[n].flushed) || (n !in remaining && !old(client.closed)))
        decreases remaining
      {
        var n :| n in remaining;
        var t := topics[n];
        t.Stop();
        remaining := remaining - {n};
      }
      client.Close();
    }
  }

  /**
   * The situation wrapper_test.go sets up: one keyed publish that the service
   * accepts yields a non-empty ID, no error, and exactly that message, with
   * its key, on the topic.
   */
  method PublishWithOrderingKey(id: MessageId) returns (got: string, err: Option<Error>, sent: seq<Message>)
    ensures got == id && got != "" && err == None
    ensures sent == [Message(TestMessage, map[], "order-123")]
  {
    var conn := new Client();
    var wrapper := new PubSubClient(conn);
    got, err := wrapper.Publish("test-topic", TestMessage, map[], "order-123", Accept(id));
    sent := wrapper.topics["test-topic"].log;
  }

  /** The bytes of "test message". */
  const TestMessage: Bytes := [0x74, 0x65, 0x73, 0x74, 0x20, 0x6d, 0x65, 0x73, 0x73, 0x61, 0x67, 0x65]

  /**
   * A keyed publish the service rejects, then the same key again, accepted:
   * the first call reports the wrapped error and resumes the key once, so the
   * second call gets its ID.
   */
  method RetryAfterFailure(reason: string, id: MessageId) returns (first: Option<Error>, second: string, resumed: seq<string>)
    ensures first == Some(Wrapped(PublishFailed, ServiceError(reason)))
    ensures second == id
    ensures resumed == ["user-42"]
  {
    var conn := new Client();
    var wrapper := new PubSubClient(conn);
    var ignored: string;
    ignored, first := wrapper.Publish("orders", [0x61, 0x62, 0x63], map["x" := "1"], "user-42", Reject(reason));
    var err: Option<Error>;
    second, err := wrapper.Publish("orders", [0x61, 0x62, 0x63], map["x" := "1"], "user-42", Accept(id));
    resumed := wrapper.topics["orders"].resumed;
  }
}
