/**
 * PubSubManager (internal/gcp/pubsub.go): the same cached registry and
 * resume-on-failure publish as PubSubClient, but the backend error is
 * returned as it is, and Close only closes the connection.
 */
module Gcp {
  import opened Backend
  import opened Registry
  import opened Policy

  class PubSubManager {
    const client: Client
    var topics: map<string, Topic>

    ghost predicate Valid()
      reads this, topics.Values
    {
      Registered(topics, client)
    }

    constructor (client: Client)
      ensures this.client == client && topics == map[] && Valid()
    {
      this.client := client;
      topics := map[];
    }

    method Publish(topicId: string, data: Bytes, attrs: map<string, string>, key: string, verdict: Verdict)
      returns (id: string, err: Option<Error>)
      requires Valid()
      modifies this, Cached(topics, topicId)
      ensures Valid()
      ensures topicId in topics && topics == old(topics)[topicId := topics[topicId]]
      ensures old(topicId in topics) ==> topics[topicId] == old(topics[topicId])
      ensures old(topicId !in topics) ==> fresh(topics[topicId])
      ensures var st := PublishResuming(old(HandleState(topics, topicId)), Message(data, attrs, key), verdict);
              && topics[topicId].State() == st.next
              && (st.outcome.Published? ==> id == st.outcome.id && err == None)
              && (st.outcome.Failed? ==> id == "" && err == Some(st.outcome.error))
    {
      ghost var before := HandleState(topics, topicId);
      var topic := GetTopic(topicId);
      assert topic.State() == before;
      var msg := Message(data, attrs, key);
      var result := topic.Publish(msg, verdict);
      if result.Failed? {
        if key != "" {
          topic.ResumePublish(key);
        }
        id, err := "", Some(result.error);
      } else {
        id, err := result.id, None;
      }
      assert topic.State() == PublishResuming(before, msg, verdict).next;
      // The other cached handles were not touched.
      forall n | n in topics && n != topicId
        ensures Configured(topics[n], n, client)
      {
        assert old(Configured(topics[n], n, client));
      }
    }

    method GetTopic(topicId: string) returns (t: Topic)
      requires Valid()
      modifies this
      ensures Valid()
      ensures topicId in topics && t == topics[topicId]
      ensures old(topicId in topics) ==> topics == old(topics)
      ensures old(topicId !in topics) ==>
                fresh(t) && topics == old(topics)[topicId := t] && t.State() == OrderedInitial
    {
      if topicId in topics {
        return topics[topicId];
      }
      t := client.Topic(topicId);
      t.orderingEnabled := true;
      var stored := LoadOrStore(topics, topicId, t);
      topics := stored.entries;
      t := stored.actual;
    }

    /** Closes the connection; the cached handles are not stopped. */
    method Close()
      requires Valid()
      modifies client
      ensures Valid() && client.closed
    {
      client.Close();
    }
  }
}
