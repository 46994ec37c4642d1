/**
 * PubSubService (main.go): the HTTP proxy's own topic registry and the
 * decision logic of its publish handler.  The HTTP request is a record: its
 * method, and its body either decoded into a PublishRequest or undecodable.
 */
module Proxy {
  import opened Backend
  import opened Registry
  import opened Policy

  /** The decoded JSON body.  A Go string is a byte sequence, so []byte(Data) is Data. */
  datatype PublishRequest = PublishRequest(topic: string, data: Bytes, attributes: map<string, string>, orderingKey: string)

  datatype Body = Decoded(request: PublishRequest) | Undecodable

  datatype HttpRequest = HttpRequest(httpMethod: string, body: Body)

  datatype ResponseBody =
    | PlainError(text: string)            // http.Error with a fixed text
    | PublishErrorText(error: Error)      // http.Error with "Publish error: <error>"
    | MessageIdJson(messageId: string)    // {"messageID": id}

  datatype Response = Response(status: int, body: ResponseBody)

  const MethodPost := "POST"
  const StatusOK := 200
  const StatusBadRequest := 400
  const StatusMethodNotAllowed := 405
  const StatusInternalServerError := 500

  /** The topic a request names, if the handler gets as far as looking it up. */
  function Target(r: HttpRequest): Option<string> {
    if r.httpMethod == MethodPost && r.body.Decoded? then Some(r.body.request.topic) else None
  }

  class PubSubService {
    const client: Client
    var topics: map<string, Topic>

    ghost predicate Valid()
      reads this, topics.Values
    {
      Registered(topics, client)
    }

    constructor (client: Client)
      ensures this.client == client && topics == map[] && Valid()
    {
      this.client := client;
      topics := map[];
    }

    method GetTopic(topicId: string) returns (t: Topic)
      requires Valid()
      modifies this
      ensures Valid()
      ensures topicId in topics && t == topics[topicId]
      ensures old(topicId in topics) ==> topics == old(topics)
      ensures old(topicId !in topics) ==>
                fresh(t) && topics == old(topics)[topicId := t] && t.State() == OrderedInitial
    {
      if topicId in topics {
        return topics[topicId];
      }
      t := client.Topic(topicId);
      t.orderingEnabled := true;
      var stored := LoadOrStore(topics, topicId, t);
      topics := stored.entries;
      t := stored.actual;
    }

    /**
     * Reject a non-POST request (405), then an undecodable body (400), both
     * before any lookup or publish; otherwise resolve the topic, publish with
     * resume-on-failure, and answer 500 with the error or the message ID.
     */
    method PublishHandler(r: HttpRequest, verdict: Verdict) returns (w: Response)
      requires Valid()
      modifies this, if Target(r).Some? then Cached(topics, Target(r).value) else {}
      ensures Valid()
      ensures r.httpMethod != MethodPost ==>
                w == Response(StatusMethodNotAllowed, PlainError("Method not allowed")) && topics == old(topics)
      ensures r.httpMethod == MethodPost && r.body.Undecodable? ==>
                w == Response(StatusBadRequest, PlainError("Invalid request body")) && topics == old(topics)
      ensures Target(r).Some? ==>
                var req := r.body.request;
                && req.topic in topics && topics == old(topics)[req.topic := topics[req.topic]]
                && (old(req.topic in topics) ==> topics[req.topic] == old(topics[req.topic]))
                && (old(req.topic !in topics) ==> fresh(topics[req.topic]))
                && var st := PublishResuming(old(HandleState(topics, req.topic)),
                                             Message(req.data, req.attributes, req.orderingKey), verdict);
                   && topics[req.topic].State() == st.next
                   && (st.outcome.Published? ==> w == Response(StatusOK, MessageIdJson(st.outcome.id)))
                   && (st.outcome.Failed? ==> w == Response(StatusInternalServerError, PublishErrorText(st.outcome.error)))
    {
      if r.httpMethod != MethodPost {
        return Response(StatusMethodNotAllowed, PlainError("Method not allowed"));
      }
      if r.body.Undecodable? {
        return Response(StatusBadRequest, PlainError("Invalid request body"));
      }
      var req := r.body.request;
      ghost var before := HandleState(topics, req.topic);
      var topic := GetTopic(req.topic);
      assert topic.State() == before;
      var msg := Message(req.data, req.attributes, req.orderingKey);
      var result := topic.Publish(msg, verdict);
      if result.Failed? {
        // A failed keyed publish pauses the key; resume it so later messages go through.
        if req.orderingKey != "" {
          topic.ResumePublish(req.orderingKey);
        }
        w := Response(StatusInternalServerError, PublishErrorText(result.error));
      } else {
        w := Response(StatusOK, MessageIdJson(result.id));
      }
      assert topic.State() == PublishResuming(before, msg, verdict).next;
      // The other cached handles were not touched.
      forall n | n in topics && n != req.topic
        ensures Configured(topics[n], n, client)
      {
        assert old(Configured(topics[n], n, client));
      }
    }
  }
}
