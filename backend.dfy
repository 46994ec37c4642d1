/**
 * An abstract model of the part of the Google Cloud Pub/Sub client library
 * that the proxy relies on: a connection (`Client`) that hands out topic
 * handles (`Topic`), and a topic handle that publishes messages, keeps the
 * per-ordering-key pause state, resumes a paused key, and stops.
 *
 * The library's own code is not part of this model.  What the service answers
 * to a publish (a message ID or a rejection) is an oracle: a `Verdict` passed
 * in by the caller.  The handle's state machine is given as pure functions on
 * `TopicState` (Submit, Resume, Halt); the classes are proved against them.
 */
module Backend {

  /** An optional value; as a Go error, None is nil. */
  datatype Option<T> = None | Some(value: T)

  /** A Go []byte. */
  type Bytes = seq<bv8>

  /** A message ID assigned by the service; the service never assigns "". */
  type MessageId = id: string | id != "" witness "1"

  datatype Message = Message(data: Bytes, attributes: map<string, string>, orderingKey: string)

  datatype Error =
    | ServiceError(reason: string)       // the service rejected the publish, or it timed out
    | OrderingNotEnabled                  // an ordering key was set on a handle without message ordering
    | TopicStopped                        // publish after Stop
    | PublishingPaused(key: string)       // the key is paused after an earlier failure
    | Wrapped(context: string, cause: Error)  // fmt.Errorf("<context>: %w", cause)

  /** What the service answers to one submitted message. */
  datatype Verdict = Accept(id: MessageId) | Reject(reason: string)

  /** What `result.Get` yields: the message ID or the error. */
  datatype Outcome = Published(id: MessageId) | Failed(error: Error)

  /**
   * The observable state of one topic handle.  `paused` holds the ordering
   * keys in the Paused state (every other key is Flowing); `log` the messages
   * handed to the service, in order; `resumed` the keys ResumePublish was
   * called with, in order.
   */
  datatype TopicState = TopicState(
    orderingEnabled: bool,
    paused: set<string>,
    log: seq<Message>,
    resumed: seq<string>,
    stopped: bool)

  /** A handle's new state together with what the call returned. */
  datatype Step = Step(next: TopicState, outcome: Outcome)

  /** The state of a handle fresh from `Client.Topic`. */
  const Unconfigured := TopicState(false, {}, [], [], false)

  /** The empty ordering key ("no ordering") is never paused. */
  predicate WellFormed(s: TopicState) {
    "" !in s.paused
  }

  /** The handle passes `msg` on to the service (rather than failing it locally). */
  predicate Admits(s: TopicState, msg: Message) {
    && (msg.orderingKey == "" || s.orderingEnabled)
    && !s.stopped
    && msg.orderingKey !in s.paused
  }

  /**
   * Topic.Publish followed by result.Get: local checks first (ordering key
   * without ordering, stopped handle, paused key), then the message goes to
   * the service; a rejection of a keyed message pauses that key.
   */
  function Submit(s: TopicState, msg: Message, v: Verdict): (st: Step)
    ensures WellFormed(s) ==> WellFormed(st.next)
    ensures st.next.log == if Admits(s, msg) then s.log + [msg] else s.log
    ensures st.outcome.Published? <==> Admits(s, msg) && v.Accept?
    ensures st.outcome.Published? ==> st.outcome.id == v.id
    ensures st.next.paused ==
              if Admits(s, msg) && v.Reject? && msg.orderingKey != ""
              then s.paused + {msg.orderingKey} else s.paused
    ensures st.next.resumed == s.resumed
    ensures st.next.orderingEnabled == s.orderingEnabled && st.next.stopped == s.stopped
  {
    if msg.orderingKey != "" && !s.orderingEnabled then
      Step(s, Failed(OrderingNotEnabled))
    else if s.stopped then
      Step(s, Failed(TopicStopped))
    else if msg.orderingKey in s.paused then
      Step(s, Failed(PublishingPaused(msg.orderingKey)))
    else
      var sent := s.(log := s.log + [msg]);
      match v
      case Accept(id) => Step(sent, Published(id))
      case Reject(reason) =>
        var next := if msg.orderingKey != "" then sent.(paused := sent.paused + {msg.orderingKey}) else sent;
        Step(next, Failed(ServiceError(reason)))
  }

  /** Topic.ResumePublish: the key goes back to Flowing. */
  function Resume(s: TopicState, key: string): TopicState {
    s.(paused := s.paused - {key}, resumed := s.resumed + [key])
  }

  /** Topic.Stop. */
  function Halt(s: TopicState): TopicState {
    s.(stopped := true)
  }

  /** A connection to the service (pubsub.Client). */
  class Client {
    var closed: bool

    constructor ()
      ensures !closed
    {
      closed := false;
    }

    /** client.Topic(name): a new handle, message ordering off. */
    method Topic(name: string) returns (t: Topic)
      ensures fresh(t) && t.name == name && t.conn == this
      ensures t.State() == Unconfigured && !t.flushed && t.Valid()
    {
      t := new Topic(name, this);
    }

    method Close()
      modifies this
      ensures closed
    {
      closed := true;
    }
  }

  /** A topic handle (pubsub.Topic). */
  class Topic {
    const name: string
    const conn: Client
    var orderingEnabled: bool
    var paused: set<string>
    var log: seq<Message>
    var resumed: seq<string>
    var stopped: bool
    /** Stop has run while `conn` was still open, so outstanding messages were flushed. */
    ghost var flushed: bool

    function State(): TopicState
      reads this
    {
      TopicState(orderingEnabled, paused, log, resumed, stopped)
    }

    ghost predicate Valid()
      reads this
    {
      WellFormed(State()) && (flushed ==> stopped)
    }

    constructor (name: string, conn: Client)
      ensures this.name == name && this.conn == conn
      ensures State() == Unconfigured && !flushed && Valid()
    {
      this.name := name;
      this.conn := conn;
      orderingEnabled := false;
      paused := {};
      log := [];
      resumed := [];
      stopped := false;
      flushed := false;
    }

    /** Publish `msg` and wait for its result; `v` is the service's answer. */
    method Publish(msg: Message, v: Verdict) returns (r: Outcome)
      requires Valid()
      modifies this
      ensures Valid() && flushed == old(flushed)
      ensures Step(State(), r) == Submit(old(State()), msg, v)
    {
      if msg.orderingKey != "" && !orderingEnabled {
        return Failed(OrderingNotEnabled);
      }
      if stopped {
        return Failed(TopicStopped);
      }
      if msg.orderingKey in paused {
        return Failed(PublishingPaused(msg.orderingKey));
      }
      log := log + [msg];
      match v {
        case Accept(id) =>
          r := Published(id);
        case Reject(reason) =>
          if msg.orderingKey != "" {
            paused := paused + {msg.orderingKey};
          }
          r := Failed(ServiceError(reason));
      }
    }

    method ResumePublish(key: string)
      requires Valid()
      modifies this
      ensures Valid() && flushed == old(flushed)
      ensures State() == Resume(old(State()), key)
    {
      paused := paused - {key};
      resumed := resumed + [key];
    }

    method Stop()
      requires Valid()
      modifies this
      ensures Valid()
      ensures State() == Halt(old(State()))
      ensures flushed == (old(flushed) || !conn.closed)
    {
      stopped := true;
      flushed := flushed || !conn.closed;
    }
  }
}
