/**
 * The ordered-publish recovery policy that all three publishers follow:
 * publish, wait for the result, and when a publish carrying an ordering key
 * fails, call ResumePublish on that key before returning the error.
 *
 * `PublishResuming` is that policy as a step of the handle's state machine.
 * The lemmas compare runs of it with runs of the library alone (`Submit`
 * without the resume), which is what a publisher lacking the policy gets.
 */
module Policy {
  import opened Backend

  /** One publish call together with the service's answer to it. */
  datatype Attempt = Attempt(msg: Message, verdict: Verdict)

  /**
   * Publish with resume-on-failure.  After it, the message's key is Flowing
   * and no other key changed state; ResumePublish ran exactly when a keyed
   * publish failed; the caller sees the library's outcome unchanged.
   */
  function PublishResuming(s: TopicState, msg: Message, v: Verdict): (st: Step)
    requires WellFormed(s)
    ensures WellFormed(st.next)
    ensures st.next.paused == s.paused - {msg.orderingKey}
    ensures st.outcome == Submit(s, msg, v).outcome
    ensures st.next.resumed ==
              if st.outcome.Failed? && msg.orderingKey != ""
              then s.resumed + [msg.orderingKey] else s.resumed
    ensures st.next.log == Submit(s, msg, v).next.log
    ensures st.next.orderingEnabled == s.orderingEnabled && st.next.stopped == s.stopped
  {
    var sent := Submit(s, msg, v);
    if sent.outcome.Failed? && msg.orderingKey != "" then
      Step(Resume(sent.next, msg.orderingKey), sent.outcome)
    else
      sent
  }

  /**
   * A publish without an ordering key issues no resume and changes no key's
   * pause state, whatever the outcome.
   */
  lemma UnkeyedPublishLeavesPausesAlone(s: TopicState, msg: Message, v: Verdict)
    requires WellFormed(s) && msg.orderingKey == ""
    ensures PublishResuming(s, msg, v).next.paused == s.paused
    ensures PublishResuming(s, msg, v).next.resumed == s.resumed
  {
  }

  /** The handle after a sequence of publishes that follow the policy. */
  function RunResuming(s: TopicState, attempts: seq<Attempt>): (r: TopicState)
    requires WellFormed(s)
    ensures WellFormed(r)
    decreases |attempts|
  {
    if attempts == [] then s
    else RunResuming(PublishResuming(s, attempts[0].msg, attempts[0].verdict).next, attempts[1..])
  }

  /** The handle after a sequence of publishes that never resume. */
  function RunLibrary(s: TopicState, attempts: seq<Attempt>): TopicState
    decreases |attempts|
  {
    if attempts == [] then s
    else RunLibrary(Submit(s, attempts[0].msg, attempts[0].verdict).next, attempts[1..])
  }

  function KeysOf(attempts: seq<Attempt>): set<string>
    decreases |attempts|
  {
    if attempts == [] then {} else {attempts[0].msg.orderingKey} + KeysOf(attempts[1..])
  }

  function MessagesOf(attempts: seq<Attempt>): seq<Message>
    decreases |attempts|
  {
    if attempts == [] then [] else [attempts[0].msg] + MessagesOf(attempts[1..])
  }

  /** The keys of the keyed attempts the service rejects, in order. */
  function RejectedKeys(attempts: seq<Attempt>): seq<string>
    decreases |attempts|
  {
    if attempts == [] then []
    else
      ResumesFor(attempts[0]) + RejectedKeys(attempts[1..])
  }

  /**
   * Under the policy no key is ever left paused by a publish: after any run,
   * the keys that were used are all Flowing and the others kept their state.
   * From a fresh handle, nothing is ever paused.
   */
  lemma {:induction false} ResumingLeavesNoKeyPaused(s: TopicState, attempts: seq<Attempt>)
    requires WellFormed(s)
    ensures RunResuming(s, attempts).paused == s.paused - KeysOf(attempts)
    decreases |attempts|
  {
    if attempts != [] {
      var next := PublishResuming(s, attempts[0].msg, attempts[0].verdict).next;
      ResumingLeavesNoKeyPaused(next, attempts[1..]);
    }
  }

  /** Ordering enabled, not stopped, no key paused: every message gets through to the service. */
  predicate Ready(s: TopicState) {
    s.orderingEnabled && !s.stopped && s.paused == {}
  }

  /** The resumes a publish makes, under the policy, when every message gets through. */
  function ResumesFor(a: Attempt): seq<string> {
    if a.verdict.Reject? && a.msg.orderingKey != "" then [a.msg.orderingKey] else []
  }

  /** One publish under the policy on a ready handle: the message is sent and the handle stays ready. */
  lemma ReadyPublish(s: TopicState, a: Attempt)
    requires Ready(s)
    ensures Ready(PublishResuming(s, a.msg, a.verdict).next)
    ensures PublishResuming(s, a.msg, a.verdict).next.log == s.log + [a.msg]
    ensures PublishResuming(s, a.msg, a.verdict).next.resumed == s.resumed + ResumesFor(a)
  {
    assert Admits(s, a.msg);
  }

  /**
   * On a handle with ordering enabled, running and with nothing paused, the
   * policy hands every message to the service in order, and resumes exactly
   * the keys of the rejected keyed messages, once each, in order.
   */
  lemma {:induction false} ResumingDeliversEverything(s: TopicState, attempts: seq<Attempt>)
    requires Ready(s)
    ensures Ready(RunResuming(s, attempts))
    ensures RunResuming(s, attempts).log == s.log + MessagesOf(attempts)
    ensures RunResuming(s, attempts).resumed == s.resumed + RejectedKeys(attempts)
    decreases |attempts|
  {
    if attempts != [] {
      var a := attempts[0];
      var next := PublishResuming(s, a.msg, a.verdict).next;
      ReadyPublish(s, a);
      ResumingDeliversEverything(next, attempts[1..]);
      assert RunResuming(s, attempts) == RunResuming(next, attempts[1..]);
      assert MessagesOf(attempts) == [a.msg] + MessagesOf(attempts[1..]);
      assert RejectedKeys(attempts) == ResumesFor(a) + RejectedKeys(attempts[1..]);
      assert s.log + MessagesOf(attempts) == next.log + MessagesOf(attempts[1..]);
      assert s.resumed + RejectedKeys(attempts) == next.resumed + RejectedKeys(attempts[1..]);
    }
  }

  /**
   * Without the resume, a paused key is wedged for good: it stays paused
   * through any later publishes, and none of them with that key reaches the
   * service.
   */
  lemma {:induction false} LibraryAloneWedgesKey(s: TopicState, attempts: seq<Attempt>, key: string)
    requires key in s.paused
    ensures key in RunLibrary(s, attempts).paused
    ensures |s.log| <= |RunLibrary(s, attempts).log|
    ensures RunLibrary(s, attempts).log[..|s.log|] == s.log
    ensures forall i :: |s.log| <= i < |RunLibrary(s, attempts).log| ==>
              RunLibrary(s, attempts).log[i].orderingKey != key
    decreases |attempts|
  {
    if attempts != [] {
      var next := Submit(s, attempts[0].msg, attempts[0].verdict).next;
      LibraryAloneWedgesKey(next, attempts[1..], key);
      var r := RunLibrary(next, attempts[1..]);
      assert r == RunLibrary(s, attempts);
      assert r.log[..|next.log|] == next.log;
      assert next.log[..|s.log|] == s.log;
      assert r.log[..|s.log|] == next.log[..|s.log|];
    }
  }

  /**
   * A keyed publish fails, then a second one with the same key is accepted by
   * the service.  With the policy, the second publish succeeds and the key was
   * resumed exactly once; with the library alone, the second publish fails
   * locally as paused and never reaches the service.
   */
  lemma FailThenRetry(s: TopicState, first: Message, second: Message, reason: string, id: MessageId)
    requires WellFormed(s) && s.orderingEnabled && !s.stopped
    requires first.orderingKey != "" && first.orderingKey !in s.paused
    requires second.orderingKey == first.orderingKey
    ensures var one := PublishResuming(s, first, Reject(reason));
            var two := PublishResuming(one.next, second, Accept(id));
            && one.outcome == Failed(ServiceError(reason))
            && two.outcome == Published(id)
            && two.next.resumed == s.resumed + [first.orderingKey]
            && two.next.log == s.log + [first, second]
    ensures var one := Submit(s, first, Reject(reason));
            var two := Submit(one.next, second, Accept(id));
            && two.outcome == Failed(PublishingPaused(first.orderingKey))
            && two.next.log == s.log + [first]
  {
  }
}
