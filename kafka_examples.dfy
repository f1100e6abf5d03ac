/**
 * A run of the consumer's loop over a short trace: an undecodable message
 * is dead-lettered and committed, a transient fetch error is skipped, a
 * valid order whose save fails is not committed, and a
 * cancellation ends the loop before the last message is read.
 */
module KafkaExamples {
  import opened Wrappers
  import opened Errors
  import opened Orders
  import Validator
  import opened Kafka

  /**
   * A trace that opens with a fetched message, a transient fetch error, a
   * second fetched message and a cancellation: the run ends, and all it
   * adds to `start` is what `Handle` did with the two messages.
   */
  lemma FetchSkipFetchCancel(cfg: Config, start: Trail, events: seq<Event>, h1: Handling, h3: Handling)
    requires 4 <= |events| && events[0].Fetched? && events[2].Fetched? && Stops(events[3])
    requires events[1].FetchFailed? && events[1].cause.Transient?
    requires h1 == Handle(cfg, events[0].msg, events[0].replies)
    requires h3 == Handle(cfg, events[2].msg, events[2].replies)
    ensures RunFrom(cfg, start, events, |events|).stopped
    ensures RunFrom(cfg, start, events, |events|).trail == Trail(
      start.sent + Listed(h1.sent) + Listed(h3.sent),
      start.handedOver + Listed(h1.handedOver) + Listed(h3.handedOver),
      start.commits + (if h1.result == Pass then [events[0].msg] else [])
                    + (if h3.result == Pass then [events[2].msg] else []))
  {
    var r0 := Run(start, false);
    assert RunFrom(cfg, start, events, 0) == r0;
    var r1 := Turn(cfg, r0, events[0]);
    TurnFetched(cfg, r0, events[0], h1);
    assert RunFrom(cfg, start, events, 1) == r1;
    TurnOutcomes(cfg, r1, events[1]);
    assert RunFrom(cfg, start, events, 2) == r1;
    TurnFetched(cfg, r1, events[2], h3);
    StopEndsRun(cfg, start, events, 3);
  }

  /** An undecodable message is dead-lettered with the decoder's error. */
  lemma UndecodableHandling(cfg: Config, msg: Message, replies: Replies)
    requires cfg.decode(msg.value).Failure?
    ensures Handle(cfg, msg, replies) ==
      Handling(Some(Rejected(cfg.dlqTopic, msg, UnmarshalFailed, cfg.decode(msg.value).error)), None, AfterSend(replies.dlq))
  {
  }

  /** An order that decodes and passes validation is handed over, and the service's answer decides the reply. */
  lemma AcceptedHandling(cfg: Config, msg: Message, replies: Replies, order: Order)
    requires cfg.decode(msg.value) == Success(order) && Validator.Verdict(order, cfg.validEmail) == Pass
    ensures Handle(cfg, msg, replies) ==
      Handling(None, Some(order), if replies.service.Fail? then Fail(Wrap(ProcessOp, replies.service.error)) else Pass)
  {
  }

  /**
   * The whole trace: the undecodable message is dead-lettered and committed,
   * the valid order is handed over but its failed save leaves it
   * uncommitted, and the message after the cancellation is never read.
   */
  lemma MixedTrace(cfg: Config, start: Trail, events: seq<Event>, bad: Message, good: Message, late: Message, order: Order, dbDown: Error)
    requires start == Trail([], [], [])
    requires cfg.decode(bad.value).Failure?
    requires cfg.decode(good.value) == Success(order) && Validator.Verdict(order, cfg.validEmail) == Pass
    requires |events| == 5 && events[0] == Fetched(bad, Replies(Pass, Pass))
    requires events[1] == FetchFailed(Transient("broker unavailable"))
    requires events[2] == Fetched(good, Replies(Pass, Fail(dbDown)))
    requires events[3] == FetchFailed(Canceled) && events[4] == Fetched(late, Replies(Pass, Pass))
    ensures RunFrom(cfg, start, events, |events|).stopped
    ensures RunFrom(cfg, start, events, |events|).trail ==
      Trail([Rejected(cfg.dlqTopic, bad, UnmarshalFailed, cfg.decode(bad.value).error)], [order], [bad])
  {
    UndecodableHandling(cfg, bad, Replies(Pass, Pass));
    AcceptedHandling(cfg, good, Replies(Pass, Fail(dbDown)), order);
    FetchSkipFetchCancel(cfg, start, events, Handle(cfg, bad, Replies(Pass, Pass)), Handle(cfg, good, Replies(Pass, Fail(dbDown))));
  }
}
