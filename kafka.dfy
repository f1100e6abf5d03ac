/**
 * The Kafka consumer (`internal/kafka/consumer.go`): for every fetched
 * message it decodes the JSON body, validates the order, and either hands
 * the order to the service or dead-letters the message; the fetch loop
 * commits a message exactly when its processing succeeded.
 *
 * The broker, the dead-letter producer and the service are outside the
 * model. JSON decoding is the function `decode` of the consumer's `Config`;
 * what `SendMessage` and `ProcessNewOrder` answer for a message is carried
 * by the fetch event (`Replies`), and the loop runs over a finite trace of
 * fetch events. The consumer records the dead-letter sends, the service
 * calls and the commits it makes.
 */
module Kafka {
  import opened Wrappers
  import opened Errors
  import opened Text
  import opened Orders
  import Decimal
  import Validator

  newtype Byte = b: int | 0 <= b < 256

  /** The part of a `kafka.Message` the consumer reads. */
  datatype Message = Message(
    topic: string,
    partition: int,
    offset: Decimal.Int64,
    key: seq<Byte>,
    value: seq<Byte>)

  /** One call of the dead-letter producer's `SendMessage`. */
  datatype DeadLetter = DeadLetter(
    topic: string,
    key: seq<Byte>,
    value: seq<Byte>,
    headers: map<string, string>)

  /**
   * The consumer's fixed collaborators: the dead-letter topic, JSON decoding
   * (an order, or the decoder's error text) and the email check the
   * validator uses.
   */
  datatype Config = Config(
    dlqTopic: string,
    decode: seq<Byte> -> Result<Order, string>,
    validEmail: string -> bool)

  /** What the dead-letter producer and the service answer while a message is processed. */
  datatype Replies = Replies(dlq: Outcome<Error>, service: Outcome<Error>)

  /** What `processMessage` does with one message. */
  datatype Handling = Handling(sent: Option<DeadLetter>, handedOver: Option<Order>, result: Outcome<Error>)

  const UnmarshalFailed := "json_unmarshal_failed"
  const ValidationFailed := "validation_failed"
  const DLQOp := "failed to send to DLQ"
  const ProcessOp := "kafka.processMessage: failed to process order"

  function Listed<T>(x: Option<T>): seq<T> {
    if x.Some? then [x.value] else []
  }

  /** The message as sent to the dead-letter topic: same key and body, plus the four diagnostic headers. */
  function Rejected(dlqTopic: string, msg: Message, reason: string, details: string): DeadLetter {
    DeadLetter(dlqTopic, msg.key, msg.value, map[
      "error_reason" := reason,
      "error_details" := details,
      "original_topic" := msg.topic,
      "original_offset" := Decimal.FormatInt(msg.offset)])
  }

  /** The reply of `processMessage` once a dead letter was attempted. */
  function AfterSend(dlq: Outcome<Error>): Outcome<Error> {
    if dlq.Fail? then Fail(Wrap(DLQOp, dlq.error)) else Pass
  }

  /**
   * `processMessage`: decode, validate, then dead-letter or hand to the
   * service. A message is dead-lettered or handed over, never both; a dead
   * letter keeps the message's key and body; only a decoded order is handed
   * over; and an error comes only from the send or the service.
   */
  function Handle(cfg: Config, msg: Message, replies: Replies): (h: Handling)
    ensures h.sent.Some? ==> h.handedOver == None
    ensures h.sent.Some? ==> h.sent.value.topic == cfg.dlqTopic && h.sent.value.key == msg.key && h.sent.value.value == msg.value
    ensures h.handedOver.Some? ==> cfg.decode(msg.value) == Success(h.handedOver.value)
    ensures h.result.Fail? ==> (h.sent.Some? && replies.dlq.Fail?) || (h.handedOver.Some? && replies.service.Fail?)
  {
    match cfg.decode(msg.value)
    case Failure(details) =>
      Handling(Some(Rejected(cfg.dlqTopic, msg, UnmarshalFailed, details)), None, AfterSend(replies.dlq))
    case Success(order) =>
      match Validator.Verdict(order, cfg.validEmail)
      case Fail(e) =>
        if e.kind == BadMessage then
          Handling(Some(Rejected(cfg.dlqTopic, msg, ValidationFailed, e.text)), None, AfterSend(replies.dlq))
        else
          Handling(None, None, Pass)
      case Pass =>
        Handling(None, Some(order),
          if replies.service.Fail? then Fail(Wrap(ProcessOp, replies.service.error)) else Pass)
  }

  // ---------------------------------------------------------------------
  // processMessage

  /**
   * An undecodable body is dead-lettered once, under the dead-letter topic
   * with its own key and body and the four headers; the service is not
   * called, and the reply is an error exactly when the send failed.
   */
  lemma UndecodableIsDeadLettered(cfg: Config, msg: Message, replies: Replies)
    requires cfg.decode(msg.value).Failure?
    ensures var h := Handle(cfg, msg, replies);
      && h.handedOver == None
      && h.sent.Some?
      && h.sent.value.topic == cfg.dlqTopic
      && h.sent.value.key == msg.key && h.sent.value.value == msg.value
      && h.sent.value.headers.Keys == {"error_reason", "error_details", "original_topic", "original_offset"}
      && h.sent.value.headers["error_reason"] == UnmarshalFailed
      && h.sent.value.headers["error_details"] == cfg.decode(msg.value).error
      && h.sent.value.headers["original_topic"] == msg.topic
      && (h.result == Pass <==> replies.dlq == Pass)
  {
  }

  /** The `original_offset` header reads back as the message's offset. */
  lemma OffsetHeaderRoundTrip(cfg: Config, msg: Message, replies: Replies)
    requires Handle(cfg, msg, replies).sent.Some?
    ensures "original_offset" in Handle(cfg, msg, replies).sent.value.headers
    ensures Decimal.ParseInt(Handle(cfg, msg, replies).sent.value.headers["original_offset"]) == Some(msg.offset as int)
  {
    Decimal.FormatParseRoundTrip(msg.offset);
  }

  /**
   * A decoded order that breaks a rule is dead-lettered once with the
   * validator's message, which names every broken rule; the service is not
   * called, and the reply is an error exactly when the send failed.
   */
  lemma InvalidIsDeadLettered(cfg: Config, msg: Message, replies: Replies)
    requires cfg.decode(msg.value).Success?
    requires !Validator.Conforms(cfg.decode(msg.value).value, cfg.validEmail)
    ensures var order := cfg.decode(msg.value).value;
      var h := Handle(cfg, msg, replies);
      && h.handedOver == None
      && h.sent.Some?
      && h.sent.value.topic == cfg.dlqTopic
      && h.sent.value.key == msg.key && h.sent.value.value == msg.value
      && h.sent.value.headers["error_reason"] == ValidationFailed
      && h.sent.value.headers["original_topic"] == msg.topic
      && (forall v :: v in Validator.Violations(order, cfg.validEmail) ==>
            Contains(h.sent.value.headers["error_details"], Validator.MessageOf(v)))
      && (h.result == Pass <==> replies.dlq == Pass)
  {
    Validator.ValidatePassesIff(cfg.decode(msg.value).value, cfg.validEmail);
  }

  /**
   * The service sees exactly the decoded orders that pass validation, and
   * nothing is dead-lettered for them; its error comes back wrapped, with
   * its sentinel kept.
   */
  lemma ServiceOnlyForValidOrders(cfg: Config, msg: Message, replies: Replies)
    ensures var h := Handle(cfg, msg, replies);
      && (h.handedOver.Some? <==>
            cfg.decode(msg.value).Success? && Validator.Conforms(cfg.decode(msg.value).value, cfg.validEmail))
      && (h.handedOver.Some? ==> h.handedOver.value == cfg.decode(msg.value).value && h.sent == None)
      && (h.handedOver.Some? ==> (h.result.Fail? <==> replies.service.Fail?))
      && (h.handedOver.Some? && replies.service.Fail? ==> h.result.error.kind == replies.service.error.kind)
  {
    if cfg.decode(msg.value).Success? {
      Validator.ValidatePassesIff(cfg.decode(msg.value).value, cfg.validEmail);
    }
  }

  /**
   * A message is handled with success only when it was dead-lettered and
   * the send succeeded, or the service stored it: a failed dead-letter send
   * is always an error.
   */
  lemma OkMeansHandled(cfg: Config, msg: Message, replies: Replies)
    ensures var h := Handle(cfg, msg, replies);
      h.result == Pass <==>
        (h.sent.Some? && replies.dlq == Pass) || (h.handedOver.Some? && replies.service == Pass)
  {
    if cfg.decode(msg.value).Success? {
      Validator.ValidatePassesIff(cfg.decode(msg.value).value, cfg.validEmail);
    }
  }

  // ---------------------------------------------------------------------
  // The fetch loop

  /** Why `FetchMessage` failed. */
  datatype FetchCause = Canceled | DeadlineExceeded | Transient(text: string)

  /** One turn of the loop: the context was done, the fetch failed, or a message arrived. */
  datatype Event =
    | ContextDone
    | FetchFailed(cause: FetchCause)
    | Fetched(msg: Message, replies: Replies)

  /** What the consumer has done so far. */
  datatype Trail = Trail(sent: seq<DeadLetter>, handedOver: seq<Order>, commits: seq<Message>)

  datatype Run = Run(trail: Trail, stopped: bool)

  /** Whether an event ends `Start`. */
  predicate Stops(e: Event) {
    e.ContextDone? || (e.FetchFailed? && (e.cause.Canceled? || e.cause.DeadlineExceeded?))
  }

  /** One loop turn of `Start`; nothing happens once the loop has returned. */
  function Turn(cfg: Config, run: Run, e: Event): Run {
    if run.stopped then run
    else if Stops(e) then run.(stopped := true)
    else if e.FetchFailed? then run
    else
      var h := Handle(cfg, e.msg, e.replies);
      var t := run.trail;
      Run(Trail(t.sent + Listed(h.sent), t.handedOver + Listed(h.handedOver),
                t.commits + (if h.result == Pass then [e.msg] else [])), false)
  }

  /** The consumer after the first `n` events of a trace. */
  function RunFrom(cfg: Config, start: Trail, events: seq<Event>, n: nat): Run
    requires n <= |events|
  {
    if n == 0 then Run(start, false) else Turn(cfg, RunFrom(cfg, start, events, n - 1), events[n - 1])
  }

  /** Once the loop has returned, later events change nothing. */
  lemma {:induction false} StoppedStays(cfg: Config, start: Trail, events: seq<Event>, i: nat, n: nat)
    requires i <= n <= |events| && RunFrom(cfg, start, events, i).stopped
    ensures RunFrom(cfg, start, events, n) == RunFrom(cfg, start, events, i)
  {
    if n > i {
      StoppedStays(cfg, start, events, i, n - 1);
    }
  }

  /** A cancellation in a trace ends the run: nothing from that turn on is sent, handed over or committed. */
  lemma StopEndsRun(cfg: Config, start: Trail, events: seq<Event>, j: nat)
    requires j < |events| && Stops(events[j])
    ensures RunFrom(cfg, start, events, |events|).stopped
    ensures RunFrom(cfg, start, events, |events|).trail == RunFrom(cfg, start, events, j).trail
  {
    StoppedStays(cfg, start, events, j + 1, |events|);
  }

  /**
   * A fetched message is committed exactly when its processing returned
   * ok; a fetch error that is not a cancellation changes nothing and the
   * loop goes on; a cancellation ends the loop.
   */
  lemma TurnOutcomes(cfg: Config, run: Run, e: Event)
    requires !run.stopped
    ensures e.Fetched? ==>
      && !Turn(cfg, run, e).stopped
      && (Turn(cfg, run, e).trail.commits == run.trail.commits + [e.msg] <==>
            Handle(cfg, e.msg, e.replies).result == Pass)
      && (Handle(cfg, e.msg, e.replies).result.Fail? ==> Turn(cfg, run, e).trail.commits == run.trail.commits)
    ensures e.FetchFailed? && e.cause.Transient? ==> Turn(cfg, run, e) == run
    ensures Stops(e) ==> Turn(cfg, run, e) == Run(run.trail, true)
  {
    if e.Fetched? {
      var h := Handle(cfg, e.msg, e.replies);
      if h.result != Pass {
        assert |Turn(cfg, run, e).trail.commits| == |run.trail.commits|;
      }
    }
  }

  /** A turn on a fetched message while the loop runs appends what `Handle` did, and commits on success. */
  lemma TurnFetched(cfg: Config, run: Run, e: Event, h: Handling)
    requires !run.stopped && e.Fetched? && h == Handle(cfg, e.msg, e.replies)
    ensures Turn(cfg, run, e) == Run(Trail(run.trail.sent + Listed(h.sent), run.trail.handedOver + Listed(h.handedOver),
                                           run.trail.commits + (if h.result == Pass then [e.msg] else [])), false)
  {
  }

  /** A fetched message that was either dead-lettered or stored by the service, with success. */
  predicate Delivered(cfg: Config, e: Event) {
    e.Fetched? &&
    var h := Handle(cfg, e.msg, e.replies);
    (h.sent.Some? && e.replies.dlq == Pass) || (h.handedOver.Some? && e.replies.service == Pass)
  }

  /** What one turn adds to the commits. */
  lemma TurnCommits(cfg: Config, run: Run, e: Event)
    ensures Turn(cfg, run, e).trail.commits == run.trail.commits +
      (if !run.stopped && !Stops(e) && e.Fetched? && Handle(cfg, e.msg, e.replies).result == Pass
       then [e.msg] else [])
  {
  }

  /**
   * Every message committed during a run was fetched before the loop
   * returned and either dead-lettered successfully or stored by the service;
   * what was committed before the run stays as it was.
   */
  lemma {:induction false} CommitsWereHandled(cfg: Config, start: Trail, events: seq<Event>, n: nat)
    requires n <= |events|
    ensures var c := RunFrom(cfg, start, events, n).trail.commits;
      && |start.commits| <= |c| && c[..|start.commits|] == start.commits
      && forall k :: |start.commits| <= k < |c| ==> c[k] in Handled(cfg, start, events, n)
  {
    if n > 0 {
      CommitsWereHandled(cfg, start, events, n - 1);
      var b := RunFrom(cfg, start, events, n - 1).trail.commits;
      var c := RunFrom(cfg, start, events, n).trail.commits;
      TurnCommitsDelivered(cfg, RunFrom(cfg, start, events, n - 1), events[n - 1]);
      HandledGrows(cfg, start, events, n);
      var added := if c == b then [] else [events[n - 1].msg];
      assert c == b + added;
      ExtendWithin(b, added, |start.commits|, Handled(cfg, start, events, n - 1), Handled(cfg, start, events, n));
    }
  }

  /** The messages fetched by one of the first `n` events while the loop was running, and delivered. */
  ghost function Handled(cfg: Config, start: Trail, events: seq<Event>, n: nat): set<Message>
    requires n <= |events|
  {
    set j | 0 <= j < n && Delivered(cfg, events[j]) && !RunFrom(cfg, start, events, j).stopped :: events[j].msg
  }

  /** A turn commits nothing, or the message of a running turn's delivered event. */
  lemma TurnCommitsDelivered(cfg: Config, run: Run, e: Event)
    ensures var c := Turn(cfg, run, e).trail.commits;
      c == run.trail.commits
      || (!run.stopped && Delivered(cfg, e) && c == run.trail.commits + [e.msg])
  {
    TurnCommits(cfg, run, e);
    if e.Fetched? {
      OkMeansHandled(cfg, e.msg, e.replies);
    }
  }

  /** One more event keeps what was handled and adds its own message when the loop delivers it. */
  lemma HandledGrows(cfg: Config, start: Trail, events: seq<Event>, n: nat)
    requires 0 < n <= |events|
    ensures Handled(cfg, start, events, n - 1) <= Handled(cfg, start, events, n)
    ensures Delivered(cfg, events[n - 1]) && !RunFrom(cfg, start, events, n - 1).stopped ==>
      events[n - 1].msg in Handled(cfg, start, events, n)
  {
  }

  /** A list that keeps its old part and gains elements of `after` only stays within `after`. */
  lemma ExtendWithin(b: seq<Message>, added: seq<Message>, base: nat, before: set<Message>, after: set<Message>)
    requires base <= |b| && before <= after
    requires forall k :: base <= k < |b| ==> b[k] in before
    requires forall k :: 0 <= k < |added| ==> added[k] in after
    ensures base <= |b + added| && (b + added)[..base] == b[..base]
    ensures forall k :: base <= k < |b + added| ==> (b + added)[k] in after
  {
    var c := b + added;
    forall k | base <= k < |c| ensures c[k] in after {
      if k < |b| {
        assert c[k] == b[k];
      } else {
        assert c[k] == added[k - |b|];
      }
    }
  }

  // ---------------------------------------------------------------------
  // The consumer object

  class Consumer {
    const cfg: Config
    var sent: seq<DeadLetter>
    var handedOver: seq<Order>
    var commits: seq<Message>

    /** `NewConsumer`: nothing sent, handed over or committed yet. */
    constructor (cfg: Config)
      ensures this.cfg == cfg && Now() == Trail([], [], [])
    {
      this.cfg := cfg;
      sent := [];
      handedOver := [];
      commits := [];
    }

    function Now(): Trail
      reads this
    {
      Trail(sent, handedOver, commits)
    }

    method ProcessMessage(msg: Message, replies: Replies) returns (r: Outcome<Error>)
      modifies this
      ensures var h := Handle(cfg, msg, replies);
        && r == h.result
        && sent == old(sent) + Listed(h.sent)
        && handedOver == old(handedOver) + Listed(h.handedOver)
        && commits == old(commits)
    {
      var decoded := cfg.decode(msg.value);
      if decoded.Failure? {
        sent := sent + [Rejected(cfg.dlqTopic, msg, UnmarshalFailed, decoded.error)];
        return AfterSend(replies.dlq);
      }
      var order := decoded.value;
      var verdict := Validator.Validate(order, cfg.validEmail);
      if verdict.Fail? {
        if verdict.error.kind == BadMessage {
          sent := sent + [Rejected(cfg.dlqTopic, msg, ValidationFailed, verdict.error.text)];
          return AfterSend(replies.dlq);
        }
        return Pass;
      }
      handedOver := handedOver + [order];
      if replies.service.Fail? {
        return Fail(Wrap(ProcessOp, replies.service.error));
      }
      return Pass;
    }

    /** One turn of `Start`'s loop: stop, skip a failed fetch, or process and commit. */
    method Poll(e: Event) returns (stop: bool)
      modifies this
      ensures Run(Now(), stop) == Turn(cfg, Run(old(Now()), false), e)
    {
      if Stops(e) {
        return true;
      }
      if e.Fetched? {
        var r := ProcessMessage(e.msg, e.replies);
        if r == Pass {
          commits := commits + [e.msg];
        }
      }
      return false;
    }

    /** `Start`: fetch, process, and commit what was processed, until the context ends or the trace runs out. */
    method Start(events: seq<Event>) returns (stopped: bool)
      modifies this
      ensures Run(Now(), stopped) == RunFrom(cfg, old(Now()), events, |events|)
    {
      ghost var start := Now();
      var i := 0;
      while i < |events|
        invariant 0 <= i <= |events|
        invariant RunFrom(cfg, start, events, i) == Run(Now(), false)
      {
        var stop := Poll(events[i]);
        if stop {
          StoppedStays(cfg, start, events, i + 1, |events|);
          return true;
        }
        i := i + 1;
      }
      return false;
    }
  }
}
