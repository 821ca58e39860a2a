/** The values the Doppler forwarder exchanges with its collaborators, and the
    effect of one `Write(message)` call as a function of what the client pool,
    the network wrapper and the (optional) retrier answer during that call.

    The forwarder is built from four injected collaborators: a network
    wrapper, a client pool, a retrier that may be nil, and a logger. Their
    internals are not part of this model; what they answer is an input. */
module ForwarderSpec {

  /** A message payload, Go's `[]byte`. The forwarder never looks inside it. */
  type Message = seq<bv8>

  /** An opaque handle to one Doppler connection, handed out by the client pool. */
  datatype Client = Client(id: nat)

  /** An opaque Go `error` value. */
  datatype Error = Error(text: string)

  /** What `clientPool.RandomClient()` returned: a client, or an error. */
  datatype Selection = Picked(client: Client) | PickFailed(err: Error)

  /** What a collaborator that returns only an `error` returned: nil, or an error. */
  datatype Reply = Ok | Failed(err: Error)

  /** The answers the collaborators give during one `Write` call: the pool's
      selection, the network wrapper's reply and the retrier's reply. An answer
      belongs to a call that may never be made (no write after a failed
      selection, no retry after a successful write or without a retrier);
      such an answer is then ignored. */
  datatype Answers = Answers(pick: Selection, write: Reply, retry: Reply)

  /** One recorded call `networkWrapper.Write(client, message)`. */
  datatype WriteCall = WriteCall(client: Client, message: Message)

  /** One line written to the forwarder's logger: the event it reports and
      the error that caused it. */
  datatype LogLine = LogLine(event: string, cause: Error)

  const PickFailedEvent := "failed to pick a client"
  const WriteFailedEvent := "failed to write message"
  const RetryFailedEvent := "failed to retry message"

  /** Everything one forwarder has observably done so far: the two metric
      counters `DopplerForwarder.sentMessages` and `DopplerForwarder.retryCount`,
      the calls made to the network wrapper and to the retrier (in order),
      and the log. */
  datatype Snapshot = Snapshot(
    sentMessages: nat,
    retryCount: nat,
    writes: seq<WriteCall>,
    retries: seq<Message>,
    log: seq<LogLine>)

  /** A forwarder that has not been written to yet. */
  const Initial := Snapshot(0, 0, [], [], [])

  /** The terminal states of one `Write` call:
      selecting fails; or the write succeeds; or the write fails and there
      is no retrier; or the write fails and the retrier succeeds; or the
      write fails and so does the retrier. */
  datatype Outcome = SelectFailed | Sent | WriteDropped | RetrySucceeded | RetryExhausted
  {
    /** The message reached a Doppler, on the first attempt or through the retrier. */
    predicate Delivered() { Sent? || RetrySucceeded? }

    /** The retrier was handed the message. */
    predicate Retried() { RetrySucceeded? || RetryExhausted? }
  }

  /** The terminal state one `Write` call reaches, given whether a retrier
      is configured and what the collaborators answer. */
  function Classify(hasRetrier: bool, a: Answers): (o: Outcome)
    ensures o == SelectFailed <==> a.pick.PickFailed?
    ensures o == Sent <==> a.pick.Picked? && a.write.Ok?
    ensures o.Retried() <==> hasRetrier && a.pick.Picked? && a.write.Failed?
    ensures o == RetrySucceeded ==> a.retry.Ok?
    ensures o == RetryExhausted ==> a.retry.Failed?
  {
    if a.pick.PickFailed? then SelectFailed
    else if a.write.Ok? then Sent
    else if !hasRetrier then WriteDropped
    else if a.retry.Ok? then RetrySucceeded
    else RetryExhausted
  }

  /** The state after one `Write(message)` call on a forwarder in state `s`.
      Step by step: pick a client (on error, log and stop); write the message
      to it (on success, count it as sent); on a write error log it and, if
      a retrier is configured, hand it the message; log a retrier error, or
      count the successful retry. */
  function Step(s: Snapshot, hasRetrier: bool, message: Message, a: Answers): (r: Snapshot)
    // A failed selection is logged and nothing else happens: no write, no
    // retry, no counter moves.
    ensures a.pick.PickFailed? ==> r == s.(log := s.log + [LogLine(PickFailedEvent, a.pick.err)])
    // Otherwise the network wrapper gets exactly the selected client and the given message.
    ensures a.pick.Picked? ==> r.writes == s.writes + [WriteCall(a.pick.client, message)]
    // A first-time success only counts one sent message.
    ensures a.pick.Picked? && a.write.Ok? ==>
      r == s.(writes := r.writes, sentMessages := s.sentMessages + 1)
    // A failed write is logged first.
    ensures a.pick.Picked? && a.write.Failed? ==>
      |r.log| > |s.log| && r.log[..|s.log| + 1] == s.log + [LogLine(WriteFailedEvent, a.write.err)]
    // The retrier is called, with the identical message, exactly when one is
    // configured and the write failed.
    ensures r.retries == if Classify(hasRetrier, a).Retried() then s.retries + [message] else s.retries
    // A failing retrier is logged and moves no counter.
    ensures Classify(hasRetrier, a) == RetryExhausted ==>
      r.log == s.log + [LogLine(WriteFailedEvent, a.write.err), LogLine(RetryFailedEvent, a.retry.err)] &&
      r.retryCount == s.retryCount && r.sentMessages == s.sentMessages
    // A succeeding retrier adds exactly one to retryCount (and counts the message as sent).
    ensures Classify(hasRetrier, a) == RetrySucceeded ==>
      r.log == s.log + [LogLine(WriteFailedEvent, a.write.err)] &&
      r.retryCount == s.retryCount + 1 && r.sentMessages == s.sentMessages + 1
    // Without a retrier a failed write is final: it is logged and moves no counter.
    ensures Classify(hasRetrier, a) == WriteDropped ==>
      r.log == s.log + [LogLine(WriteFailedEvent, a.write.err)] &&
      r.retryCount == s.retryCount && r.sentMessages == s.sentMessages
    // Summary over all paths: sentMessages moves by one exactly when the
    // message was delivered, retryCount exactly when the retrier succeeded.
    ensures r.sentMessages == s.sentMessages + (if Classify(hasRetrier, a).Delivered() then 1 else 0)
    ensures r.retryCount == s.retryCount + (if Classify(hasRetrier, a) == RetrySucceeded then 1 else 0)
  {
    match a.pick
    case PickFailed(pickErr) =>
      s.(log := s.log + [LogLine(PickFailedEvent, pickErr)])
    case Picked(client) =>
      var written := s.(writes := s.writes + [WriteCall(client, message)]);
      match a.write
      case Ok =>
        written.(sentMessages := written.sentMessages + 1)
      case Failed(writeErr) =>
        var logged := written.(log := written.log + [LogLine(WriteFailedEvent, writeErr)]);
        if !hasRetrier then logged
        else
          var retried := logged.(retries := logged.retries + [message]);
          match a.retry
          case Ok =>
            retried.(retryCount := retried.retryCount + 1, sentMessages := retried.sentMessages + 1)
          case Failed(retryErr) =>
            retried.(log := retried.log + [LogLine(RetryFailedEvent, retryErr)])
  }
}
