/** A forwarder is long-lived: its counters, the calls it makes and its log
    accumulate over every `Write` it serves. This module replays a whole
    sequence of `Write` calls and relates the accumulated state to simple
    reference descriptions of that sequence. */
module ForwarderRuns {
  import opened ForwarderSpec

  /** One `Write(message)` call together with what the collaborators answered. */
  datatype Call = Call(message: Message, answers: Answers)

  /** The state after serving `calls`, in order, starting from `s`. */
  function Run(s: Snapshot, hasRetrier: bool, calls: seq<Call>): (r: Snapshot)
    // The counters never go down and the call traces and the log only grow.
    ensures s.sentMessages <= r.sentMessages && s.retryCount <= r.retryCount
    ensures s.writes <= r.writes && s.retries <= r.retries && s.log <= r.log
    decreases |calls|
  {
    if calls == [] then s
    else Run(Step(s, hasRetrier, calls[0].message, calls[0].answers), hasRetrier, calls[1..])
  }

  /** How many of `calls` end in the terminal state `o`. */
  function Tally(hasRetrier: bool, calls: seq<Call>, o: Outcome): (n: nat)
    ensures n <= |calls|
    decreases |calls|
  {
    if calls == [] then 0
    else (if Classify(hasRetrier, calls[0].answers) == o then 1 else 0) + Tally(hasRetrier, calls[1..], o)
  }

  /** The network write one call ought to cause: one, to the picked client
      with the call's message, when client selection succeeded. */
  function CallWrites(c: Call): (ws: seq<WriteCall>)
  {
    match c.answers.pick
    case Picked(client) => [WriteCall(client, c.message)]
    case PickFailed(_) => []
  }

  /** The network writes `calls` ought to cause, call after call. */
  function NetworkCalls(calls: seq<Call>): (ws: seq<WriteCall>)
    decreases |calls|
  {
    if calls == [] then [] else CallWrites(calls[0]) + NetworkCalls(calls[1..])
  }

  /** The message one call ought to hand to the retrier: its own, when its
      write failed while a retrier is configured. */
  function CallRetries(hasRetrier: bool, c: Call): (ms: seq<Message>)
  {
    var a := c.answers;
    if hasRetrier && a.pick.Picked? && a.write.Failed? then [c.message] else []
  }

  /** The messages `calls` ought to hand to the retrier, call after call. */
  function RetriedMessages(hasRetrier: bool, calls: seq<Call>): (ms: seq<Message>)
    decreases |calls|
  {
    if calls == [] then [] else CallRetries(hasRetrier, calls[0]) + RetriedMessages(hasRetrier, calls[1..])
  }

  /** The lines one call ought to log, given what the collaborators answered:
      the pick error when selection fails; nothing when the write succeeds;
      otherwise the write error, followed by the retrier's error when a
      configured retrier fails too. */
  function CallLog(hasRetrier: bool, a: Answers): (lines: seq<LogLine>)
  {
    match a.pick
    case PickFailed(e) => [LogLine(PickFailedEvent, e)]
    case Picked(_) =>
      match a.write
      case Ok => []
      case Failed(e) =>
        var retryLine := if hasRetrier && a.retry.Failed? then [LogLine(RetryFailedEvent, a.retry.err)] else [];
        [LogLine(WriteFailedEvent, e)] + retryLine
  }

  /** The lines `calls` ought to log, call after call. */
  function LogLines(hasRetrier: bool, calls: seq<Call>): (lines: seq<LogLine>)
    decreases |calls|
  {
    if calls == [] then []
    else CallLog(hasRetrier, calls[0].answers) + LogLines(hasRetrier, calls[1..])
  }

  /** What one `Step` appends to each trace and to the log, in the terms of
      the per-call reference functions. */
  lemma StepAppends(s: Snapshot, hasRetrier: bool, c: Call)
    ensures Step(s, hasRetrier, c.message, c.answers).writes == s.writes + CallWrites(c)
    ensures Step(s, hasRetrier, c.message, c.answers).retries == s.retries + CallRetries(hasRetrier, c)
    ensures Step(s, hasRetrier, c.message, c.answers).log == s.log + CallLog(hasRetrier, c.answers)
  {
  }

  /** Serving one more call is one more `Step`: the replay agrees with a
      forwarder that applies each call to its current state. */
  lemma {:induction false} RunSnoc(s: Snapshot, hasRetrier: bool, calls: seq<Call>, c: Call)
    ensures Run(s, hasRetrier, calls + [c]) == Step(Run(s, hasRetrier, calls), hasRetrier, c.message, c.answers)
    decreases |calls|
  {
    if calls == [] {
      assert [c][1..] == [];
    } else {
      assert (calls + [c])[0] == calls[0];
      assert (calls + [c])[1..] == calls[1..] + [c];
      RunSnoc(Step(s, hasRetrier, calls[0].message, calls[0].answers), hasRetrier, calls[1..], c);
    }
  }

  /** The network wrapper sees exactly the writes the reference description
      lists: nothing is written without a selected client, and every message
      goes to the client that was picked for it, unchanged and in order. */
  lemma {:induction false} RunWrites(s: Snapshot, hasRetrier: bool, calls: seq<Call>)
    ensures Run(s, hasRetrier, calls).writes == s.writes + NetworkCalls(calls)
    decreases |calls|
  {
    if calls != [] {
      var s' := Step(s, hasRetrier, calls[0].message, calls[0].answers);
      RunWrites(s', hasRetrier, calls[1..]);
      var w := CallWrites(calls[0]);
      StepAppends(s, hasRetrier, calls[0]);
      assert Run(s, hasRetrier, calls) == Run(s', hasRetrier, calls[1..]);
      assert NetworkCalls(calls) == w + NetworkCalls(calls[1..]);
      assert s.writes + w + NetworkCalls(calls[1..]) == s.writes + (w + NetworkCalls(calls[1..]));
    }
  }

  /** The retrier sees exactly the messages the reference description lists:
      nothing is retried that did not fail, and each message is passed on unchanged. */
  lemma {:induction false} RunRetries(s: Snapshot, hasRetrier: bool, calls: seq<Call>)
    ensures Run(s, hasRetrier, calls).retries == s.retries + RetriedMessages(hasRetrier, calls)
    decreases |calls|
  {
    if calls != [] {
      var s' := Step(s, hasRetrier, calls[0].message, calls[0].answers);
      RunRetries(s', hasRetrier, calls[1..]);
      var m := CallRetries(hasRetrier, calls[0]);
      StepAppends(s, hasRetrier, calls[0]);
      assert Run(s, hasRetrier, calls) == Run(s', hasRetrier, calls[1..]);
      assert RetriedMessages(hasRetrier, calls) == m + RetriedMessages(hasRetrier, calls[1..]);
      assert s.retries + m + RetriedMessages(hasRetrier, calls[1..])
          == s.retries + (m + RetriedMessages(hasRetrier, calls[1..]));
    }
  }

  /** The log holds exactly the lines the reference description lists, in
      the order of the calls that caused them, after what was logged before. */
  lemma {:induction false} RunLogLines(s: Snapshot, hasRetrier: bool, calls: seq<Call>)
    ensures Run(s, hasRetrier, calls).log == s.log + LogLines(hasRetrier, calls)
    decreases |calls|
  {
    if calls != [] {
      var s' := Step(s, hasRetrier, calls[0].message, calls[0].answers);
      RunLogLines(s', hasRetrier, calls[1..]);
      var l := CallLog(hasRetrier, calls[0].answers);
      StepAppends(s, hasRetrier, calls[0]);
      assert Run(s, hasRetrier, calls) == Run(s', hasRetrier, calls[1..]);
      assert LogLines(hasRetrier, calls) == l + LogLines(hasRetrier, calls[1..]);
      assert s.log + l + LogLines(hasRetrier, calls[1..]) == s.log + (l + LogLines(hasRetrier, calls[1..]));
    }
  }

  /** The counters count outcomes: `sentMessages` grows by the number of
      delivered calls (first time or through the retrier) and `retryCount`
      by the number of successful retries. */
  lemma {:induction false} RunCounters(s: Snapshot, hasRetrier: bool, calls: seq<Call>)
    ensures Run(s, hasRetrier, calls).sentMessages
      == s.sentMessages + Tally(hasRetrier, calls, Sent) + Tally(hasRetrier, calls, RetrySucceeded)
    ensures Run(s, hasRetrier, calls).retryCount == s.retryCount + Tally(hasRetrier, calls, RetrySucceeded)
    decreases |calls|
  {
    if calls != [] {
      var s' := Step(s, hasRetrier, calls[0].message, calls[0].answers);
      RunCounters(s', hasRetrier, calls[1..]);
      assert Run(s, hasRetrier, calls) == Run(s', hasRetrier, calls[1..]);
    }
  }

  /** Every call ends in exactly one terminal state (a counting helper for `TraceLengths`). */
  lemma {:induction false} TallyPartition(hasRetrier: bool, calls: seq<Call>)
    ensures Tally(hasRetrier, calls, SelectFailed) + Tally(hasRetrier, calls, Sent)
      + Tally(hasRetrier, calls, WriteDropped) + Tally(hasRetrier, calls, RetrySucceeded)
      + Tally(hasRetrier, calls, RetryExhausted) == |calls|
    decreases |calls|
  {
    if calls != [] {
      TallyPartition(hasRetrier, calls[1..]);
    }
  }

  /** The log grows by one line per failed selection, per failed write and
      per failed retry, so every message that is not delivered leaves a trace. */
  lemma {:induction false} RunLog(s: Snapshot, hasRetrier: bool, calls: seq<Call>)
    ensures |Run(s, hasRetrier, calls).log|
      == |s.log| + Tally(hasRetrier, calls, SelectFailed) + Tally(hasRetrier, calls, WriteDropped)
        + Tally(hasRetrier, calls, RetrySucceeded) + 2 * Tally(hasRetrier, calls, RetryExhausted)
    decreases |calls|
  {
    if calls != [] {
      var s' := Step(s, hasRetrier, calls[0].message, calls[0].answers);
      RunLog(s', hasRetrier, calls[1..]);
      assert Run(s, hasRetrier, calls) == Run(s', hasRetrier, calls[1..]);
    }
  }

  /** A forwarder built without a retrier never retries: no call reaches a
      retry outcome, the retrier trace stays as it was and retryCount never moves. */
  lemma {:induction false} NoRetrierNeverRetries(s: Snapshot, calls: seq<Call>)
    ensures Tally(false, calls, RetrySucceeded) == 0 && Tally(false, calls, RetryExhausted) == 0
    ensures Run(s, false, calls).retries == s.retries
    ensures Run(s, false, calls).retryCount == s.retryCount
    decreases |calls|
  {
    if calls != [] {
      var s' := Step(s, false, calls[0].message, calls[0].answers);
      NoRetrierNeverRetries(s', calls[1..]);
      assert Run(s, false, calls) == Run(s', false, calls[1..]);
      assert s'.retries == s.retries;
    }
  }

  /** Only calls whose selection succeeded reach the network, and only calls
      whose write failed under a retrier reach the retrier. */
  lemma {:induction false} TraceLengths(hasRetrier: bool, calls: seq<Call>)
    ensures |NetworkCalls(calls)| == |calls| - Tally(hasRetrier, calls, SelectFailed)
    ensures |RetriedMessages(hasRetrier, calls)|
      == Tally(hasRetrier, calls, RetrySucceeded) + Tally(hasRetrier, calls, RetryExhausted)
    decreases |calls|
  {
    if calls != [] {
      TraceLengths(hasRetrier, calls[1..]);
      TallyPartition(hasRetrier, calls[1..]);
      assert NetworkCalls(calls) == CallWrites(calls[0]) + NetworkCalls(calls[1..]);
      assert RetriedMessages(hasRetrier, calls)
          == CallRetries(hasRetrier, calls[0]) + RetriedMessages(hasRetrier, calls[1..]);
    }
  }
}
