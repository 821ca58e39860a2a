/** The Doppler forwarder of the metron agent as an object: it holds its
    client pool and whether a retrier was injected, keeps its metric counters,
    and records the calls it makes to the network wrapper and the retrier and
    the lines it logs. */
module DopplerForwarder {
  import opened ForwarderSpec
  import opened ForwarderRuns

  /** The pool of Doppler clients. Its membership is changed by code outside
      this model (the Doppler discovery watcher). The forwarder asks it for
      its size here; the client it picks at random is an input of each `Write`. */
  class ClientPool {
    var clients: seq<Client>

    constructor (clients: seq<Client>)
      ensures this.clients == clients
    {
      this.clients := clients;
    }

    function Size(): (n: nat)
      reads this
    {
      |clients|
    }
  }

  class Forwarder {
    const pool: ClientPool
    const hasRetrier: bool
    var sentMessages: nat
    var retryCount: nat
    var writes: seq<WriteCall>
    var retries: seq<Message>
    var log: seq<LogLine>
    /** Every `Write` served so far, with the collaborators' answers. */
    ghost var calls: seq<Call>

    /** The forwarder's observable state as one value. */
    function State(): (snapshot: Snapshot)
      reads this
    {
      Snapshot(sentMessages, retryCount, writes, retries, log)
    }

    /** The counters, the call traces and the log are exactly those obtained
        by serving `calls` from the initial state. */
    ghost predicate Valid()
      reads this
    {
      State() == Run(Initial, hasRetrier, calls)
    }

    /** `dopplerforwarder.New(networkWrapper, clientPool, retrier, logger)`;
        `hasRetrier` says whether `retrier` is non-nil. */
    constructor (pool: ClientPool, hasRetrier: bool)
      ensures Valid() && calls == []
      ensures this.pool == pool && this.hasRetrier == hasRetrier
      ensures State() == Initial
    {
      this.pool := pool;
      this.hasRetrier := hasRetrier;
      sentMessages, retryCount := 0, 0;
      writes, retries, log := [], [], [];
      calls := [];
    }

    /** `Write(message)`: `answers` is what `clientPool.RandomClient()`,
        `networkWrapper.Write` and `retrier.Retry` return during this call. */
    method Write(message: Message, answers: Answers)
      requires Valid()
      modifies this
      ensures State() == Step(old(State()), hasRetrier, message, answers)
      ensures calls == old(calls) + [Call(message, answers)]
      ensures Valid()
    {
      RunSnoc(Initial, hasRetrier, calls, Call(message, answers));
      calls := calls + [Call(message, answers)];

      var selection := answers.pick;
      if selection.PickFailed? {
        log := log + [LogLine(PickFailedEvent, selection.err)];
        return;
      }
      var client := selection.client;
      writes := writes + [WriteCall(client, message)];
      var err := answers.write;
      if err.Ok? {
        sentMessages := sentMessages + 1;
        return;
      }
      log := log + [LogLine(WriteFailedEvent, err.err)];
      if hasRetrier {
        retries := retries + [message];
        var retryErr := answers.retry;
        if retryErr.Failed? {
          log := log + [LogLine(RetryFailedEvent, retryErr.err)];
          return;
        }
        retryCount := retryCount + 1;
        sentMessages := sentMessages + 1;
      }
    }

    /** `Weight()`: the size the client pool reports right now. */
    function Weight(): (w: int)
      reads this, pool
      ensures w == pool.Size()
    {
      pool.Size()
    }

    /** Whatever the calls served so far, the forwarder accounts for them:
        `sentMessages` is the number of delivered messages, `retryCount` the
        number of successful retries, the network writes, the retries and the
        log are exactly what the reference descriptions list for those calls,
        and a network write happened for every call whose selection succeeded. */
    lemma Accounting()
      requires Valid()
      ensures sentMessages == Tally(hasRetrier, calls, Sent) + Tally(hasRetrier, calls, RetrySucceeded)
      ensures retryCount == Tally(hasRetrier, calls, RetrySucceeded)
      ensures writes == NetworkCalls(calls)
      ensures retries == RetriedMessages(hasRetrier, calls)
      ensures log == LogLines(hasRetrier, calls)
      ensures |writes| == |calls| - Tally(hasRetrier, calls, SelectFailed)
    {
      RunCounters(Initial, hasRetrier, calls);
      RunWrites(Initial, hasRetrier, calls);
      RunRetries(Initial, hasRetrier, calls);
      RunLogLines(Initial, hasRetrier, calls);
      TraceLengths(hasRetrier, calls);
    }
  }

  /** "selects a random client": the wrapper is called once, with the
      client the pool picked and the message, and the message is counted. */
  method SelectsRandomClient(client: Client, message: Message, hasRetrier: bool) returns (f: Forwarder)
    ensures f.writes == [WriteCall(client, message)]
    ensures f.sentMessages == 1 && f.retryCount == 0 && f.retries == [] && f.log == []
  {
    var pool := new ClientPool([client]);
    f := new Forwarder(pool, hasRetrier);
    f.Write(message, Answers(Picked(client), Ok, Ok));
  }

  /** "when selecting a client errors": logged, no write, and even with a
      retrier no retry. */
  method SelectionErrors(client: Client, message: Message, hasRetrier: bool, boom: Error) returns (f: Forwarder)
    ensures f.log == [LogLine(PickFailedEvent, boom)]
    ensures f.writes == [] && f.retries == []
    ensures f.sentMessages == 0 && f.retryCount == 0
  {
    var pool := new ClientPool([client]);
    f := new Forwarder(pool, hasRetrier);
    f.Write(message, Answers(PickFailed(boom), Ok, Ok));
  }

  /** "when networkWrapper write fails" without a retrier: logged, nothing counted. */
  method NetworkWriteFails(client: Client, message: Message, boom: Error) returns (f: Forwarder)
    ensures f.writes == [WriteCall(client, message)]
    ensures f.log == [LogLine(WriteFailedEvent, boom)]
    ensures f.retries == [] && f.sentMessages == 0 && f.retryCount == 0
  {
    var pool := new ClientPool([client]);
    f := new Forwarder(pool, false);
    f.Write(message, Answers(Picked(client), Failed(boom), Ok));
  }

  /** "retries if a client write errors" and "increments retryCount": the
      retrier gets the identical message and its success is counted once. */
  method RetriesFailedWrite(client: Client, message: Message, boom: Error) returns (f: Forwarder)
    ensures f.retries == [message]
    ensures f.retryCount == 1
    ensures f.log == [LogLine(WriteFailedEvent, boom)]
  {
    var pool := new ClientPool([client]);
    f := new Forwarder(pool, true);
    f.Write(message, Answers(Picked(client), Failed(boom), Ok));
  }

  /** "logs an error if the retrier errors": the retrier was called, its
      error is logged and retryCount stays zero. */
  method RetrierErrors(client: Client, message: Message, boom: Error, retryBoom: Error) returns (f: Forwarder)
    ensures f.retries == [message]
    ensures LogLine(RetryFailedEvent, retryBoom) in f.log
    ensures f.retryCount == 0
  {
    var pool := new ClientPool([client]);
    f := new Forwarder(pool, true);
    f.Write(message, Answers(Picked(client), Failed(boom), Failed(retryBoom)));
  }

  /** "returns the size of the client pool": a pool of ten clients gives
      weight 10. Beyond that test, the weight follows the pool as its
      membership changes: nothing is cached. */
  method WeightOfPool() returns (f: Forwarder, before: int, after: int)
    ensures before == 10 && after == 3
  {
    var pool := new ClientPool(seq(10, i requires 0 <= i => Client(i)));
    f := new Forwarder(pool, false);
    before := f.Weight();
    pool.clients := pool.clients[..3];
    after := f.Weight();
  }
}
