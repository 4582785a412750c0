/** The bounded-retry error handler (src/modules/messaging/retry-error-handler.ts). */
module Retry {
  import opened Common

  const ATTEMPTS_HEADER := "x-attempts"
  const DEFAULT_MAX_RETRIES: nat := 3
  const DEFAULT_BASE_DELAY_MS: nat := 1000
  const STALE_CLAIM_SECONDS: nat := 30
  const STALE_CLAIM_MS: nat := 1000 * STALE_CLAIM_SECONDS

  /** A message as the broker holds it. Header values other than the attempt count are opaque. */
  datatype Message = Message(messageId: MessageId, content: string, headers: map<string, nat>)

  /** The delay queue `${queue}.retry.${delayMs}ms`. */
  datatype WaitQueue = WaitQueue(queue: string, delayMs: nat)

  /** What the handler tells the channel, in order. */
  datatype Command =
    | AssertQueue(queue: WaitQueue, ttlMs: nat, deadLetterTo: string)
    | SendToQueue(queue: WaitQueue, message: Message)
    | Ack(message: Message)
    | Nack(message: Message)

  function Pow2(n: nat): (p: nat)
    ensures p >= 1
  {
    if n == 0 then 1 else 2 * Pow2(n - 1)
  }

  function RetryDelayMs(attempt: nat, base: nat): nat
    requires attempt > 0
  {
    base * Pow2(attempt - 1)
  }

  function Attempts(m: Message): nat {
    if ATTEMPTS_HEADER in m.headers then m.headers[ATTEMPTS_HEADER] else 0
  }

  function WithAttempts(m: Message, n: nat): Message {
    m.(headers := m.headers[ATTEMPTS_HEADER := n])
  }

  /** The handler's reaction to a failed handling of `m` from `queue`. */
  function Commands(queue: string, m: Message, maxRetries: nat, base: nat): seq<Command> {
    var attempts := Attempts(m);
    if attempts < maxRetries then
      var wait := WaitQueue(queue, RetryDelayMs(attempts + 1, base));
      [AssertQueue(wait, wait.delayMs, queue), SendToQueue(wait, WithAttempts(m, attempts + 1)), Ack(m)]
    else
      [Nack(m)]
  }

  /** What is to be done about the failure of a message with `attempts` retries behind it. */
  function Reaction(queue: string, m: Message, attempts: nat, maxRetries: nat, base: nat): seq<Command> {
    if attempts < maxRetries then
      var wait := WaitQueue(queue, base * Pow2(attempts));
      [AssertQueue(wait, wait.delayMs, queue),
       SendToQueue(wait, m.(headers := m.headers["x-attempts" := attempts + 1])),
       Ack(m)]
    else
      [Nack(m)]
  }

  class Channel {
    var log: seq<Command>

    method HandleError(queue: string, m: Message, maxRetries: nat, base: nat)
      modifies this
      ensures log == old(log) + Commands(queue, m, maxRetries, base)
      ensures log == old(log) + Reaction(queue, m, if "x-attempts" in m.headers then m.headers["x-attempts"] else 0,
                                         maxRetries, base)
      // a message that has never failed before is parked for the base delay, as its first attempt
      ensures "x-attempts" !in m.headers && maxRetries > 0 ==>
        log == old(log) + [AssertQueue(WaitQueue(queue, base), base, queue),
                           SendToQueue(WaitQueue(queue, base), m.(headers := m.headers["x-attempts" := 1])),
                           Ack(m)]
    {
      var attempts := Attempts(m);
      if attempts < maxRetries {
        var attempt := attempts + 1;
        var delayMs := RetryDelayMs(attempt, base);
        var waitQueue := WaitQueue(queue, delayMs);
        log := log + [AssertQueue(waitQueue, delayMs, queue)];
        log := log + [SendToQueue(waitQueue, WithAttempts(m, attempt))];
        log := log + [Ack(m)];
        return;
      }
      log := log + [Nack(m)];
    }
  }

  /** Wherever the process dies, the message is still unacknowledged or already parked. */
  lemma NeverAckedBeforeParked(queue: string, m: Message, maxRetries: nat, base: nat, k: nat)
    requires k <= |Commands(queue, m, maxRetries, base)|
    requires Ack(m) in Commands(queue, m, maxRetries, base)[..k]
    ensures exists w :: SendToQueue(w, WithAttempts(m, Attempts(m) + 1)) in Commands(queue, m, maxRetries, base)[..k] &&
                        AssertQueue(w, w.delayMs, queue) in Commands(queue, m, maxRetries, base)[..k]
  {
    var cs := Commands(queue, m, maxRetries, base);
    assert |cs| == 3 && k == 3;
    assert cs[..k][1] == SendToQueue(cs[1].queue, WithAttempts(m, Attempts(m) + 1));
    assert cs[..k][0] == AssertQueue(cs[1].queue, cs[1].queue.delayMs, queue);
  }

  // ---------- the life of a message that always fails ----------

  /** The same message apart from its attempt count. */
  predicate SameButAttempts(a: Message, b: Message) {
    && a.messageId == b.messageId && a.content == b.content
    && (forall k | k in a.headers && k != ATTEMPTS_HEADER :: k in b.headers && b.headers[k] == a.headers[k])
    && (forall k | k in b.headers && k != ATTEMPTS_HEADER :: k in a.headers)
  }

  /** The wait queue and the copy that the handler sends to it. */
  method Park(queue: string, m: Message, maxRetries: nat, base: nat) returns (wait: WaitQueue, parked: Message)
    requires Attempts(m) < maxRetries
    ensures SendToQueue(wait, parked) in Commands(queue, m, maxRetries, base)
    ensures wait == WaitQueue(queue, RetryDelayMs(Attempts(m) + 1, base))
    ensures SameButAttempts(m, parked) && Attempts(parked) == Attempts(m) + 1
  {
    var send := Commands(queue, m, maxRetries, base)[1];
    assert send in Commands(queue, m, maxRetries, base);
    return send.queue, send.message;
  }

  /** When the k-th retry is handled of a message that was first tried at `t0` with `from` attempts behind it: each
      wait is the handler's own delay, and handling takes no time. */
  function AttemptTime(t0: nat, base: nat, from: nat, k: nat): nat {
    if k == 0 then t0 else AttemptTime(t0, base, from, k - 1) + RetryDelayMs(from + k, base)
  }

  lemma {:induction false} AttemptTimeClosed(t0: nat, base: nat, from: nat, k: nat)
    ensures AttemptTime(t0, base, from, k) == t0 + base * (Pow2(from + k) - Pow2(from))
  {
    if k > 0 {
      AttemptTimeClosed(t0, base, from, k - 1);
      DelayTelescopes(base, from, from + k - 1);
    }
  }

  lemma SameButAttemptsTransitive(a: Message, b: Message, c: Message)
    requires SameButAttempts(a, b) && SameButAttempts(b, c)
    ensures SameButAttempts(a, c)
  {
  }

  /** The wait queues a message has gone through and the times it was handled at. */
  predicate Schedule(queue: string, base: nat, t0: nat, from: nat, waits: seq<WaitQueue>, tries: seq<nat>) {
    && |tries| == |waits| + 1
    && (forall i :: 0 <= i < |waits| ==> waits[i] == WaitQueue(queue, RetryDelayMs(from + i + 1, base)))
    && (forall k :: 0 <= k < |tries| ==> tries[k] == AttemptTime(t0, base, from, k))
  }

  lemma ScheduleGrows(queue: string, base: nat, t0: nat, from: nat, waits: seq<WaitQueue>, tries: seq<nat>)
    requires Schedule(queue, base, t0, from, waits, tries)
    ensures var delay := RetryDelayMs(from + |waits| + 1, base);
      Schedule(queue, base, t0, from, waits + [WaitQueue(queue, delay)], tries + [tries[|waits|] + delay])
  {
    assert AttemptTime(t0, base, from, |waits| + 1) ==
           AttemptTime(t0, base, from, |waits|) + RetryDelayMs(from + |waits| + 1, base);
  }

  /** Deliver, fail, park, expire, deliver, ... until the broker dead-letters the message. `tries` says when each
      handling happens. */
  method FailUntilDead(queue: string, first: Message, maxRetries: nat, base: nat, t0: nat)
    returns (handled: nat, waitedMs: nat, dead: Message, waits: seq<WaitQueue>, tries: seq<nat>)
    ensures handled == if Attempts(first) < maxRetries then maxRetries - Attempts(first) + 1 else 1
    ensures Attempts(first) <= maxRetries ==> waitedMs == base * (Pow2(maxRetries) - Pow2(Attempts(first)))
    ensures SameButAttempts(first, dead)
    ensures Commands(queue, dead, maxRetries, base) == [Nack(dead)]
    ensures "x-attempts" !in first.headers ==>
      handled == maxRetries + 1 && waitedMs == base * (Pow2(maxRetries) - 1)
    ensures |waits| == handled - 1 && Schedule(queue, base, t0, Attempts(first), waits, tries)
  {
    waitedMs, dead, waits, tries := 0, first, [], [t0];
    while Attempts(dead) < maxRetries
      invariant SameButAttempts(first, dead)
      invariant Attempts(dead) == Attempts(first) + |waits|
      invariant |waits| <= if Attempts(first) < maxRetries then maxRetries - Attempts(first) else 0
      invariant Schedule(queue, base, t0, Attempts(first), waits, tries)
      invariant t0 + waitedMs == tries[|waits|]
      decreases maxRetries - Attempts(dead)
    {
      var wait, parked := Park(queue, dead, maxRetries, base);
      SameButAttemptsTransitive(first, dead, parked);
      ScheduleGrows(queue, base, t0, Attempts(first), waits, tries);
      tries := tries + [tries[|waits|] + wait.delayMs];
      waits := waits + [wait];
      waitedMs := waitedMs + wait.delayMs;
      dead := parked;
    }
    handled := |tries|;
    AttemptTimeClosed(t0, base, Attempts(first), |waits|);
  }

  lemma DelayTelescopes(base: nat, from: nat, attempts: nat)
    ensures base * (Pow2(attempts) - Pow2(from)) + RetryDelayMs(attempts + 1, base)
         == base * (Pow2(attempts + 1) - Pow2(from))
  {
    var p: int, q: int := Pow2(attempts), Pow2(from);
    calc {
      base * (p - q) + base * p;
      base * (p - q + p);
      base * (2 * p - q);
    }
  }

  // ---------- retries against a live payment claim ----------

  lemma {:induction false} AttemptsGetLater(t0: nat, base: nat, k: nat, n: nat)
    requires k <= n
    ensures AttemptTime(t0, base, 0, k) <= AttemptTime(t0, base, 0, n)
  {
    if k < n {
      AttemptsGetLater(t0, base, k, n - 1);
    }
  }

  /** isClaimStale, in milliseconds. */
  predicate SeesStaleClaim(claimedAt: nat, t: nat) {
    claimedAt + STALE_CLAIM_MS < t
  }

  /** Some try of a duplicate takes a live claim over exactly when its last one comes more than
      30 seconds after the claim. */
  lemma TakesOverIff(claimedAt: nat, t0: nat, base: nat, maxRetries: nat)
    ensures (exists k: nat :: k <= maxRetries && SeesStaleClaim(claimedAt, AttemptTime(t0, base, 0, k))) <==>
            claimedAt + STALE_CLAIM_MS < t0 + base * (Pow2(maxRetries) - 1)
  {
    AttemptTimeClosed(t0, base, 0, maxRetries);
    forall k: nat | k <= maxRetries && SeesStaleClaim(claimedAt, AttemptTime(t0, base, 0, k))
      ensures SeesStaleClaim(claimedAt, AttemptTime(t0, base, 0, maxRetries))
    {
      AttemptsGetLater(t0, base, k, maxRetries);
    }
    if SeesStaleClaim(claimedAt, AttemptTime(t0, base, 0, maxRetries)) {
      assert maxRetries <= maxRetries;
    }
  }

  /** With the defaults, a duplicate first tried at most 23 seconds after the claim never takes it
      over; one first tried later does, on its last try at the latest. */
  lemma DefaultRetriesRespectLiveClaims(claimedAt: nat, t0: nat)
    ensures (exists k: nat :: k <= DEFAULT_MAX_RETRIES &&
              SeesStaleClaim(claimedAt, AttemptTime(t0, DEFAULT_BASE_DELAY_MS, 0, k))) <==> t0 > claimedAt + 23000
  {
    TakesOverIff(claimedAt, t0, DEFAULT_BASE_DELAY_MS, DEFAULT_MAX_RETRIES);
    assert Pow2(1) == 2;
    assert Pow2(2) == 4;
    assert Pow2(3) == 8;
  }
}
