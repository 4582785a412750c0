/**
 The outbox relay (src/modules/messaging/outbox/outbox-relay.service.ts) and the commit
 subscriber that wakes it (outbox-commit.subscriber.ts).
 */
module OutboxRelay {
  import opened Common

  const RELAY_BATCH_SIZE: nat := 50

  // ---------- the batch loop, on values ----------

  /** The rows of `rows` that are in `ids`, in order. */
  function Keep(rows: seq<MessageId>, ids: set<MessageId>): seq<MessageId> {
    if rows == [] then []
    else Keep(rows[..|rows| - 1], ids) + (if Last(rows) in ids then [Last(rows)] else [])
  }

  /** The rows of `rows` that are not in `ids`, in order. */
  function Omit(rows: seq<MessageId>, ids: set<MessageId>): seq<MessageId> {
    if rows == [] then []
    else Omit(rows[..|rows| - 1], ids) + (if Last(rows) in ids then [] else [Last(rows)])
  }

  predicate Distinct(rows: seq<MessageId>) {
    forall i, j :: 0 <= i < j < |rows| ==> rows[i] != rows[j]
  }

  function Batch(rows: seq<MessageId>): seq<MessageId> {
    if |rows| <= RELAY_BATCH_SIZE then rows else rows[..RELAY_BATCH_SIZE]
  }

  /** What one batch leaves unpublished when publishing the rows in `failing` throws. */
  function AfterBatch(rows: seq<MessageId>, failing: set<MessageId>): seq<MessageId> {
    Keep(Batch(rows), failing) + rows[|Batch(rows)|..]
  }

  function AfterBatches(rows: seq<MessageId>, failing: set<MessageId>, n: nat): seq<MessageId>
    decreases n
  {
    if n == 0 then rows else AfterBatches(AfterBatch(rows, failing), failing, n - 1)
  }

  lemma {:induction false} KeepConcat(a: seq<MessageId>, b: seq<MessageId>, ids: set<MessageId>)
    ensures Keep(a + b, ids) == Keep(a, ids) + Keep(b, ids)
    ensures Omit(a + b, ids) == Omit(a, ids) + Omit(b, ids)
  {
    if b == [] {
      assert a + b == a;
    } else {
      var b' := b[..|b| - 1];
      assert (a + b)[..|a + b| - 1] == a + b';
      KeepConcat(a, b', ids);
    }
  }

  lemma {:induction false} KeepIsIdempotent(rows: seq<MessageId>, ids: set<MessageId>)
    ensures Keep(Keep(rows, ids), ids) == Keep(rows, ids)
    ensures Omit(Keep(rows, ids), ids) == []
    ensures |Keep(rows, ids)| + |Omit(rows, ids)| == |rows|
  {
    if rows != [] {
      var rest := rows[..|rows| - 1];
      KeepIsIdempotent(rest, ids);
      KeepConcat(Keep(rest, ids), if Last(rows) in ids then [Last(rows)] else [], ids);
    }
  }

  /** Of two parts, the first loses its rows that do not fail. */
  lemma PartKeepsFailing(part: seq<MessageId>, rest: seq<MessageId>, failing: set<MessageId>)
    ensures Keep(Keep(part, failing) + rest, failing) == Keep(part + rest, failing)
    ensures Omit(part, failing) + Omit(Keep(part, failing) + rest, failing) == Omit(part + rest, failing)
    ensures |Keep(part, failing) + rest| == |part + rest| - |Omit(part, failing)|
  {
    KeepConcat(part, rest, failing);
    KeepConcat(Keep(part, failing), rest, failing);
    KeepIsIdempotent(part, failing);
  }

  /** A batch loses only rows that do not fail; the failing ones and the order stay. */
  lemma BatchKeepsFailing(rows: seq<MessageId>, failing: set<MessageId>)
    ensures Keep(AfterBatch(rows, failing), failing) == Keep(rows, failing)
    ensures Omit(Batch(rows), failing) + Omit(AfterBatch(rows, failing), failing) == Omit(rows, failing)
    ensures |AfterBatch(rows, failing)| == |rows| - |Omit(Batch(rows), failing)|
  {
    assert rows == Batch(rows) + rows[|Batch(rows)|..];
    PartKeepsFailing(Batch(rows), rows[|Batch(rows)|..], failing);
  }

  lemma KeepSize(rows: seq<MessageId>, n: nat, ids: set<MessageId>)
    requires n <= |rows|
    ensures |Keep(rows[..n], ids)| <= |Keep(rows, ids)| <= |rows|
  {
    KeepIsIdempotent(rows, ids);
    KeepConcat(rows[..n], rows[n..], ids);
    assert rows == rows[..n] + rows[n..];
  }

  /** A full batch makes progress as long as fewer than a batch of rows fail. */
  lemma FullBatchProgresses(rows: seq<MessageId>, failing: set<MessageId>)
    requires |Keep(rows, failing)| < RELAY_BATCH_SIZE <= |rows|
    ensures |AfterBatch(rows, failing)| < |rows|
  {
    BatchKeepsFailing(rows, failing);
    KeepIsIdempotent(Batch(rows), failing);
    KeepSize(rows, RELAY_BATCH_SIZE, failing);
    assert Batch(rows) == rows[..RELAY_BATCH_SIZE];
  }

  /** A short batch takes every row, so only the failing ones are left. */
  lemma ShortBatchFinishes(rows: seq<MessageId>, failing: set<MessageId>)
    requires |rows| < RELAY_BATCH_SIZE
    ensures AfterBatch(rows, failing) == Keep(rows, failing)
  {
  }

  /** After `n` batches the loop has seen a short one, or will see it next. */
  predicate ExitsAfter(rows: seq<MessageId>, failing: set<MessageId>, n: nat) {
    |AfterBatches(rows, failing, n)| < RELAY_BATCH_SIZE
  }

  lemma ExitsOneLater(rows: seq<MessageId>, failing: set<MessageId>, n: nat)
    requires ExitsAfter(AfterBatch(rows, failing), failing, n)
    ensures ExitsAfter(rows, failing, n + 1)
  {
  }

  lemma FullBatchLeavesFewer(rows: seq<MessageId>, failing: set<MessageId>)
    requires |Keep(rows, failing)| < RELAY_BATCH_SIZE <= |rows|
    ensures |AfterBatch(rows, failing)| < |rows| && |Keep(AfterBatch(rows, failing), failing)| < RELAY_BATCH_SIZE
  {
    FullBatchProgresses(rows, failing);
    BatchKeepsFailing(rows, failing);
  }

  lemma {:induction false} LoopExits(rows: seq<MessageId>, failing: set<MessageId>) returns (n: nat)
    requires |Keep(rows, failing)| < RELAY_BATCH_SIZE
    ensures ExitsAfter(rows, failing, n)
    decreases |rows|
  {
    if |rows| < RELAY_BATCH_SIZE {
      return 0;
    }
    FullBatchLeavesFewer(rows, failing);
    n := LoopExits(AfterBatch(rows, failing), failing);
    ExitsOneLater(rows, failing, n);
    n := n + 1;
  }

  lemma {:induction false} LoopKeepsFailing(rows: seq<MessageId>, failing: set<MessageId>, n: nat)
    ensures Keep(AfterBatches(rows, failing, n), failing) == Keep(rows, failing)
    decreases n
  {
    if n > 0 {
      BatchKeepsFailing(rows, failing);
      LoopKeepsFailing(AfterBatch(rows, failing), failing, n - 1);
    }
  }

  /** `while ((await drainOnce()) === 50)` comes to an end if and only if fewer than 50 of the
      waiting rows fail to publish. */
  lemma LoopExitsIff(rows: seq<MessageId>, failing: set<MessageId>)
    ensures (exists n: nat :: ExitsAfter(rows, failing, n)) <==> |Keep(rows, failing)| < 50
  {
    if |Keep(rows, failing)| < RELAY_BATCH_SIZE {
      var n := LoopExits(rows, failing);
    }
    forall n: nat | ExitsAfter(rows, failing, n)
      ensures |Keep(rows, failing)| < RELAY_BATCH_SIZE
    {
      LoopKeepsFailing(rows, failing, n);
      KeepSize(AfterBatches(rows, failing, n), 0, failing);
    }
  }

  /** Fifty failing rows at the head of the table: the same batch is claimed again, unchanged. */
  lemma FailingHeadIsReclaimed(rows: seq<MessageId>, failing: set<MessageId>)
    requires |rows| >= 50 && forall i :: 0 <= i < 50 ==> rows[i] in failing
    ensures AfterBatch(rows, failing) == rows && Batch(rows) == rows[..50]
  {
    assert Batch(rows) == rows[..RELAY_BATCH_SIZE];
    KeepAll(rows[..RELAY_BATCH_SIZE], failing);
  }

  lemma {:induction false} KeepAll(rows: seq<MessageId>, ids: set<MessageId>)
    requires forall i :: 0 <= i < |rows| ==> rows[i] in ids
    ensures Keep(rows, ids) == rows
  {
    if rows != [] {
      KeepAll(rows[..|rows| - 1], ids);
    }
  }

  // ---------- waking the relay, on values ----------

  /** The relay's flags and the `setImmediate(() => relay())` callbacks still queued. */
  datatype Flags = Flags(draining: bool, drainAgain: bool, scheduled: nat)

  function Nudged(f: Flags): Flags {
    if f.draining then f.(drainAgain := true) else f.(scheduled := f.scheduled + 1)
  }

  /** The tail of relay(), after the drain has ended or thrown. */
  function DrainEnded(f: Flags): Flags {
    if f.drainAgain then Flags(false, false, f.scheduled + 1) else f.(draining := false)
  }

  // ---------- the classes ----------

  class OutboxRelayService {
    var draining: bool
    var drainAgain: bool
    var scheduled: nat
    var unpublished: seq<MessageId>   // the rows with publishedAt IS NULL, oldest first
    var sent: seq<MessageId>          // the messageIds handed to the broker so far

    constructor ()
      ensures GetFlags() == Flags(false, false, 0) && unpublished == [] && sent == []
    {
      draining, drainAgain, scheduled, unpublished, sent := false, false, 0, [], [];
    }

    function GetFlags(): Flags
      reads this
    {
      Flags(draining, drainAgain, scheduled)
    }

    method Nudge()
      modifies this`drainAgain, this`scheduled
      ensures GetFlags() == Nudged(old(GetFlags()))
      ensures draining == old(draining)
      ensures old(draining) ==> drainAgain && scheduled == old(scheduled)
      ensures !old(draining) ==> drainAgain == old(drainAgain) && scheduled == old(scheduled) + 1
    {
      if draining {
        drainAgain := true;
        return;
      }
      scheduled := scheduled + 1;
    }

    /** drainOnce: publish one batch and mark exactly the rows whose publish went through. */
    method DrainOnce(failing: set<MessageId>) returns (claimed: nat)
      requires Distinct(unpublished)
      modifies this`unpublished, this`sent
      ensures claimed == |Batch(old(unpublished))|
      ensures sent == old(sent) + Omit(Batch(old(unpublished)), failing)
      ensures unpublished == AfterBatch(old(unpublished), failing) && Distinct(unpublished)
    {
      var batch := Batch(unpublished);
      var published: seq<MessageId> := [];
      var i := 0;
      while i < |batch|
        invariant 0 <= i <= |batch|
        invariant published == Omit(batch[..i], failing)
        invariant sent == old(sent) + published && unpublished == old(unpublished)
      {
        assert batch[..i + 1][..i] == batch[..i];
        if batch[i] !in failing {
          sent := sent + [batch[i]];
          published := published + [batch[i]];
        }
        i := i + 1;
      }
      assert batch[..i] == batch;
      MarkingTakesTheBatch(unpublished, failing);
      unpublished := Omit(unpublished, set m | m in published);
      AfterBatchDistinct(old(unpublished), failing);
      return |batch|;
    }

    /** relay: drain batch after batch. `failing` is the set of rows whose publish throws while it
        runs; nobody else writes to the table meanwhile. */
    method Relay(failing: set<MessageId>)
      requires Distinct(unpublished)
      requires |Keep(unpublished, failing)| < RELAY_BATCH_SIZE
      modifies this
      ensures old(draining) ==> unpublished == old(unpublished) && sent == old(sent) && GetFlags() == old(GetFlags())
      ensures !old(draining) ==> unpublished == Keep(old(unpublished), failing)
      ensures !old(draining) ==> sent == old(sent) + Omit(old(unpublished), failing)
      ensures !old(draining) ==> GetFlags() == DrainEnded(old(GetFlags()).(draining := true))
      // a request for another drain is consumed: it schedules exactly one
      ensures !old(draining) ==>
        !draining && !drainAgain && scheduled == old(scheduled) + (if old(drainAgain) then 1 else 0)
    {
      if draining { return; }
      draining := true;
      var claimed := RELAY_BATCH_SIZE;
      while claimed == RELAY_BATCH_SIZE
        invariant Distinct(unpublished) && claimed <= RELAY_BATCH_SIZE
        invariant drainAgain == old(drainAgain) && scheduled == old(scheduled) && draining
        invariant Accounts(old(unpublished), old(sent), unpublished, sent, failing)
        invariant claimed < RELAY_BATCH_SIZE ==> OnlyFailing(unpublished, failing)
        decreases claimed, |unpublished|
      {
        var before := unpublished;
        BatchKeepsAccounts(old(unpublished), old(sent), before, sent, failing);
        claimed := DrainOnce(failing);
        if claimed == RELAY_BATCH_SIZE {
          FullBatchProgresses(before, failing);
        }
      }
      NothingMoreToSend(unpublished, failing);
      draining := false;
      if drainAgain {
        drainAgain := false;
        scheduled := scheduled + 1;
      }
    }
  }

  /** Between `rows0` with `sent0` sent and `rows` with `sent` sent, nothing was skipped, repeated or
      reordered, and the failing rows are all still there. */
  ghost predicate Accounts(rows0: seq<MessageId>, sent0: seq<MessageId>, rows: seq<MessageId>, sent: seq<MessageId>,
                           failing: set<MessageId>) {
    && Keep(rows, failing) == Keep(rows0, failing)
    && sent + Omit(rows, failing) == sent0 + Omit(rows0, failing)
  }

  predicate OnlyFailing(rows: seq<MessageId>, failing: set<MessageId>) {
    rows == Keep(rows, failing)
  }

  lemma BatchKeepsAccounts(rows0: seq<MessageId>, sent0: seq<MessageId>, rows: seq<MessageId>, sent: seq<MessageId>,
                           failing: set<MessageId>)
    requires Accounts(rows0, sent0, rows, sent, failing)
    ensures Accounts(rows0, sent0, AfterBatch(rows, failing), sent + Omit(Batch(rows), failing), failing)
    ensures |rows| < RELAY_BATCH_SIZE ==> OnlyFailing(AfterBatch(rows, failing), failing)
  {
    BatchKeepsFailing(rows, failing);
    var a, b := Omit(Batch(rows), failing), Omit(AfterBatch(rows, failing), failing);
    assert (sent + a) + b == sent + (a + b);
    if |rows| < RELAY_BATCH_SIZE {
      ShortBatchFinishes(rows, failing);
    }
  }

  lemma NothingMoreToSend(rows: seq<MessageId>, failing: set<MessageId>)
    requires OnlyFailing(rows, failing)
    ensures Omit(rows, failing) == []
  {
    KeepIsIdempotent(rows, failing);
  }

  lemma {:induction false} OmitAbsent(rows: seq<MessageId>, ids: set<MessageId>)
    requires forall i :: 0 <= i < |rows| ==> rows[i] !in ids
    ensures Omit(rows, ids) == rows
  {
    if rows != [] {
      OmitAbsent(rows[..|rows| - 1], ids);
    }
  }

  lemma {:induction false} OmitMembers(rows: seq<MessageId>, ids: set<MessageId>)
    ensures forall m :: m in Omit(rows, ids) <==> m in rows && m !in ids
  {
    if rows != [] {
      OmitMembers(rows[..|rows| - 1], ids);
      assert rows == rows[..|rows| - 1] + [Last(rows)];
    }
  }

  /** Taking away the rows that were not failing leaves the failing ones. */
  lemma {:induction false} OmitOfOmit(rows: seq<MessageId>, failing: set<MessageId>, gone: set<MessageId>)
    requires forall m | m in rows :: m in gone <==> m !in failing
    ensures Omit(rows, gone) == Keep(rows, failing)
  {
    if rows != [] {
      assert Last(rows) in rows;
      OmitOfOmit(rows[..|rows| - 1], failing, gone);
    }
  }

  lemma MarkingTakesTheBatch(rows: seq<MessageId>, failing: set<MessageId>)
    requires Distinct(rows)
    ensures Omit(rows, set m | m in Omit(Batch(rows), failing)) == AfterBatch(rows, failing)
  {
    var b, rest := Batch(rows), rows[|Batch(rows)|..];
    var gone := set m | m in Omit(b, failing);
    OmitMembers(b, failing);
    assert rows == b + rest;
    KeepConcat(b, rest, gone);
    OmitOfOmit(b, failing, gone);
    OmitAbsent(rest, gone);
  }

  lemma {:induction false} KeepSubsequence(rows: seq<MessageId>, ids: set<MessageId>)
    requires Distinct(rows)
    ensures Distinct(Keep(rows, ids))
    ensures forall m :: m in Keep(rows, ids) ==> m in rows
  {
    if rows != [] {
      var rest := rows[..|rows| - 1];
      KeepSubsequence(rest, ids);
      assert forall i :: 0 <= i < |rest| ==> rest[i] != Last(rows);
      forall i | 0 <= i < |Keep(rest, ids)| ensures Keep(rest, ids)[i] != Last(rows) {
        assert Keep(rest, ids)[i] in rest;
      }
    }
  }

  lemma AfterBatchDistinct(rows: seq<MessageId>, failing: set<MessageId>)
    requires Distinct(rows)
    ensures Distinct(AfterBatch(rows, failing))
  {
    var b := Batch(rows);
    KeepSubsequence(b, failing);
    forall i, j | 0 <= i < j < |AfterBatch(rows, failing)|
      ensures AfterBatch(rows, failing)[i] != AfterBatch(rows, failing)[j]
    {
      if i < |Keep(b, failing)| <= j {
        assert Keep(b, failing)[i] in b;
      }
    }
  }

  // ---------- the commit subscriber ----------

  type Runner = nat

  /** What TypeORM tells the subscriber. */
  datatype HookCall =
    | Inserted(runner: Runner, inTransaction: bool)
    | CommitDone(runner: Runner)
    | RollbackDone(runner: Runner)

  /** The subscriber's WeakSet of runners that have written an outbox row, and the relay it nudges. */
  datatype Hooks = Hooks(pending: set<Runner>, flags: Flags)

  function Hooked(h: Hooks, call: HookCall): Hooks {
    match call
    case Inserted(t, true) => h.(pending := h.pending + {t})
    case Inserted(_, false) => h.(flags := Nudged(h.flags))
    case CommitDone(t) => if t in h.pending then Hooks(h.pending - {t}, Nudged(h.flags)) else h
    case RollbackDone(t) => h.(pending := h.pending - {t})
  }

  /** The WeakSet after a sequence of calls. */
  function PendingAfter(calls: seq<HookCall>): set<Runner> {
    if calls == [] then {}
    else Hooked(Hooks(PendingAfter(calls[..|calls| - 1]), Flags(false, false, 0)), Last(calls)).pending
  }

  /** Runner `t` has inserted a row in its transaction and neither committed nor rolled back since. */
  predicate HasUnsettledRow(calls: seq<HookCall>, t: Runner) {
    exists i | 0 <= i < |calls| :: calls[i] == Inserted(t, true) && NotSettledAfter(calls, i, t)
  }

  predicate NotSettledAfter(calls: seq<HookCall>, i: int, t: Runner) {
    forall j | 0 <= j < |calls| :: i < j ==> calls[j] != CommitDone(t) && calls[j] != RollbackDone(t)
  }

  lemma {:induction false} PendingIff(calls: seq<HookCall>, t: Runner)
    ensures t in PendingAfter(calls) <==> HasUnsettledRow(calls, t)
  {
    if calls != [] {
      var n := |calls| - 1;
      var before := calls[..n];
      PendingIff(before, t);
      if calls[n] == Inserted(t, true) {
        assert NotSettledAfter(calls, n, t);
      } else {
        forall i | 0 <= i < n ensures
          NotSettledAfter(calls, i, t) <==>
          NotSettledAfter(before, i, t) && calls[n] != CommitDone(t) && calls[n] != RollbackDone(t)
        {
          if NotSettledAfter(calls, i, t) {
            forall j | 0 <= j < |before| && i < j ensures before[j] != CommitDone(t) && before[j] != RollbackDone(t) {
              assert before[j] == calls[j];
            }
          }
        }
        assert forall i :: 0 <= i < n ==> before[i] == calls[i];
      }
    }
  }

  /** Whatever the hooks and the relay have done before, a commit nudges exactly once if the runner has inserted a
      row that it has neither committed nor rolled back, and not at all otherwise. */
  lemma CommitNudgesIff(calls: seq<HookCall>, flags: Flags, t: Runner)
    ensures Hooked(Hooks(PendingAfter(calls), flags), CommitDone(t)).flags ==
            if HasUnsettledRow(calls, t) then Nudged(flags) else flags
    ensures Hooked(Hooks(PendingAfter(calls + [RollbackDone(t)]), flags), CommitDone(t)).flags == flags
    ensures Hooked(Hooks(PendingAfter(calls + [CommitDone(t)]), flags), CommitDone(t)).flags == flags
  {
    PendingIff(calls, t);
    PendingIff(calls + [RollbackDone(t)], t);
    PendingIff(calls + [CommitDone(t)], t);
    assert Last(calls + [RollbackDone(t)]) == RollbackDone(t) && Last(calls + [CommitDone(t)]) == CommitDone(t);
  }

  class OutboxCommitSubscriber {
    var pending: set<Runner>
    const relay: OutboxRelayService

    constructor (relay: OutboxRelayService)
      ensures pending == PendingAfter([]) && this.relay == relay
    {
      pending := {};
      this.relay := relay;
    }

    function GetHooks(): Hooks
      reads this, relay
    {
      Hooks(pending, relay.GetFlags())
    }

    method AfterInsert(runner: Runner, inTransaction: bool)
      modifies this, relay`drainAgain, relay`scheduled
      ensures GetHooks() == Hooked(old(GetHooks()), Inserted(runner, inTransaction))
    {
      if inTransaction {
        pending := pending + {runner};
      } else {
        relay.Nudge();
      }
    }

    method AfterTransactionCommit(runner: Runner)
      modifies this, relay`drainAgain, relay`scheduled
      ensures GetHooks() == Hooked(old(GetHooks()), CommitDone(runner))
    {
      if runner in pending {
        pending := pending - {runner};
        relay.Nudge();
      }
    }

    method AfterTransactionRollback(runner: Runner)
      modifies this
      ensures GetHooks() == Hooked(old(GetHooks()), RollbackDone(runner))
      ensures Hooked(GetHooks(), CommitDone(runner)) == GetHooks()   // a late commit call would not nudge
    {
      pending := pending - {runner};
    }
  }
}
