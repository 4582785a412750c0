/**
 Waking the outbox relay: transactions, the commit subscriber, the event loop's queued
 callbacks, the poll timer and the drain itself, in every interleaving.
 */
module WakeUp {
  import opened Common
  import opened OutboxRelay

  /** Where the running drain stands: about to SELECT, or publishing what it selected. */
  datatype Phase = Selecting | Publishing(batch: set<MessageId>)

  datatype World = World(
    flags: Flags,
    phase: Phase,
    open: map<Runner, set<MessageId>>,      // running transactions and the outbox rows they wrote
    awaiting: map<Runner, set<MessageId>>,  // committed, afterTransactionCommit not yet called
    pending: set<Runner>,                   // the subscriber's WeakSet
    visible: set<MessageId>,                // committed rows with publishedAt IS NULL
    locked: set<MessageId>,                 // rows another instance's drain holds
    // history
    begun: set<Runner>,
    finished: map<Runner, set<MessageId>>,  // transactions whose commit hook has run
    rolledBack: set<Runner>,
    nudges: multiset<Runner>,
    nudged: set<MessageId>,                 // rows whose commit has nudged the relay
    selected: set<MessageId>,               // rows some drain has selected
    calls: nat,                             // nudges so far
    callsBefore: nat,                       // ... when the running drain began
    fired: nat,                             // queued callbacks that have run
    stalled: bool)                          // a drain threw with no other queued; no nudge and no drain since

  datatype WakeStep =
    | Begin(t: Runner)
    | Insert(t: Runner, row: MessageId)
    | InsertOutside(t: Runner, row: MessageId)
    | Commit(t: Runner)
    | AfterCommit(t: Runner)
    | Rollback(t: Runner)
    | PollFires
    | ImmediateFires
    | Select(batch: set<MessageId>)
    | BatchDone(published: set<MessageId>)
    | DrainThrows
    | OtherLocks(rows: set<MessageId>)
    | OtherReleases(rows: set<MessageId>)

  predicate CanWake(w: World, step: WakeStep) {
    match step
    case Begin(t) => t !in w.begun
    case Insert(t, _) => t in w.open
    case InsertOutside(_, _) => true
    case Commit(t) => t in w.open
    case AfterCommit(t) => t in w.awaiting
    case Rollback(t) => t in w.open
    case PollFires => true
    case ImmediateFires => w.flags.scheduled > 0
    case Select(batch) =>
      // at most 50 rows; fewer only when every row that is not locked has been taken
      w.flags.draining && w.phase.Selecting? && batch <= w.visible - w.locked && |batch| <= RELAY_BATCH_SIZE &&
      (|batch| < RELAY_BATCH_SIZE ==> batch == w.visible - w.locked)
    case BatchDone(published) => w.flags.draining && w.phase.Publishing? && published <= w.phase.batch
    case DrainThrows => w.flags.draining
    case OtherLocks(rows) => rows <= w.visible
    case OtherReleases(_) => true
  }

  function StartDrain(w: World): World {
    if w.flags.draining then w
    else
      w.(flags := w.flags.(draining := true), phase := Selecting, callsBefore := w.calls, stalled := false)
  }

  /** The subscriber is told of `call`. */
  function Told(w: World, call: HookCall): World {
    var h := Hooked(Hooks(w.pending, w.flags), call);
    w.(pending := h.pending, flags := h.flags)
  }

  /** afterTransactionCommit: the nudge, for a runner the subscriber remembers. */
  function CommitHook(w: World, t: Runner): World
    requires t in w.awaiting
  {
    var ended := Told(w, CommitDone(t)).(
      awaiting := Without(w.awaiting, t), finished := w.finished[t := w.awaiting[t]]);
    if t in w.pending then
      ended.(nudges := w.nudges + multiset{t}, nudged := w.nudged + w.awaiting[t],
             calls := w.calls + 1, stalled := false)
    else ended
  }

  /** A drain will follow the running one without waiting for the poll timer. */
  predicate AnotherQueued(f: Flags) {
    f.drainAgain || f.scheduled > 0
  }

  function FinishBatch(w: World, published: set<MessageId>): World
    requires w.phase.Publishing?
  {
    var marked := w.(visible := w.visible - published);
    if |w.phase.batch| == RELAY_BATCH_SIZE then marked.(phase := Selecting)
    else marked.(flags := DrainEnded(w.flags))
  }

  function Wake(w: World, step: WakeStep): World
    requires CanWake(w, step)
  {
    match step
    case Begin(t) => w.(begun := w.begun + {t}, open := w.open[t := {}])
    case Insert(t, row) => Told(w, Inserted(t, true)).(open := w.open[t := w.open[t] + {row}])
    case InsertOutside(t, row) =>
      Told(w, Inserted(t, false)).(visible := w.visible + {row}, nudged := w.nudged + {row},
                                     calls := w.calls + 1, stalled := false)
    case Commit(t) =>
      w.(open := Without(w.open, t), awaiting := w.awaiting[t := w.open[t]], visible := w.visible + w.open[t])
    case AfterCommit(t) => CommitHook(w, t)
    case Rollback(t) => Told(w, RollbackDone(t)).(open := Without(w.open, t), rolledBack := w.rolledBack + {t})
    case PollFires => StartDrain(w)
    case ImmediateFires => StartDrain(w.(flags := w.flags.(scheduled := w.flags.scheduled - 1), fired := w.fired + 1))
    case Select(batch) => w.(phase := Publishing(batch), selected := w.selected + batch)
    case BatchDone(published) => FinishBatch(w, published)
    case DrainThrows => w.(flags := DrainEnded(w.flags), stalled := !AnotherQueued(w.flags))
    case OtherLocks(rows) => w.(locked := w.locked + rows, selected := w.selected + rows)
    case OtherReleases(rows) => w.(locked := w.locked - rows)
  }

  ghost predicate InitWorld(w: World) {
    && w.flags == Flags(false, false, 0) && w.phase == Selecting && w.open == map[] && w.awaiting == map[]
    && w.pending == {} && w.visible == {} && w.locked == {} && w.begun == {} && w.finished == map[]
    && w.rolledBack == {} && w.nudges == multiset{} && w.nudged == {} && w.selected == {}
    && w.calls == 0 && w.callsBefore == 0 && w.fired == 0 && !w.stalled
  }

  ghost predicate NextWorld(w: World, w': World) {
    exists step :: CanWake(w, step) && w' == Wake(w, step)
  }

  ghost predicate Follows(run: seq<World>, i: nat)
    requires i + 1 < |run|
  {
    NextWorld(run[i], run[i + 1])
  }

  ghost predicate IsWorldRun(run: seq<World>) {
    run != [] && InitWorld(run[0]) && forall i: nat :: i + 1 < |run| ==> Follows(run, i)
  }

  // ---------- the invariant ----------

  /** Somebody will SELECT again without waiting for the poll timer. */
  predicate Covered(w: World) {
    if !w.flags.draining then w.flags.scheduled > 0
    else w.phase.Selecting? || |w.phase.batch| == RELAY_BATCH_SIZE || w.flags.drainAgain
  }

  ghost predicate RowsOk(w: World) {
    && w.nudged - w.selected <= w.visible
    && w.locked <= w.selected
    && (w.phase.Publishing? ==> w.phase.batch <= w.selected)
    && (forall t | t in w.awaiting :: w.awaiting[t] <= w.visible + w.selected)
    && (w.stalled ==> !w.flags.draining && w.flags.scheduled == 0)
    && (w.stalled || w.nudged <= w.selected || Covered(w))
  }

  ghost predicate RunnerOk(w: World, t: Runner) {
    && (t in w.pending <==> (t in w.open && w.open[t] != {}) || (t in w.awaiting && w.awaiting[t] != {}))
    && (t in w.open || t in w.awaiting || t in w.finished || t in w.rolledBack ==> t in w.begun)
    && !(t in w.open && (t in w.awaiting || t in w.finished || t in w.rolledBack))
    && !(t in w.awaiting && (t in w.finished || t in w.rolledBack))
    && !(t in w.finished && t in w.rolledBack)
    && w.nudges[t] == if t in w.finished && w.finished[t] != {} then 1 else 0
  }

  /** Another drain is owed exactly when the running one has been nudged, and no callback comes without a nudge. */
  predicate FlagsOk(w: World) {
    && w.callsBefore <= w.calls
    && (w.flags.drainAgain <==> w.flags.draining && w.callsBefore < w.calls)
    && w.fired + w.flags.scheduled + (if w.flags.drainAgain then 1 else 0) <= w.calls
  }

  ghost predicate WorldOk(w: World) {
    RowsOk(w) && FlagsOk(w) && forall t :: RunnerOk(w, t)
  }

  lemma CommitHookKeepsRows(w: World, t: Runner)
    requires RowsOk(w) && t in w.awaiting
    ensures RowsOk(CommitHook(w, t))
  {
  }

  lemma DrainStepsKeepRows(w: World, step: WakeStep)
    requires RowsOk(w) && CanWake(w, step) && (step.Select? || step.BatchDone? || step.DrainThrows?)
    ensures RowsOk(Wake(w, step))
  {
  }

  lemma StepKeepsRows(w: World, step: WakeStep)
    requires RowsOk(w) && CanWake(w, step)
    ensures RowsOk(Wake(w, step))
  {
    match step
    case AfterCommit(t) => CommitHookKeepsRows(w, t);
    case Select(_) => DrainStepsKeepRows(w, step);
    case BatchDone(_) => DrainStepsKeepRows(w, step);
    case DrainThrows => DrainStepsKeepRows(w, step);
    case _ =>
  }

  lemma StepKeepsFlags(w: World, step: WakeStep)
    requires FlagsOk(w) && CanWake(w, step)
    ensures FlagsOk(Wake(w, step))
  {
  }

  lemma CommitHookKeepsRunner(w: World, other: Runner, t: Runner)
    requires RunnerOk(w, t) && other in w.awaiting
    ensures RunnerOk(CommitHook(w, other), t)
  {
  }

  lemma TransactionKeepsRunner(w: World, step: WakeStep, t: Runner)
    requires RunnerOk(w, t) && CanWake(w, step)
    requires step.Begin? || step.Insert? || step.Commit? || step.Rollback?
    ensures RunnerOk(Wake(w, step), t)
  {
  }

  lemma StepKeepsRunner(w: World, step: WakeStep, t: Runner)
    requires RunnerOk(w, t) && CanWake(w, step)
    ensures RunnerOk(Wake(w, step), t)
  {
    match step
    case AfterCommit(other) => CommitHookKeepsRunner(w, other, t);
    case Begin(_) => TransactionKeepsRunner(w, step, t);
    case Insert(_, _) => TransactionKeepsRunner(w, step, t);
    case Commit(_) => TransactionKeepsRunner(w, step, t);
    case Rollback(_) => TransactionKeepsRunner(w, step, t);
    case _ =>
  }

  lemma {:induction false} WorldRunOk(run: seq<World>, i: nat)
    requires IsWorldRun(run) && i < |run|
    ensures WorldOk(run[i])
  {
    if i > 0 {
      WorldRunOk(run, i - 1);
      assert Follows(run, i - 1);
      var step :| CanWake(run[i - 1], step) && run[i] == Wake(run[i - 1], step);
      StepKeepsRows(run[i - 1], step);
      StepKeepsFlags(run[i - 1], step);
      forall t ensures RunnerOk(run[i], t) {
        assert RunnerOk(run[i - 1], t);
        StepKeepsRunner(run[i - 1], step, t);
      }
    }
  }

  // ---------- the promises ----------

  /** A committed transaction that wrote outbox rows nudges exactly once; one that wrote none, and
      one that rolled back, never do. */
  lemma NudgedExactlyOnce(run: seq<World>, i: nat, t: Runner)
    requires IsWorldRun(run) && i < |run|
    ensures t in run[i].finished ==> run[i].nudges[t] == if run[i].finished[t] != {} then 1 else 0
    ensures t !in run[i].finished ==> run[i].nudges[t] == 0
    ensures t in run[i].rolledBack ==> run[i].nudges[t] == 0 && t !in run[i].pending
  {
    WorldRunOk(run, i);
    assert RunnerOk(run[i], t);
  }

  /** A nudged row that no drain has selected yet is still unpublished, and it waits for the poll timer exactly
      when the run is stalled. */
  lemma NoWakeUpIsLostIff(run: seq<World>, i: nat, row: MessageId)
    requires IsWorldRun(run) && i < |run|
    requires row in run[i].nudged && row !in run[i].selected
    ensures row in run[i].visible
    ensures Covered(run[i]) <==> !run[i].stalled
  {
    WorldRunOk(run, i);
    assert row in run[i].nudged - run[i].selected;
  }

  /** A throwing drain leaves what is unselected covered exactly when another drain is queued. */
  lemma ThrowKeepsCoverIff(w: World)
    requires RowsOk(w) && CanWake(w, DrainThrows)
    ensures Covered(Wake(w, DrainThrows)) <==> AnotherQueued(w.flags)
  {
  }

  /** A drain is asked to be followed by another exactly when a nudge came while it was running, and the
      callbacks ever queued are at most the nudges: the relay does not keep itself going. */
  lemma RelayDoesNotWakeItself(run: seq<World>, i: nat)
    requires IsWorldRun(run) && i < |run|
    ensures run[i].flags.drainAgain <==> run[i].flags.draining && run[i].callsBefore < run[i].calls
    ensures run[i].fired + run[i].flags.scheduled <= run[i].calls
  {
    WorldRunOk(run, i);
  }

  /** A row stops being unpublished exactly when a drain that has selected it marks it as published. */
  lemma RowsLeaveWhenPublished(run: seq<World>, i: nat, step: WakeStep, row: MessageId)
    requires IsWorldRun(run) && i < |run| && CanWake(run[i], step) && row in run[i].visible
    ensures row !in Wake(run[i], step).visible <==> step.BatchDone? && row in step.published
    ensures row !in Wake(run[i], step).visible ==> row in run[i].selected
  {
    WorldRunOk(run, i);
  }

  // ---------- what being stalled means ----------

  /** A run together with the steps it took. */
  ghost predicate IsWorldTrace(run: seq<World>, steps: seq<WakeStep>) {
    && |run| == |steps| + 1 && InitWorld(run[0])
    && forall i :: 0 <= i < |steps| ==> CanWake(run[i], steps[i]) && run[i + 1] == Wake(run[i], steps[i])
  }

  /** Step `i` is a drain that throws although nothing else is queued. */
  predicate Strands(run: seq<World>, steps: seq<WakeStep>, i: nat)
    requires |run| == |steps| + 1 && i < |steps|
  {
    steps[i].DrainThrows? && !AnotherQueued(run[i].flags)
  }

  /** Step `i` nudges the relay or starts a drain. */
  predicate Wakes(run: seq<World>, steps: seq<WakeStep>, i: nat)
    requires |run| == |steps| + 1 && i < |steps|
  {
    match steps[i]
    case AfterCommit(t) => t in run[i].pending
    case InsertOutside(_, _) => true
    case PollFires => !run[i].flags.draining
    case ImmediateFires => !run[i].flags.draining
    case _ => false
  }

  ghost predicate StrandedSince(run: seq<World>, steps: seq<WakeStep>, k: nat)
    requires |run| == |steps| + 1 && k < |steps|
  {
    Strands(run, steps, k) && forall j :: k < j < |steps| ==> !Wakes(run, steps, j)
  }

  lemma {:induction false} TraceIsWorldRun(run: seq<World>, steps: seq<WakeStep>)
    requires IsWorldTrace(run, steps)
    ensures IsWorldRun(run)
  {
    forall i: nat | i + 1 < |run| ensures Follows(run, i) {
      assert CanWake(run[i], steps[i]) && run[i + 1] == Wake(run[i], steps[i]);
    }
  }

  /** A run is stalled exactly when some drain threw with nothing queued and since then nothing has nudged the
      relay or started a drain: the next commit or poll ends it. */
  lemma {:induction false} StalledIff(run: seq<World>, steps: seq<WakeStep>)
    requires IsWorldTrace(run, steps)
    ensures Last(run).stalled <==> exists k: nat :: k < |steps| && StrandedSince(run, steps, k)
  {
    if steps != [] {
      var n := |steps| - 1;
      var run0, steps0 := run[..n + 1], steps[..n];
      assert IsWorldTrace(run0, steps0);
      StalledIff(run0, steps0);
      TraceIsWorldRun(run0, steps0);
      WorldRunOk(run0, n);
      StalledStep(run[n], steps[n]);
      forall k: nat | k < n
        ensures StrandedSince(run, steps, k) <==> StrandedSince(run0, steps0, k) && !Wakes(run, steps, n)
      {
        assert forall j :: 0 <= j < n ==> Wakes(run, steps, j) == Wakes(run0, steps0, j);
        assert Strands(run, steps, k) == Strands(run0, steps0, k);
      }
      assert StrandedSince(run, steps, n) <==> Strands(run, steps, n);
    }
  }

  lemma StalledStep(w: World, step: WakeStep)
    requires RowsOk(w) && CanWake(w, step)
    ensures var run, steps := [w, Wake(w, step)], [step];
      Wake(w, step).stalled <==> Strands(run, steps, 0) || (w.stalled && !Wakes(run, steps, 0))
  {
  }

  ghost predicate WorldReachable(w: World) {
    exists run :: IsWorldRun(run) && Last(run) == w
  }

  lemma ReachableWake(w: World, step: WakeStep)
    requires WorldReachable(w) && CanWake(w, step)
    ensures WorldReachable(Wake(w, step))
  {
    var run :| IsWorldRun(run) && Last(run) == w;
    var run' := run + [Wake(w, step)];
    forall i: nat | i + 1 < |run'| ensures Follows(run', i) {
      if i == |run| - 1 {
        assert CanWake(run'[i], step) && run'[i + 1] == Wake(run'[i], step);
      } else {
        assert Follows(run, i);
      }
    }
    assert IsWorldRun(run') && Last(run') == Wake(w, step);
  }

  /** Nothing but row 4, inserted outside a transaction, whose nudge left `flags`. */
  function RowNudged(flags: Flags, fired: nat, stalled: bool): World {
    World(flags, Selecting, map[], map[], {}, {4}, {}, {}, map[], {}, multiset{}, {4}, {}, 1, fired, fired, stalled)
  }

  lemma RowIsNudged()
    ensures WorldReachable(RowNudged(Flags(false, false, 1), 0, false))
  {
    var w := World(Flags(false, false, 0), Selecting,
                   map[], map[], {}, {}, {}, {}, map[], {}, multiset{}, {}, {}, 0, 0, 0, false);
    assert IsWorldRun([w]) && Last([w]) == w;
    ReachableWake(w, InsertOutside(0, 4));
    assert {} + {4} == {4};
    assert Wake(w, InsertOutside(0, 4)) == RowNudged(Flags(false, false, 1), 0, false);
  }

  /** A drain that throws before its SELECT does leave a nudged row to the timer. */
  lemma ThrowLosesWakeUp()
    ensures exists w, row :: WorldReachable(w) && row in w.nudged && row !in w.selected && !Covered(w)
  {
    RowIsNudged();
    ReachableWake(RowNudged(Flags(false, false, 1), 0, false), ImmediateFires);
    assert Wake(RowNudged(Flags(false, false, 1), 0, false), ImmediateFires) ==
           RowNudged(Flags(true, false, 0), 1, false);
    ReachableWake(RowNudged(Flags(true, false, 0), 1, false), DrainThrows);
    assert Wake(RowNudged(Flags(true, false, 0), 1, false), DrainThrows) == RowNudged(Flags(false, false, 0), 1, true);
    assert 4 in RowNudged(Flags(false, false, 0), 1, true).nudged;
  }
}
