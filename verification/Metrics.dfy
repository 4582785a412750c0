/** The durable metric buffer (src/modules/metrics/metrics-persistence.service.ts). */
module Metrics {
  import opened Common

  datatype Sample = Sample(metric: string, value: real, recordedAt: nat)

  const FLUSH_AT_ROWS: nat := 500
  const MAX_BUFFERED_ROWS: nat := 50000

  /** `issued` and `accepted` are history: the INSERTs sent so far and the samples taken in. */
  datatype Buffer = Buffer(
    rows: seq<Sample>,
    timer: bool,              // a flush timeout is set
    flushing: bool,           // flushNow's insert has not settled
    closing: bool,            // onModuleDestroy has detached the sink
    issued: seq<seq<Sample>>,
    accepted: seq<Sample>)

  // ---------- the callbacks, on values ----------

  function WriteBatch(b: Buffer): Buffer {
    if b.rows == [] then b
    else
      var n := if |b.rows| < FLUSH_AT_ROWS then |b.rows| else FLUSH_AT_ROWS;
      b.(rows := b.rows[n..], issued := b.issued + [b.rows[..n]])
  }

  function FlushNow(b: Buffer): Buffer {
    WriteBatch(b).(timer := false, flushing := true)
  }

  function Record(b: Buffer, x: Sample): Buffer {
    if |b.rows| >= MAX_BUFFERED_ROWS then b
    else
      var pushed := b.(rows := b.rows + [x], accepted := b.accepted + [x]);
      if b.flushing then pushed
      else if |pushed.rows| >= FLUSH_AT_ROWS then FlushNow(pushed)
      else pushed.(timer := true)
  }

  /** flushNow's finally: the next flush, a new timeout, or nothing. */
  function Settled(b: Buffer): Buffer {
    if |b.rows| >= FLUSH_AT_ROWS then FlushNow(b.(flushing := false))
    else if |b.rows| > 0 then b.(flushing := false, timer := true)
    else b.(flushing := false)
  }

  datatype BufferStep = RecordStep(x: Sample) | TimerStep | SettleStep | BeginShutdownStep | ShutdownWriteStep

  predicate CanBuffer(b: Buffer, step: BufferStep) {
    match step
    case RecordStep(_) => !b.closing
    case TimerStep => b.timer
    case SettleStep => b.flushing
    case BeginShutdownStep => !b.closing
    case ShutdownWriteStep => b.closing
  }

  function DoBuffer(b: Buffer, step: BufferStep): Buffer
    requires CanBuffer(b, step)
  {
    match step
    case RecordStep(x) => Record(b, x)
    case TimerStep => FlushNow(b)
    case SettleStep => Settled(b)
    case BeginShutdownStep => b.(closing := true, timer := false)
    case ShutdownWriteStep => WriteBatch(b)
  }

  const EMPTY: Buffer := Buffer([], false, false, false, [], [])

  ghost predicate Follows(run: seq<Buffer>, i: nat)
    requires i + 1 < |run|
  {
    NextBuffer(run[i], run[i + 1])
  }

  ghost predicate IsBufferRun(run: seq<Buffer>) {
    && run != [] && run[0] == EMPTY
    && forall i: nat :: i + 1 < |run| ==> Follows(run, i)
  }

  ghost predicate NextBuffer(b: Buffer, b': Buffer) {
    exists step :: CanBuffer(b, step) && b' == DoBuffer(b, step)
  }

  // ---------- conservation ----------

  function Flatten(batches: seq<seq<Sample>>): seq<Sample> {
    if batches == [] then [] else Flatten(batches[..|batches| - 1]) + Last(batches)
  }

  predicate SizeOk(batch: seq<Sample>) {
    1 <= |batch| <= FLUSH_AT_ROWS
  }

  ghost predicate Conserved(b: Buffer) {
    && Flatten(b.issued) + b.rows == b.accepted
    && (forall i :: 0 <= i < |b.issued| ==> SizeOk(b.issued[i]))
    && |b.rows| <= MAX_BUFFERED_ROWS
  }

  predicate Attended(b: Buffer) {
    && (b.timer ==> !b.flushing)
    && (!b.flushing ==> |b.rows| < FLUSH_AT_ROWS)
    && (b.rows != [] && !b.closing ==> b.timer || b.flushing)
  }

  ghost predicate BufferOk(b: Buffer) {
    Conserved(b) && Attended(b)
  }

  /** Cutting the first `n` rows off as a batch loses and reorders nothing. */
  lemma FlattenMoves(issued: seq<seq<Sample>>, rows: seq<Sample>, n: nat)
    requires n <= |rows|
    ensures Flatten(issued + [rows[..n]]) + rows[n..] == Flatten(issued) + rows
  {
    assert (issued + [rows[..n]])[..|issued|] == issued;
    assert rows == rows[..n] + rows[n..];
  }

  lemma WriteBatchMoves(b: Buffer)
    ensures Flatten(WriteBatch(b).issued) + WriteBatch(b).rows == Flatten(b.issued) + b.rows
  {
    if b.rows != [] {
      FlattenMoves(b.issued, b.rows, if |b.rows| < FLUSH_AT_ROWS then |b.rows| else FLUSH_AT_ROWS);
    }
  }

  lemma WriteBatchSizes(b: Buffer, i: nat)
    requires i < |WriteBatch(b).issued| && (i < |b.issued| ==> SizeOk(b.issued[i]))
    ensures SizeOk(WriteBatch(b).issued[i])
  {
  }

  lemma WriteBatchConserves(b: Buffer)
    requires Conserved(b)
    ensures Conserved(WriteBatch(b))
  {
    WriteBatchMoves(b);
    forall i | 0 <= i < |WriteBatch(b).issued| ensures SizeOk(WriteBatch(b).issued[i]) {
      WriteBatchSizes(b, i);
    }
  }

  /** Conservation does not look at the timer, the flush or the shutdown flag. */
  lemma FlagsDoNotMatter(b: Buffer, timer: bool, flushing: bool, closing: bool)
    requires Conserved(b)
    ensures Conserved(b.(timer := timer, flushing := flushing, closing := closing))
  {
  }

  lemma FlushNowKeeps(b: Buffer)
    requires Conserved(b)
    ensures BufferOk(FlushNow(b))
  {
    WriteBatchConserves(b);
    FlagsDoNotMatter(WriteBatch(b), false, true, b.closing);
  }

  lemma RecordKeeps(b: Buffer, x: Sample)
    requires BufferOk(b)
    ensures BufferOk(Record(b, x))
  {
    if |b.rows| < MAX_BUFFERED_ROWS {
      var pushed := b.(rows := b.rows + [x], accepted := b.accepted + [x]);
      assert Flatten(b.issued) + (b.rows + [x]) == b.accepted + [x];
      assert Conserved(pushed);
      FlushNowKeeps(pushed);
    }
  }

  /** Recording writes early only when a whole batch is waiting. */
  lemma RecordWritesFullBatches(b: Buffer, x: Sample)
    requires BufferOk(b) && Record(b, x).issued != b.issued
    ensures Record(b, x).issued[..|b.issued|] == b.issued && |Record(b, x).issued| == |b.issued| + 1
    ensures |Last(Record(b, x).issued)| == FLUSH_AT_ROWS && Record(b, x).rows == []
  {
  }

  lemma SettledKeeps(b: Buffer)
    requires Conserved(b)
    ensures BufferOk(Settled(b))
  {
    FlagsDoNotMatter(b, b.timer, false, b.closing);
    FlushNowKeeps(b.(flushing := false));
    FlagsDoNotMatter(b, true, false, b.closing);
  }

  lemma BufferStepKeeps(b: Buffer, step: BufferStep)
    requires BufferOk(b) && CanBuffer(b, step)
    ensures BufferOk(DoBuffer(b, step))
  {
    match step
    case RecordStep(x) => RecordKeeps(b, x);
    case TimerStep => FlushNowKeeps(b);
    case SettleStep =>
      SettledKeeps(b);
    case BeginShutdownStep => FlagsDoNotMatter(b, false, b.flushing, true);
    case ShutdownWriteStep => WriteBatchConserves(b);
  }

  /** At all times the INSERTs issued so far followed by the buffer are the accepted samples in order;
      batches have 1 to 500 rows; the buffer is bounded and holds a full batch only while one is being
      written; and outside shutdown a waiting sample always has a timer or a flush under way. */
  lemma {:induction false} SamplesAreConserved(run: seq<Buffer>, i: nat)
    requires IsBufferRun(run) && i < |run|
    ensures BufferOk(run[i])
  {
    if i > 0 {
      SamplesAreConserved(run, i - 1);
      assert Follows(run, i - 1);
      var step :| CanBuffer(run[i - 1], step) && run[i] == DoBuffer(run[i - 1], step);
      BufferStepKeeps(run[i - 1], step);
    }
  }

  /** During shutdown nothing is accepted, the buffer only shrinks, and every write of the shutdown loop shrinks it. */
  lemma ShutdownOnlyDrains(b: Buffer, step: BufferStep)
    requires b.closing && CanBuffer(b, step)
    ensures var b' := DoBuffer(b, step);
      && b'.closing && b'.accepted == b.accepted && |b'.rows| <= |b.rows|
      && (step.ShutdownWriteStep? && b.rows != [] ==> |b'.rows| < |b.rows|)
  {
  }

  // ---------- which samples are taken ----------

  /** A run together with the steps it took. */
  ghost predicate IsBufferTrace(run: seq<Buffer>, steps: seq<BufferStep>) {
    && |run| == |steps| + 1 && run[0] == EMPTY
    && forall i :: 0 <= i < |steps| ==> CanBuffer(run[i], steps[i]) && run[i + 1] == DoBuffer(run[i], steps[i])
  }

  /** The recorded samples, without those that met 50,000 waiting rows. */
  function Taken(run: seq<Buffer>, steps: seq<BufferStep>): seq<Sample>
    requires |run| == |steps| + 1
  {
    if steps == [] then []
    else
      var n := |steps| - 1;
      Taken(run[..n + 1], steps[..n]) +
      match steps[n]
      case RecordStep(x) => if |run[n].rows| < 50000 then [x] else []
      case _ => []
  }

  lemma StepTakes(b: Buffer, step: BufferStep)
    requires CanBuffer(b, step)
    ensures DoBuffer(b, step).accepted ==
            b.accepted + (if step.RecordStep? && |b.rows| < 50000 then [step.x] else [])
  {
    assert b.accepted + [] == b.accepted;
  }

  /** Over every run, what has been written followed by what is waiting is exactly the recorded samples, in order,
      without those that met a full buffer. */
  lemma {:induction false} EverySampleIsTaken(run: seq<Buffer>, steps: seq<BufferStep>)
    requires IsBufferTrace(run, steps)
    ensures Flatten(Last(run).issued) + Last(run).rows == Taken(run, steps)
  {
    TraceAccepts(run, steps);
    forall i: nat | i + 1 < |run| ensures Follows(run, i) {
      assert CanBuffer(run[i], steps[i]) && run[i + 1] == DoBuffer(run[i], steps[i]);
    }
    SamplesAreConserved(run, |run| - 1);
  }

  lemma {:induction false} TraceAccepts(run: seq<Buffer>, steps: seq<BufferStep>)
    requires IsBufferTrace(run, steps)
    ensures Last(run).accepted == Taken(run, steps)
  {
    if steps != [] {
      var n := |steps| - 1;
      TraceAccepts(run[..n + 1], steps[..n]);
      StepTakes(run[n], steps[n]);
    }
  }

  // ---------- the service ----------

  class MetricsPersistenceService {
    var buffer: seq<Sample>
    var timer: bool
    var flushing: bool
    var closing: bool
    ghost var issued: seq<seq<Sample>>
    ghost var accepted: seq<Sample>

    ghost function Value(): Buffer
      reads this
    {
      Buffer(buffer, timer, flushing, closing, issued, accepted)
    }

    constructor ()
      ensures Value() == EMPTY
    {
      buffer, timer, flushing, closing, issued, accepted := [], false, false, false, [], [];
    }

    /** Inserts up to FLUSH_AT_ROWS buffered samples; a failed insert is logged, not retried. */
    method DoWriteBatch()
      modifies this
      ensures Value() == WriteBatch(old(Value()))
      ensures old(buffer) != [] ==> var n := if |old(buffer)| < 500 then |old(buffer)| else 500;
        issued == old(issued) + [old(buffer)[..n]] && buffer == old(buffer)[n..]
      ensures old(buffer) == [] ==> Value() == old(Value())
      ensures Flatten(issued) + buffer == Flatten(old(issued)) + old(buffer)
    {
      var n := if |buffer| < FLUSH_AT_ROWS then |buffer| else FLUSH_AT_ROWS;
      var rows := buffer[..n];
      buffer := buffer[n..];
      if |rows| == 0 { return; }
      issued := issued + [rows];
    }

    method DoFlushNow()
      modifies this
      ensures Value() == FlushNow(old(Value()))
      ensures flushing && !timer && Flatten(issued) + buffer == Flatten(old(issued)) + old(buffer)
    {
      timer := false;
      DoWriteBatch();
      flushing := true;
    }

    method DoRecord(x: Sample)
      modifies this
      ensures Value() == Record(old(Value()), x)
      // a sample is taken unless 50,000 are waiting, whatever flush is under way
      ensures |old(buffer)| < 50000 ==>
        accepted == old(accepted) + [x] && Flatten(issued) + buffer == Flatten(old(issued)) + old(buffer) + [x]
      ensures |old(buffer)| >= 50000 ==> Value() == old(Value())
    {
      if |buffer| >= MAX_BUFFERED_ROWS { return; }
      buffer := buffer + [x];
      accepted := accepted + [x];
      if flushing { return; }
      if |buffer| >= FLUSH_AT_ROWS {
        timer := false;
        DoFlushNow();
      } else {
        timer := true;
      }
    }

    method FlushSettled()
      requires flushing
      modifies this
      ensures Value() == Settled(old(Value()))
      ensures flushing <==> |old(buffer)| >= 500
      ensures |old(buffer)| < 500 ==> buffer == old(buffer) && issued == old(issued) && (old(buffer) != [] ==> timer)
      ensures |old(buffer)| >= 500 ==>
        issued == old(issued) + [old(buffer)[..500]] && buffer == old(buffer)[500..] && !timer
    {
      flushing := false;
      if |buffer| >= FLUSH_AT_ROWS {
        DoFlushNow();
      } else if |buffer| > 0 {
        timer := true;
      }
    }

    /** What the event loop may run while shutdown awaits one of its inserts. */
    method RunCallbacks()
      requires BufferOk(Value()) && closing
      modifies this
      ensures BufferOk(Value()) && closing && accepted == old(accepted) && |buffer| <= |old(buffer)|
    {
      if * {
        if flushing {
          SettledKeeps(Value());
          FlushSettled();
        }
      } else if * {
        if timer {
          FlushNowKeeps(Value());
          DoFlushNow();
        }
      }
    }

    /** onModuleDestroy: detach, stop the timer, wait for the running flush, then write what is left, while a
        flush that the first one has started may settle and timers may fire. */
    method OnModuleDestroy()
      requires BufferOk(Value())
      modifies this
      ensures buffer == [] && closing && BufferOk(Value())
      ensures accepted == old(accepted) && Flatten(issued) == accepted
    {
      FlagsDoNotMatter(Value(), false, flushing, true);
      closing := true;
      timer := false;
      if flushing {
        SettledKeeps(Value());
        FlushSettled();
      }
      while |buffer| > 0
        invariant BufferOk(Value()) && closing && accepted == old(accepted)
        decreases |buffer|
      {
        WriteBatchConserves(Value());
        DoWriteBatch();
        RunCallbacks();
      }
    }
  }
}
