/**
 The media pipeline orchestrator: `advance` walks the registered stages in order, retries
 each with exponential backoff, and writes the job row and its outbox events in one
 transaction.

 `committed` is what the database holds; `working` is the open transaction of one call,
 lost when the process dies.  Every await takes an answer from a script, and a script that
 runs out is a death at that await, so all crash points are covered.
 */
module MediaPipeline {
  import opened Prelude

  /**
   Stage names.  The orchestrator singles out the two packaging stages, and a job that fails
   without a current stage is reported under "unknown".
   */
  datatype StageName = HlsPackage | DashPackage | Unknown | Other(id: nat)

  datatype Topic = Topic(id: nat)

  datatype Stage = Stage(name: StageName, successEvent: Option<Topic>, critical: bool)

  datatype Status = Pending | Running | Completed | Failed

  /** `recorded` are the keys of `stage_versions`; `retryTime` is the accounted retry time in the job's context. */
  datatype Job = Job(
    status: Status, recorded: set<StageName>, current: Option<StageName>, retries: int,
    retryTime: real, leasedAt: Option<int>)

  datatype Event =
    | StageDone(stage: StageName, topic: Topic)
    | Packaged
    | Published
    | PipelineFailed(stage: StageName)

  /** The outbox rows of a job in the order they were written. */
  datatype Outbox = Empty | Row(earlier: Outbox, last: Event)

  /** A job and the outbox rows written with it. */
  datatype Db = Db(job: Job, outbox: Outbox)

  /** What running a stage once produces.  A timeout is an ordinary error. */
  datatype Kind = Success | Error | NonRetryable | Cancelled

  datatype Answer = Answer(kind: Kind, seconds: real)

  /** One execution of a stage. */
  datatype Try = Try(stage: StageName, kind: Kind, seconds: real)

  /** Executions in the order they happened. */
  datatype History = Start | Then(before: History, last: Try)

  /**
   One call of `advance`: the clock, whether the row lock is free, whether the concurrency limits
   admit it, whether its process has just been started, and what its awaits meet.
   */
  datatype Call = Call(now: int, lockFree: bool, admitted: bool, freshWorker: bool, script: seq<Answer>)

  /** How the retry loop of one stage ends. */
  datatype StageEnd = Succeeded | Skipped | Rejected | OverTime | Exhausted | Interrupted | Died

  datatype AdvanceEnd =
    | Returned
    | AlreadyFailed
    | LeaseHeld
    | LimitReached
    | BreakerOpen
    | CancelledInside
    | ProcessDied

  const LEASE_SECONDS := 300

  // ---- What the outbox owes a job -------------------------------------------------

  /** The names of the first k stages. */
  function Names(order: seq<Stage>, k: nat): set<StageName>
    requires k <= |order|
  {
    if k == 0 then {} else Names(order, k - 1) + {order[k - 1].name}
  }

  ghost predicate Distinct(order: seq<Stage>) {
    forall i, j :: 0 <= i < j < |order| ==> order[i].name != order[j].name
  }

  /** The outbox once a stage is announced, if it has an event. */
  function Announced(outbox: Outbox, s: Stage): Outbox {
    if s.successEvent.None? then outbox else Row(outbox, StageDone(s.name, s.successEvent.value))
  }

  /** The success events of the first k stages. */
  function StageEvents(order: seq<Stage>, k: nat): Outbox
    requires k <= |order|
  {
    if k == 0 then Empty else Announced(StageEvents(order, k - 1), order[k - 1])
  }

  /** The outbox once the job's end is announced, if it has ended. */
  function Ended(outbox: Outbox, job: Job): Outbox {
    match job.status
    case Completed =>
      if HlsPackage in job.recorded && DashPackage in job.recorded then Row(Row(outbox, Packaged), Published)
      else Row(outbox, Published)
    case Failed => if job.current.Some? then Row(outbox, PipelineFailed(job.current.value)) else outbox
    case _ => outbox
  }

  /** The first k stages are recorded, and the outbox holds exactly what that and the status owe. */
  ghost predicate InvAt(order: seq<Stage>, db: Db, k: nat) {
    && k <= |order|
    && db.job.recorded == Names(order, k)
    && db.outbox == Ended(StageEvents(order, k), db.job)
    && (db.job.status == Completed ==> k == |order|)
    && (db.job.status == Failed ==> db.job.current.Some?)
  }

  function Length(h: History): nat {
    if h.Start? then 0 else Length(h.before) + 1
  }

  /** How often a stage ran and failed in the ordinary way. */
  function Failures(h: History, stage: StageName): nat {
    if h.Start? then 0
    else Failures(h.before, stage) + if h.last.stage == stage && h.last.kind == Error then 1 else 0
  }

  /** The time lost in failed runs. */
  function FailedSeconds(h: History): real {
    if h.Start? then 0.0 else FailedSeconds(h.before) + if h.last.kind == Error then h.last.seconds else 0.0
  }

  predicate EverSucceeded(h: History, stage: StageName) {
    h.Then? && ((h.last.stage == stage && h.last.kind == Success) || EverSucceeded(h.before, stage))
  }

  /** `now` continues `was` with ordinary failures of one stage. */
  predicate AllFailed(was: History, now: History, stage: StageName): (r: bool)
    ensures r ==> Length(was) <= Length(now)
    decreases now
  {
    now == was ||
    (now.Then? && now.last.stage == stage && now.last.kind == Error && AllFailed(was, now.before, stage))
  }

  /** `now` continues `was` with runs of one stage, of which all but the last failed in the ordinary way. */
  predicate OneStage(was: History, now: History, stage: StageName) {
    now == was || (now.Then? && now.last.stage == stage && AllFailed(was, now.before, stage))
  }

  lemma {:induction false} AllFailedCount(was: History, now: History, stage: StageName)
    requires AllFailed(was, now, stage)
    ensures Failures(now, stage) == Failures(was, stage) + Length(now) - Length(was)
    decreases now
  {
    if now != was {
      AllFailedCount(was, now.before, stage);
    }
  }

  /** `now` continues `was` with executions of other stages than these. */
  predicate Since(was: History, now: History, stages: set<StageName>)
    decreases now
  {
    now == was || (now.Then? && now.last.stage !in stages && Since(was, now.before, stages))
  }

  lemma {:induction false} SinceOn(a: History, b: History, c: History, fewer: set<StageName>, stages: set<StageName>)
    requires Since(a, b, fewer) && Since(b, c, stages) && fewer <= stages
    ensures Since(a, c, fewer)
    decreases c
  {
    if c != b {
      SinceOn(a, b, c.before, fewer, stages);
    }
  }

  lemma {:induction false} AllFailedSince(was: History, now: History, stage: StageName, stages: set<StageName>)
    requires AllFailed(was, now, stage) && stage !in stages
    ensures Since(was, now, stages)
    decreases now
  {
    if now != was {
      AllFailedSince(was, now.before, stage, stages);
    }
  }

  lemma OneStageSince(was: History, now: History, stage: StageName, stages: set<StageName>)
    requires OneStage(was, now, stage) && stage !in stages
    ensures Since(was, now, stages)
  {
    if now != was {
      AllFailedSince(was, now.before, stage, stages);
    }
  }

  /** What entitles a stage to be recorded: it succeeded, or it is not critical and used up its attempts. */
  ghost predicate Earned(h: History, s: Stage, maxAttempts: int) {
    EverSucceeded(h, s.name) || (!s.critical && Failures(h, s.name) >= maxAttempts)
  }

  ghost predicate EarnedUpTo(order: seq<Stage>, h: History, maxAttempts: int, k: nat)
    requires k <= |order|
  {
    k == 0 || (Earned(h, order[k - 1], maxAttempts) && EarnedUpTo(order, h, maxAttempts, k - 1))
  }

  lemma {:induction false} EarnedEach(order: seq<Stage>, h: History, maxAttempts: int, k: nat, i: nat)
    requires k <= |order| && EarnedUpTo(order, h, maxAttempts, k) && i < k
    ensures Earned(h, order[i], maxAttempts)
  {
    if i < k - 1 {
      EarnedEach(order, h, maxAttempts, k - 1, i);
    }
  }

  lemma {:induction false} EarnedOnce(order: seq<Stage>, now: History, maxAttempts: int, k: nat)
    requires k <= |order| && now.Then? && EarnedUpTo(order, now.before, maxAttempts, k)
    ensures EarnedUpTo(order, now, maxAttempts, k)
  {
    if k > 0 {
      EarnedOnce(order, now, maxAttempts, k - 1);
    }
  }

  /** What is earned stays earned, whatever runs later. */
  lemma {:induction false} EarnedStays(order: seq<Stage>, was: History, now: History, stages: set<StageName>,
                                       maxAttempts: int, k: nat)
    requires k <= |order| && EarnedUpTo(order, was, maxAttempts, k) && Since(was, now, stages)
    ensures EarnedUpTo(order, now, maxAttempts, k)
    decreases now
  {
    if now != was {
      EarnedStays(order, was, now.before, stages, maxAttempts, k);
      EarnedOnce(order, now, maxAttempts, k);
    }
  }

  /** The runs of one ended stage entitle it to its record. */
  lemma StageEarned(order: seq<Stage>, was: History, now: History, end: StageEnd, maxAttempts: int, k: nat)
    requires k < |order| && OneStage(was, now, order[k].name) && Explains(was, now, order[k].name, end, maxAttempts)
    requires end == Succeeded || (end == Skipped && !order[k].critical)
    requires EarnedUpTo(order, was, maxAttempts, k)
    ensures EarnedUpTo(order, now, maxAttempts, k + 1)
  {
    OneStageSince(was, now, order[k].name, {});
    EarnedStays(order, was, now, {}, maxAttempts, k);
    if end == Skipped {
      AllFailedCount(was, now, order[k].name);
    }
  }

  predicate Terminal(job: Job) {
    job.status == Completed || job.status == Failed
  }

  predicate Extends(was: Outbox, now: Outbox)
    decreases now
  {
    now == was || (now.Row? && Extends(was, now.earlier))
  }

  lemma {:induction false} ExtendsOn(a: Outbox, b: Outbox, c: Outbox)
    requires Extends(a, b) && Extends(b, c)
    ensures Extends(a, c)
    decreases c
  {
    if c != b {
      ExtendsOn(a, b, c.earlier);
    }
  }

  /** What committed states do over time: records and outbox only grow, and a terminal job never changes again. */
  ghost predicate Progress(before: Db, after: Db) {
    && before.job.recorded <= after.job.recorded
    && Extends(before.outbox, after.outbox)
    && (Terminal(before.job) ==> after.job.status == before.job.status && after.job.recorded == before.job.recorded
                                 && after.outbox == before.outbox)
  }

  /** With distinct names, a stage is among the first k exactly when its place is. */
  lemma {:induction false} RecordedExactly(order: seq<Stage>, k: nat, i: nat)
    requires Distinct(order) && k <= |order| && i < |order|
    ensures order[i].name in Names(order, k) <==> i < k
  {
    if k > 0 {
      RecordedExactly(order, k - 1, i);
    }
  }

  lemma {:induction false} RecordsGrow(order: seq<Stage>, j: nat, k: nat)
    requires j <= k <= |order|
    ensures Names(order, j) <= Names(order, k)
    ensures Extends(StageEvents(order, j), StageEvents(order, k))
  {
    if j < k {
      RecordsGrow(order, j, k - 1);
    }
  }

  lemma ProgressOn(a: Db, b: Db, c: Db)
    requires Progress(a, b) && Progress(b, c)
    ensures Progress(a, c)
  {
    ExtendsOn(a.outbox, b.outbox, c.outbox);
  }

  lemma ProgressBetween(order: seq<Stage>, before: Db, after: Db, j: nat, k: nat)
    requires InvAt(order, before, j) && InvAt(order, after, k) && j <= k && !Terminal(before.job)
    ensures Progress(before, after)
  {
    RecordsGrow(order, j, k);
  }

  // ---- What every committed state shows ---------------------------------------------------

  /** How often an event stands in the outbox. */
  function Times(outbox: Outbox, e: Event): nat {
    if outbox.Empty? then 0 else Times(outbox.earlier, e) + if outbox.last == e then 1 else 0
  }

  lemma {:induction false} StageEventsOnce(order: seq<Stage>, k: nat, i: nat, topic: Topic)
    requires Distinct(order) && k <= |order| && i < |order|
    ensures Times(StageEvents(order, k), StageDone(order[i].name, topic))
            == if i < k && order[i].successEvent == Some(topic) then 1 else 0
  {
    if k > 0 {
      StageEventsOnce(order, k - 1, i, topic);
    }
  }

  lemma {:induction false} StageEventsOnly(order: seq<Stage>, k: nat, e: Event)
    requires k <= |order| && !e.StageDone?
    ensures Times(StageEvents(order, k), e) == 0
  {
    if k > 0 {
      StageEventsOnly(order, k - 1, e);
    }
  }

  /** The recorded stages are a prefix of the registry order. */
  ghost predicate RecordedIsPrefix(order: seq<Stage>, job: Job) {
    forall i, j :: 0 <= i < j < |order| && order[j].name in job.recorded ==> order[i].name in job.recorded
  }

  /** One success event for every recorded stage that has one, and none for the others. */
  ghost predicate OneEventPerStage(order: seq<Stage>, db: Db) {
    forall i, topic :: 0 <= i < |order| ==>
      Times(db.outbox, StageDone(order[i].name, topic))
      == if order[i].name in db.job.recorded && order[i].successEvent == Some(topic) then 1 else 0
  }

  /** One final event, of the kind the status says, and only then. */
  ghost predicate OneFinalEvent(db: Db) {
    && Times(db.outbox, Published) == (if db.job.status == Completed then 1 else 0)
    && (forall stage ::
          Times(db.outbox, PipelineFailed(stage)) == if db.job.status == Failed && db.job.current == Some(stage) then 1 else 0)
  }

  /** The joint event of the two packaging stages, once a completed job has recorded both, right before its final event. */
  ghost predicate JointEvent(db: Db) {
    var both := HlsPackage in db.job.recorded && DashPackage in db.job.recorded;
    && Times(db.outbox, Packaged) == (if db.job.status == Completed && both then 1 else 0)
    && (db.job.status == Completed ==>
          && db.outbox.Row? && db.outbox.last == Published
          && (both ==> db.outbox.earlier.Row? && db.outbox.earlier.last == Packaged))
  }

  lemma StageEventTimes(order: seq<Stage>, db: Db, k: nat, i: nat, topic: Topic)
    requires Distinct(order) && InvAt(order, db, k) && i < |order|
    ensures Times(db.outbox, StageDone(order[i].name, topic))
            == if order[i].name in db.job.recorded && order[i].successEvent == Some(topic) then 1 else 0
  {
    RecordedExactly(order, k, i);
    StageEventsOnce(order, k, i, topic);
  }

  /** What the row says and what its outbox holds are the same story. */
  lemma OutboxMatchesJob(order: seq<Stage>, db: Db, k: nat)
    requires Distinct(order) && InvAt(order, db, k)
    ensures RecordedIsPrefix(order, db.job) && OneEventPerStage(order, db) && OneFinalEvent(db) && JointEvent(db)
    ensures db.job.status == Completed ==> forall s :: s in order ==> s.name in db.job.recorded
  {
    forall i | 0 <= i < |order| ensures order[i].name in db.job.recorded <==> i < k {
      RecordedExactly(order, k, i);
    }
    forall i, topic | 0 <= i < |order|
      ensures Times(db.outbox, StageDone(order[i].name, topic))
              == if order[i].name in db.job.recorded && order[i].successEvent == Some(topic) then 1 else 0
    {
      StageEventTimes(order, db, k, i, topic);
    }
    StageEventsOnly(order, k, Published);
    StageEventsOnly(order, k, Packaged);
    forall stage
      ensures Times(db.outbox, PipelineFailed(stage)) == if db.job.status == Failed && db.job.current == Some(stage) then 1 else 0
    {
      StageEventsOnly(order, k, PipelineFailed(stage));
    }
  }

  // ---- What one transaction writes ------------------------------------------------------

  /** The row and its dead-letter event once the job has failed at a stage. */
  function FailedAt(db: Db, stage: StageName): Db {
    Db(db.job.(status := Failed, current := Some(stage)), Row(db.outbox, PipelineFailed(stage)))
  }

  /** The row and its event once a stage is recorded. */
  function RecordedWith(db: Db, s: Stage, spent: real): Db {
    Db(db.job.(recorded := db.job.recorded + {s.name}, retries := 0, retryTime := db.job.retryTime + spent),
       Announced(db.outbox, s))
  }

  lemma FailingKeepsInv(order: seq<Stage>, db: Db, k: nat, stage: StageName)
    requires InvAt(order, db, k) && !Terminal(db.job)
    ensures InvAt(order, FailedAt(db, stage), k)
  {
  }

  lemma RecordingKeepsInv(order: seq<Stage>, db: Db, k: nat, spent: real)
    requires InvAt(order, db, k) && k < |order| && !Terminal(db.job)
    ensures InvAt(order, RecordedWith(db, order[k], spent), k + 1)
  {
  }

  // ---- Retry arithmetic --------------------------------------------------------------

  /** x times two to the n. */
  function Doubled(x: real, n: nat): real { if n == 0 then x else 2.0 * Doubled(x, n - 1) }

  function MinReal(a: real, b: real): real { if a < b then a else b }

  /** The pause after a failed attempt. */
  function Delay(base: real, cap: real, attempt: nat): real
    requires attempt >= 1
  {
    MinReal(Doubled(base, attempt - 1), cap)
  }

  /** The first n pauses together. */
  function Delays(base: real, cap: real, n: nat): real {
    if n == 0 then 0.0 else Delays(base, cap, n - 1) + Delay(base, cap, n)
  }

  /** Pauses that double sum to less than the next one. */
  lemma {:induction false} DelaysDoubling(base: real, cap: real, n: nat)
    ensures Delays(base, cap, n) <= Doubled(base, n) - base
  {
    if n > 0 {
      DelaysDoubling(base, cap, n - 1);
    }
  }

  lemma {:induction false} DelaysCapped(base: real, cap: real, n: nat)
    ensures Delays(base, cap, n) <= n as real * cap
  {
    if n > 0 {
      DelaysCapped(base, cap, n - 1);
      assert n as real * cap == (n - 1) as real * cap + cap;
    }
  }

  /** The first pause is the base, every later one twice the one before, and none exceeds the cap. */
  lemma PausesDoubleUpToTheCap(base: real, cap: real, attempt: nat)
    requires attempt >= 1 && cap >= 0.0
    ensures Delay(base, cap, 1) == if base < cap then base else cap
    ensures var twice := 2.0 * Delay(base, cap, attempt);
            Delay(base, cap, attempt + 1) == if twice < cap then twice else cap
  {
  }

  /** As long as no pause meets the cap, the pauses together fall short of the next one by exactly the first. */
  lemma {:induction false} DelaysBelowTheCap(base: real, cap: real, n: nat)
    requires forall i: nat :: i < n ==> Doubled(base, i) <= cap
    ensures Delays(base, cap, n) == Doubled(base, n) - base
  {
    if n > 0 {
      DelaysBelowTheCap(base, cap, n - 1);
    }
  }

  lemma {:induction false} DelaysGrow(base: real, cap: real, m: nat, n: nat)
    requires m <= n && base >= 0.0 && cap >= 0.0
    ensures Delays(base, cap, m) <= Delays(base, cap, n)
  {
    if m < n {
      DelaysGrow(base, cap, m, n - 1);
      DoubledNonNegative(base, n - 1);
    }
  }

  lemma {:induction false} DoubledNonNegative(x: real, n: nat)
    requires x >= 0.0
    ensures Doubled(x, n) >= 0.0
  {
    if n > 0 {
      DoubledNonNegative(x, n - 1);
    }
  }

  /** The backoff budget of one stage. */
  ghost predicate WithinBudget(base: real, cap: real, attempts: int, slept: real) {
    base >= 0.0 && cap >= 0.0 && attempts >= 1 ==>
      slept <= Doubled(base, attempts - 1) - base && slept <= (attempts - 1) as real * cap
  }

  /** Any n pauses with fewer than `attempts` of them fit under both bounds. */
  lemma {:induction false} PausesFit(base: real, cap: real, attempts: int, n: nat)
    requires n <= attempts - 1
    ensures WithinBudget(base, cap, attempts, Delays(base, cap, n))
  {
    if base >= 0.0 && cap >= 0.0 {
      var m: nat := attempts - 1;
      DelaysGrow(base, cap, n, m);
      DelaysDoubling(base, cap, m);
      DelaysCapped(base, cap, m);
    }
  }

  lemma AllPausesFit(base: real, cap: real, attempts: int)
    ensures forall n: nat :: n <= Max(0, attempts - 1) ==> WithinBudget(base, cap, attempts, Delays(base, cap, n))
  {
    forall n: nat | n <= Max(0, attempts - 1) ensures WithinBudget(base, cap, attempts, Delays(base, cap, n)) {
      if attempts >= 1 {
        PausesFit(base, cap, attempts, n);
      }
    }
  }

  /** What happened since `was` explains how the stage ended. */
  predicate Explains(was: History, now: History, stage: StageName, end: StageEnd, maxAttempts: int) {
    match end
    case Succeeded => Length(now) > Length(was) && now.last.kind == Success
    case Rejected => Length(now) > Length(was) && now.last.kind == NonRetryable
    case Interrupted => Length(now) > Length(was) && now.last.kind in {Cancelled, Error}
    case OverTime => Length(now) > Length(was) && now.last.kind == Error
    case Skipped | Exhausted => Length(now) == Length(was) + Max(0, maxAttempts) && AllFailed(was, now, stage)
    case Died => true
  }

  /**
   What a stage's end leaves in the open transaction: a failed job after exhaustion, else the job as it
   was but for its retry count.
   */
  ghost predicate StageOutcome(stage: Stage, end: StageEnd, before: Db, after: Db) {
    var kept := before.(job := before.job.(retries := after.job.retries));
    match end
    case Exhausted => after == FailedAt(kept, stage.name)
    case Died => after == kept || after == FailedAt(kept, stage.name)
    case _ => after == kept
  }

  lemma OutcomeKeepsInv(order: seq<Stage>, stage: Stage, end: StageEnd, before: Db, after: Db, k: nat)
    requires InvAt(order, before, k) && before.job.status == Running && StageOutcome(stage, end, before, after)
    requires before.job.current == Some(stage.name)
    ensures InvAt(order, after, k) && after.job.retryTime == before.job.retryTime && after.job.current == Some(stage.name)
    ensures if end == Exhausted then after.job.status == Failed
            else after.job.status == Running || (end == Died && after.job.status == Failed)
  {
    FailingKeepsInv(order, before.(job := before.job.(retries := after.job.retries)), k, stage.name);
  }

  /** Failures of a stage in a row, as this process has seen them. */
  function BreakerCount(breaker: map<StageName, nat>, stage: StageName): nat {
    if stage in breaker then breaker[stage] else 0
  }

  /** The retry time that the runs between two histories, of one stage, account for. */
  function Accounted(was: History, now: History, base: real, cap: real): real {
    FailedSeconds(now) - FailedSeconds(was) + Delays(base, cap, Max(0, Length(now) - Length(was) - 1))
  }

  /** Someone else has the job: its row is locked, or its lease is fresh. */
  predicate Held(job: Job, now: int, lockFree: bool) {
    !lockFree || (job.leasedAt.Some? && now - job.leasedAt.value < LEASE_SECONDS)
  }

  /** Nothing stands in the way of the stages from the i-th on: attempts, closed breakers, and answers that are all successes. */
  ghost predicate Smooth(order: seq<Stage>, i: nat, maxAttempts: int, breaker: map<StageName, nat>, threshold: int,
                         script: seq<Answer>)
  {
    && maxAttempts >= 1 && i <= |order|
    && (forall j :: i <= j < |order| ==> BreakerCount(breaker, order[j].name) < threshold)
    && |script| >= |order| - i + 4 && (forall a <- script :: a.kind == Success)
  }

  class MediaPipelineService {
    const order: seq<Stage>
    const maxAttempts: int
    const backoffBase: real
    const backoffCap: real
    const retryCap: real
    const breakerThreshold: int

    var committed: Db
    var working: Db
    var breaker: map<StageName, nat>
    var script: seq<Answer>
    /** Every stage execution so far. */
    ghost var tries: History

    /** The first k stages are recorded, owed their events, and earned by what really ran. */
    ghost predicate At(db: Db, tries: History, k: nat) {
      InvAt(order, db, k) && EarnedUpTo(order, tries, maxAttempts, k)
    }

    ghost predicate Valid()
      reads this`committed, this`tries
    {
      Distinct(order) && exists k: nat :: At(committed, tries, k)
    }

    /** What any reader of the database sees, between any two steps of any run. */
    lemma CommittedStates()
      requires Valid()
      ensures RecordedIsPrefix(order, committed.job)
      ensures OneEventPerStage(order, committed) && OneFinalEvent(committed) && JointEvent(committed)
      ensures committed.job.status == Completed ==> forall s :: s in order ==> s.name in committed.job.recorded
      ensures forall s :: s in order && s.critical && s.name in committed.job.recorded ==> EverSucceeded(tries, s.name)
    {
      var k: nat :| At(committed, tries, k);
      OutboxMatchesJob(order, committed, k);
      forall s | s in order && s.critical && s.name in committed.job.recorded ensures EverSucceeded(tries, s.name) {
        var i :| 0 <= i < |order| && order[i] == s;
        RecordedExactly(order, k, i);
        EarnedEach(order, tries, maxAttempts, k, i);
      }
    }

    constructor (order: seq<Stage>, maxAttempts: int, backoffBase: real, backoffCap: real, retryCap: real, breakerThreshold: int)
      requires Distinct(order)
      ensures Valid() && tries == Start
      ensures committed == Db(Job(Pending, {}, None, 0, 0.0, None), Empty)
      ensures this.order == order && this.maxAttempts == maxAttempts && this.retryCap == retryCap
    {
      this.order, this.maxAttempts, this.backoffBase, this.backoffCap := order, maxAttempts, backoffBase, backoffCap;
      this.retryCap, this.breakerThreshold := retryCap, breakerThreshold;
      committed := Db(Job(Pending, {}, None, 0, 0.0, None), Empty);
      working := Db(Job(Pending, {}, None, 0, 0.0, None), Empty);
      breaker, script, tries := map[], [], Start;
      new;
      assert At(committed, tries, 0);
    }

    /** The next answer is a success. */
    predicate Succeeds(script: seq<Answer>) {
      script != [] && script[0].kind == Success
    }

    /** No await is cancelled. */
    predicate Uncancelled(script: seq<Answer>) {
      script == [] || (script[0].kind != Cancelled && Uncancelled(script[1..]))
    }

    /** A call that stopped early: what it leaves, in the open transaction and in the database. */
    ghost predicate Stopped(end: AdvanceEnd, before: Db)
      reads this`committed, this`working, this`script
    {
      && end in {Returned, BreakerOpen, CancelledInside, ProcessDied}
      && (committed == before || (committed == working && Terminal(working.job)))
      && working.job.status != Completed
      && (end == Returned ==> committed == working && working.job.status == Failed)
      && (end == BreakerOpen || end == CancelledInside ==> working.job.status == Running)
      && (end == ProcessDied ==> script == [])
    }

    /** A stage is the reason why a call stopped: what has happened since `was` is about it. */
    ghost predicate Because(end: AdvanceEnd, was: History, stage: Stage)
      reads this`working, this`tries, this`breaker
    {
      && (working.job.status == Failed ==> working.job.current == Some(stage.name))
      && (end == Returned ==> Doomed(was, tries, stage, working.job.retryTime))
      && (end == CancelledInside ==> Explains(was, tries, stage.name, Interrupted, maxAttempts))
      && (end == BreakerOpen ==> tries == was && BreakerCount(breaker, stage.name) >= breakerThreshold)
    }

    /** A call stopped at the first stage that was not recorded, and because of it. */
    ghost predicate StoppedAtFirst(end: AdvanceEnd, before: History, recorded: set<StageName>, k: nat, was: History)
      reads this`working, this`tries, this`breaker
    {
      k < |order| && working.job.recorded == Names(order, k) && Since(before, was, recorded) && Because(end, was, order[k])
    }

    /** A stage has been recorded, its breaker closed, and its retry time accounted for. */
    ghost predicate StageRecorded(before: Db, was: History, closed: map<StageName, nat>, stage: Stage, k: nat)
      requires k <= |order|
      reads this`working, this`tries, this`breaker
    {
      && At(working, tries, k) && working.job.status == Running && working.job.retryTime < retryCap
      && working.job.retryTime == before.job.retryTime + Accounted(was, tries, backoffBase, backoffCap)
      && breaker == closed[stage.name := 0]
    }

    /** The retry time accounted for since `was`, or with the next pause, reaches the cap. */
    ghost predicate OverCap(was: History, now: History, soFar: real) {
      var n := Length(now) - Length(was);
      var spent := soFar + Accounted(was, now, backoffBase, backoffCap);
      spent >= retryCap || (1 <= n < maxAttempts && spent + Delay(backoffBase, backoffCap, n) >= retryCap)
    }

    /** Why the runs of a stage since `was` fail the job. */
    ghost predicate Doomed(was: History, now: History, stage: Stage, soFar: real) {
      || Explains(was, now, stage.name, Rejected, maxAttempts)
      || (Explains(was, now, stage.name, OverTime, maxAttempts) && OverCap(was, now, soFar))
      || (Explains(was, now, stage.name, Exhausted, maxAttempts) && stage.critical)
    }

    /** How the runs of a stage since `was` ended, and what they leave; `before` is the committed state before them. */
    ghost predicate Tried(end: StageEnd, before: Db, was: History, closed: map<StageName, nat>, stage: Stage,
                          soFar: real, spent: real, k: nat)
      requires k < |order|
      reads this`committed, this`working, this`script, this`tries, this`breaker
    {
      && At(working, tries, k) && working.job.retryTime == soFar && working.job.current == Some(stage.name)
      && (end != Died ==> working.job.status == (if end == Exhausted then Failed else Running))
      && (end != Died ==> committed == if end == Exhausted then working else before)
      && match end
         case Succeeded | Skipped =>
           && EarnedUpTo(order, tries, maxAttempts, k + 1) && breaker[stage.name := 0] == closed[stage.name := 0]
           && soFar + spent < retryCap && spent == Accounted(was, tries, backoffBase, backoffCap)
         case Rejected | OverTime | Exhausted => Doomed(was, tries, stage, soFar)
         case Interrupted => Explains(was, tries, stage.name, Interrupted, maxAttempts)
         case Died =>
           && script == [] && working.job.status in {Running, Failed}
           && (committed == before || (committed == working && Terminal(working.job)))
    }

    method Await() returns (a: Option<Answer>)
      modifies this`script
      ensures a.None? <==> old(script) == []
      ensures a.None? ==> script == []
      ensures a.Some? ==> a.value == old(script)[0] && script == old(script)[1..]
      ensures Uncancelled(old(script)) ==> Uncancelled(script) && (a.Some? ==> a.value.kind != Cancelled)
    {
      if script == [] {
        return None;
      }
      a := Some(script[0]);
      script := script[1..];
    }

    /** The process may die on either side of a commit. */
    method Commit() returns (alive: bool)
      modifies this`script, this`committed
      ensures committed == working || (committed == old(committed) && !alive)
      ensures !alive ==> script == []
      ensures |old(script)| >= 2 ==> alive && script == old(script)[2..]
    {
      var a := Await();
      if a.None? {
        return false;
      }
      committed := working;
      a := Await();
      alive := a.Some?;
    }

    method RunOnce(stage: Stage) returns (a: Option<Answer>)
      modifies this`script, this`tries
      ensures a.None? <==> old(script) == []
      ensures a.Some? ==> a.value == old(script)[0] && tries == Then(old(tries), Try(stage.name, a.value.kind, a.value.seconds))
      ensures a.None? ==> tries == old(tries) && script == []
      ensures a.Some? ==> script == old(script)[1..]
      ensures Uncancelled(old(script)) ==> Uncancelled(script) && (a.Some? ==> a.value.kind != Cancelled)
    {
      a := Await();
      if a.Some? {
        tries := Then(tries, Try(stage.name, a.value.kind, a.value.seconds));
      }
    }

    /** Mark the job failed, with its dead-letter event, and commit both. */
    method FailJob(stage: StageName) returns (alive: bool)
      modifies this`script, this`committed, this`working
      ensures working == FailedAt(old(working), stage)
      ensures working == Db(old(working).job.(status := Failed, current := Some(stage)),
                            Row(old(working).outbox, PipelineFailed(stage)))
      ensures committed == working || (committed == old(committed) && !alive)
      ensures !alive ==> script == []
      ensures |old(script)| >= 2 ==> alive
    {
      working := working.(job := working.job.(status := Failed, current := Some(stage)));
      working := working.(outbox := Row(working.outbox, PipelineFailed(stage)));
      alive := Commit();
    }

    /**
     One attempt and the pause after it.  `soFar` is the retry time accounted before it, `spent` what
     this one adds; no end means the loop goes on.
     */
    method Attempt(stage: Stage, attempt: nat, soFar: real)
      returns (end: Option<StageEnd>, spent: real, slept: real)
      requires attempt >= 1 && soFar < retryCap
      modifies this`script, this`tries
      ensures tries == old(tries) || (tries.Then? && tries.before == old(tries) && tries.last.stage == stage.name)
      ensures (tries.Then? && tries.before == old(tries)) || end == Some(Died)
      ensures end.None? ==> tries.last.kind == Error && soFar + spent < retryCap
      ensures end.None? ==> spent == tries.last.seconds + slept
      ensures end.None? ==> slept == if attempt < maxAttempts then Delay(backoffBase, backoffCap, attempt) else 0.0
      ensures end.None? ==>
                var awaits := if attempt < maxAttempts then 2 else 1;
                |old(script)| >= awaits && script == old(script)[awaits..]
      ensures end.Some? ==> slept == 0.0 && end.value !in {Skipped, Exhausted}
      ensures end.Some? ==> Explains(old(tries), tries, stage.name, end.value, 1)
      ensures end == Some(Succeeded) ==> spent == 0.0
      ensures end == Some(OverTime) ==>
                || soFar + tries.last.seconds >= retryCap
                || (attempt < maxAttempts && soFar + tries.last.seconds + Delay(backoffBase, backoffCap, attempt) >= retryCap)
      ensures end == Some(Died) ==> script == []
      ensures Succeeds(old(script)) ==> end == Some(Succeeded) && script == old(script)[1..]
      ensures Uncancelled(old(script)) ==> Uncancelled(script) && end != Some(Interrupted)
    {
      spent, slept := 0.0, 0.0;
      var a := RunOnce(stage);
      if a.None? {
        end := Some(Died);
        return;
      }
      match a.value.kind {
        case Success =>
          end := Some(Succeeded);
        case NonRetryable =>
          end := Some(Rejected);
        case Cancelled =>
          end := Some(Interrupted);
        case Error =>
          end := None;
          spent := spent + a.value.seconds;
          if soFar + spent >= retryCap {
            end := Some(OverTime);
            return;
          }
          if attempt < maxAttempts {
            var delay := Delay(backoffBase, backoffCap, attempt);
            spent := spent + delay;
            if soFar + spent >= retryCap {
              end := Some(OverTime);
              return;
            }
            a := Await();
            if a.None? || a.value.kind == Cancelled {
              end := Some(if a.None? then Died else Interrupted);
              return;
            }
            slept := delay;
          }
      }
    }

    /**
     The attempts at one stage.  `spent` is the retry time they account for, `slept` the pauses
     really taken; ends Skipped when every attempt failed.
     */
    method Attempts(stage: Stage, soFar: real) returns (end: StageEnd, spent: real, slept: real)
      requires soFar < retryCap
      modifies this`script, this`working, this`tries
      ensures OneStage(old(tries), tries, stage.name) && Length(tries) <= Length(old(tries)) + Max(0, maxAttempts)
      ensures Explains(old(tries), tries, stage.name, end, maxAttempts) && end != Exhausted
      ensures end == Succeeded || end == Skipped ==> soFar + spent < retryCap
      ensures end == Succeeded || end == Skipped ==> spent == FailedSeconds(tries) - FailedSeconds(old(tries)) + slept
      ensures end == OverTime ==> OverCap(old(tries), tries, soFar)
      ensures end == Died ==> script == []
      ensures end != Died ==> slept == Delays(backoffBase, backoffCap, Max(0, Length(tries) - Length(old(tries)) - 1))
      ensures WithinBudget(backoffBase, backoffCap, maxAttempts, slept)
      ensures maxAttempts >= 1 && Succeeds(old(script)) ==> end == Succeeded && script == old(script)[1..]
      ensures working == old(working).(job := old(working).job.(retries := working.job.retries))
      ensures Uncancelled(old(script)) ==> Uncancelled(script) && end != Interrupted
      ensures end != Died && maxAttempts >= 1 ==> working.job.retries == Length(tries) - Length(old(tries))
    {
      var attempt := 0;
      spent, slept := 0.0, 0.0;
      ghost var pauses: nat := 0;
      AllPausesFit(backoffBase, backoffCap, maxAttempts);
      while attempt < maxAttempts
        invariant 0 <= attempt <= Max(0, maxAttempts) && Length(tries) == Length(old(tries)) + attempt
        invariant pauses == if 0 < attempt == maxAttempts then attempt - 1 else attempt
        invariant AllFailed(old(tries), tries, stage.name)
        invariant if attempt == 0 then script == old(script) else !Succeeds(old(script))
        invariant soFar + spent < retryCap
        invariant slept == Delays(backoffBase, backoffCap, pauses)
        invariant spent == FailedSeconds(tries) - FailedSeconds(old(tries)) + slept
        invariant working == old(working).(job := old(working).job.(retries := working.job.retries))
        invariant attempt > 0 ==> working.job.retries == attempt
        invariant Uncancelled(old(script)) ==> Uncancelled(script)
      {
        attempt := attempt + 1;
        working := working.(job := working.job.(retries := attempt));
        var ended, more, paused := Attempt(stage, attempt, soFar + spent);
        spent, slept := spent + more, slept + paused;
        if ended.Some? {
          end := ended.value;
          return;
        }
        pauses := if attempt < maxAttempts then attempt else attempt - 1;
      }
      end := Skipped;
    }

    /**
     Run one stage with retries.  When all of them fail the circuit breaker counts it; a critical
     stage then fails the job and any other is skipped.
     */
    method RunStageWithRetries(stage: Stage, soFar: real) returns (end: StageEnd, spent: real, slept: real)
      requires soFar < retryCap
      modifies this`script, this`working, this`committed, this`breaker, this`tries
      // Bounded attempts, explained by what the stage did.
      ensures OneStage(old(tries), tries, stage.name) && Length(tries) <= Length(old(tries)) + Max(0, maxAttempts)
      ensures Explains(old(tries), tries, stage.name, end, maxAttempts)
      // A normal return stays below the cap, an over-time end does not.
      ensures end == Succeeded || end == Skipped ==> soFar + spent < retryCap
      ensures end == OverTime ==> OverCap(old(tries), tries, soFar)
      // The accounting is exact, and the backoff is bounded twice over.
      ensures end == Succeeded || end == Skipped ==> spent == FailedSeconds(tries) - FailedSeconds(old(tries)) + slept
      ensures end != Died ==> slept == Delays(backoffBase, backoffCap, Max(0, Length(tries) - Length(old(tries)) - 1))
      ensures WithinBudget(backoffBase, backoffCap, maxAttempts, slept)
      ensures maxAttempts >= 1 && Succeeds(old(script)) ==> end == Succeeded && script == old(script)[1..]
      ensures Uncancelled(old(script)) && end != Exhausted ==> Uncancelled(script) && end != Interrupted
      // It dies only when its awaits do; only the exhaustion of a critical stage touches the database, and it fails the job.
      ensures end == Died ==> script == []
      ensures end == Skipped ==> !stage.critical
      ensures end == Exhausted ==> stage.critical && committed == working
      ensures end != Exhausted && end != Died ==> committed == old(committed)
      // The circuit breaker counts exhaustions and nothing else.
      ensures end == Skipped || end == Exhausted ==>
                breaker == old(breaker)[stage.name := (if stage.name in old(breaker) then old(breaker)[stage.name] else 0) + 1]
      ensures end !in {Skipped, Exhausted, Died} ==> breaker == old(breaker)
      ensures StageOutcome(stage, end, old(working), working)
      ensures committed == old(committed) || (committed == working && Terminal(working.job))
    {
      end, spent, slept := Attempts(stage, soFar);
      if end == Skipped {
        breaker := breaker[stage.name := BreakerCount(breaker, stage.name) + 1];
        if stage.critical {
          var alive := FailJob(stage.name);
          end := if alive then Exhausted else Died;
        }
      }
    }

    /** Record a stage with its event in the open transaction. */
    method RecordStage(stage: Stage, spent: real, ghost k: nat)
      requires InvAt(order, working, k) && k < |order| && stage == order[k] && !Terminal(working.job)
      modifies this`working, this`breaker
      ensures InvAt(order, working, k + 1)
      ensures working.job == old(working).job.(recorded := old(working).job.recorded + {stage.name}, retries := 0,
                                               retryTime := old(working).job.retryTime + spent)
      ensures breaker == old(breaker)[stage.name := 0]
    {
      working := working.(job := working.job.(recorded := working.job.recorded + {stage.name}, retries := 0,
                                              retryTime := working.job.retryTime + spent));
      breaker := breaker[stage.name := 0];
      RecordingKeepsInv(order, old(working), k, spent);
      if stage.successEvent.Some? {
        working := working.(outbox := Row(working.outbox, StageDone(stage.name, stage.successEvent.value)));
      }
    }

    /** Run the current stage, and see what it entitles to. */
    method TryStage(stage: Stage, ghost k: nat) returns (end: StageEnd, spent: real)
      requires k < |order| && stage == order[k] && At(working, tries, k)
      requires working.job.status == Running && working.job.retryTime < retryCap && working.job.current == Some(stage.name)
      modifies this`script, this`working, this`committed, this`breaker, this`tries
      ensures OneStage(old(tries), tries, stage.name)
      ensures Tried(end, old(committed), old(tries), old(breaker), stage, old(working).job.retryTime, spent, k)
      ensures Uncancelled(old(script)) && end in {Succeeded, Skipped, Interrupted} ==> Uncancelled(script) && end != Interrupted
      ensures maxAttempts >= 1 && Succeeds(old(script)) ==> end == Succeeded && script == old(script)[1..]
    {
      var slept;
      end, spent, slept := RunStageWithRetries(stage, working.job.retryTime);
      OneStageSince(old(tries), tries, stage.name, {});
      EarnedStays(order, old(tries), tries, {}, maxAttempts, k);
      OutcomeKeepsInv(order, stage, end, old(working), working, k);
      if end == Succeeded || end == Skipped {
        StageEarned(order, old(tries), tries, end, maxAttempts, k);
      }
    }

    /** One turn of the stage loop: run the stage and, unless the call ends here, record it with its event. */
    method PerformStage(stage: Stage, ghost k: nat) returns (end: Option<AdvanceEnd>)
      requires k < |order| && stage == order[k] && At(working, tries, k)
      requires working.job.status == Running && working.job.retryTime < retryCap
      modifies this`script, this`working, this`committed, this`breaker, this`tries
      ensures OneStage(old(tries), tries, stage.name)
      ensures end.None? ==> committed == old(committed) && StageRecorded(old(working), old(tries), old(breaker), stage, k + 1)
      ensures end.Some? ==> At(working, tries, k) && Stopped(end.value, old(committed)) && Because(end.value, old(tries), stage)
      ensures end == Some(BreakerOpen) <==>
                (if stage.name in old(breaker) then old(breaker)[stage.name] else 0) >= breakerThreshold
      ensures maxAttempts >= 1 && BreakerCount(old(breaker), stage.name) < breakerThreshold && Succeeds(old(script)) ==>
                end.None? && script == old(script)[1..]
      ensures Uncancelled(old(script)) ==> end != Some(CancelledInside) && (end.None? ==> Uncancelled(script))
    {
      if BreakerCount(breaker, stage.name) >= breakerThreshold {
        return Some(BreakerOpen);
      }
      working := working.(job := working.job.(current := Some(stage.name)));
      var stageEnd, spent := TryStage(stage, k);
      match stageEnd {
        case Died =>
          end := Some(ProcessDied);
        case Interrupted =>
          end := Some(CancelledInside);
        case Exhausted =>
          end := Some(Returned);
        case Rejected | OverTime =>
          FailingKeepsInv(order, working, k, stage.name);
          var alive := FailJob(stage.name);
          end := Some(if alive then Returned else ProcessDied);
        case Succeeded | Skipped =>
          RecordStage(stage, spent, k);
          end := None;
      }
    }

    /** Announce the packages and the publication, and commit the completed job. */
    method Complete(ghost k: nat) returns (end: AdvanceEnd)
      requires k == |order| && At(working, tries, k) && working.job.status == Running
      modifies this`script, this`working, this`committed
      ensures At(working, tries, k) && working.job.status == Completed && working.job.retryTime == old(working).job.retryTime
      ensures var both := HlsPackage in old(working).job.recorded && DashPackage in old(working).job.recorded;
              working.outbox == Row(if both then Row(old(working).outbox, Packaged) else old(working).outbox, Published)
      ensures committed == working || (committed == old(committed) && end == ProcessDied)
      ensures end in {Returned, ProcessDied} && (end == ProcessDied ==> script == [])
      ensures |old(script)| >= 2 ==> end == Returned && script == old(script)[2..]
    {
      if HlsPackage in working.job.recorded && DashPackage in working.job.recorded {
        working := working.(outbox := Row(working.outbox, Packaged));
      }
      working := working.(job := working.job.(status := Completed, current := None));
      working := working.(outbox := Row(working.outbox, Published));
      var alive := Commit();
      end := if alive then Returned else ProcessDied;
    }

    /** Walk the stages that are not recorded yet. */
    method WalkStages(ghost k0: nat) returns (end: Option<AdvanceEnd>, ghost k: nat, ghost was: History)
      requires Distinct(order) && At(working, tries, k0)
      requires working.job.status == Running && working.job.retryTime < retryCap
      modifies this`script, this`working, this`committed, this`breaker, this`tries
      ensures Since(old(tries), tries, old(working).job.recorded) && k0 <= k && At(working, tries, k)
      ensures end.None? ==>
                k == |order| && committed == old(committed) && working.job.status == Running && working.job.retryTime < retryCap
      ensures end.Some? ==>
                Stopped(end.value, old(committed)) && StoppedAtFirst(end.value, old(tries), old(working).job.recorded, k, was)
      ensures Smooth(order, 0, maxAttempts, old(breaker), breakerThreshold, old(script)) ==> end.None? && |script| >= 4
      ensures Uncancelled(old(script)) ==> end != Some(CancelledInside)
    {
      var done := working.job.recorded;
      var i := 0;
      k, was := k0, tries;
      while i < |order|
        invariant 0 <= i <= |order| && k == Max(i, k0) <= |order|
        invariant At(working, tries, k) && working.job.status == Running && working.job.retryTime < retryCap
        invariant committed == old(committed)
        invariant Since(old(tries), tries, done)
        invariant Smooth(order, 0, maxAttempts, old(breaker), breakerThreshold, old(script)) ==>
                    Smooth(order, i, maxAttempts, breaker, breakerThreshold, script)
        invariant Uncancelled(old(script)) ==> Uncancelled(script)
      {
        RecordedExactly(order, k0, i);
        if order[i].name !in done {
          was := tries;
          end := PerformStage(order[i], k);
          OneStageSince(was, tries, order[i].name, done);
          SinceOn(old(tries), was, tries, done, done);
          if end.Some? {
            return;
          }
          k := k + 1;
        }
        i := i + 1;
      }
      end := None;
    }

    /** The guarded body of `advance`: walk the stages and complete the job. */
    method RunStages(ghost k0: nat) returns (end: AdvanceEnd, ghost k: nat, ghost was: History)
      requires Distinct(order) && At(working, tries, k0)
      requires working.job.status == Running && working.job.retryTime < retryCap
      modifies this`script, this`working, this`committed, this`breaker, this`tries
      ensures Since(old(tries), tries, old(working).job.recorded) && k0 <= k && At(working, tries, k)
      ensures committed == old(committed) || (committed == working && Terminal(working.job))
      ensures working.job.status == Completed ==>
                && working.job.retryTime < retryCap
                && ((end == Returned && committed == working) || (end == ProcessDied && script == []))
      ensures working.job.status != Completed ==>
                Stopped(end, old(committed)) && StoppedAtFirst(end, old(tries), old(working).job.recorded, k, was)
      ensures Smooth(order, 0, maxAttempts, old(breaker), breakerThreshold, old(script)) ==>
                end == Returned && working.job.status == Completed && |script| >= 2
      ensures Uncancelled(old(script)) ==> end != CancelledInside
    {
      var stopped;
      stopped, k, was := WalkStages(k0);
      if stopped.Some? {
        end := stopped.value;
      } else {
        end := Complete(k);
      }
    }

    /** A database that holds either the old row or the open transaction is valid and has made progress. */
    lemma Settled(before: Db, k0: nat, k: nat)
      requires Distinct(order) && At(before, tries, k0) && At(working, tries, k) && k0 <= k && !Terminal(before.job)
      requires || committed == before || committed == working
               || (Terminal(working.job) && exists l :: committed == working.(job := working.job.(leasedAt := l)))
      ensures Valid() && Progress(before, committed)
    {
      assert At(committed, tries, k0) || At(committed, tries, k);
      ProgressBetween(order, before, committed, k0, if committed == before then k0 else k);
    }

    /** What a call does once it has the lease, by what it finds. */
    ghost predicate Proceeded(before: Db, ran: History, closed: map<StageName, nat>, script0: seq<Answer>,
                              admitted: bool, end: AdvanceEnd)
      reads this`committed, this`working, this`tries, this`breaker
    {
      && end in {Returned, LimitReached, BreakerOpen, CancelledInside, ProcessDied}
      // Spent retry time fails the job, full counters turn the call away, and neither runs anything.
      && (before.job.retryTime >= retryCap ==>
            tries == ran && if end == ProcessDied then |script0| < 2 else end == Returned && committed.job.status == Failed)
      && (before.job.retryTime < retryCap && !admitted ==> tries == ran && end in {ProcessDied, LimitReached})
      // An admitted call completes the job, or stops at its first unrecorded stage because of it.
      && (before.job.retryTime < retryCap && admitted && end != ProcessDied ==>
            || (end == Returned && committed.job.status == Completed)
            || exists k: nat, was :: StoppedAtFirst(end, ran, before.job.recorded, k, was))
      && (before.job.retryTime < retryCap && admitted && Smooth(order, 0, maxAttempts, closed, breakerThreshold, script0) ==>
            end == Returned && committed.job.status == Completed)
      && (committed.job.status == Completed ==> committed.job.retryTime < retryCap)
      // Only a cancellation cancels it.
      && (Uncancelled(script0) ==> end != CancelledInside)
      // Whoever lives gives the lease back.
      && (end != ProcessDied ==> committed.job.leasedAt == None)
    }

    /** What the committed row is after each way of ending. */
    ghost predicate RowAfter(end: AdvanceEnd)
      reads this`committed, this`script
    {
      && (end == Returned ==> Terminal(committed.job))
      && (end in {LimitReached, BreakerOpen, CancelledInside} ==>
            committed.job.status == Running && committed.job.leasedAt == None)
      && (end == ProcessDied ==> script == [])
    }

    /** Advance a job whose lease has just been taken, and give the lease back. */
    method Proceed(now: int, admitted: bool, ghost k0: nat) returns (end: AdvanceEnd)
      requires Distinct(order) && At(committed, tries, k0) && !Terminal(committed.job)
      modifies this`script, this`working, this`committed, this`breaker, this`tries
      ensures Valid() && Progress(old(committed), committed)
      ensures Since(old(tries), tries, old(committed).job.recorded)
      ensures Proceeded(old(committed), old(tries), old(breaker), old(script), admitted, end) && RowAfter(end)
    {
      working := committed.(job := committed.job.(leasedAt := Some(now)));
      var alive;
      if working.job.retryTime >= retryCap {
        working := working.(job := working.job.(leasedAt := None));
        var stage := if working.job.current.Some? then working.job.current.value else Unknown;
        FailingKeepsInv(order, working, k0, stage);
        alive := FailJob(stage);
        Settled(old(committed), k0, k0);
        return if alive then Returned else ProcessDied;
      }
      working := working.(job := working.job.(status := Running));
      if !admitted {
        working := working.(job := working.job.(leasedAt := None));
        alive := Commit();
        Settled(old(committed), k0, k0);
        return if alive then LimitReached else ProcessDied;
      }
      ghost var k, was;
      end, k, was := RunStages(k0);
      EarnedStays(order, old(tries), tries, old(committed).job.recorded, maxAttempts, k0);
      Settled(old(committed), k0, k);
      if end != ProcessDied {
        ghost var stopped := working.job.status != Completed;
        working := working.(job := working.job.(leasedAt := None));
        alive := Commit();
        Settled(old(committed), k0, k);
        assert stopped ==> StoppedAtFirst(end, old(tries), old(committed).job.recorded, k, was);
        end := if alive then end else ProcessDied;
      }
    }

    /**
     Advance the job as far as it goes now.  `finally` gives the lease back and commits whatever
     the open transaction holds, so a job that stops half way keeps the stages it has.
     */
    method Advance(now: int, lockFree: bool, admitted: bool) returns (end: AdvanceEnd)
      requires Valid()
      modifies this`script, this`working, this`committed, this`breaker, this`tries
      ensures Valid() && Progress(old(committed), committed)
      // A stage that is recorded in the database does not run again.
      ensures Since(old(tries), tries, old(committed).job.recorded)
      // Finished jobs and jobs that others hold are left alone; all others are worked on.
      ensures old(committed).job.status == Completed ==> end == Returned
      ensures old(committed).job.status == Failed <==> end == AlreadyFailed
      ensures end == LeaseHeld <==>
                var job := old(committed).job;
                && job.status in {Pending, Running}
                && (!lockFree || (job.leasedAt.Some? && now < job.leasedAt.value + 300))
      ensures old(Terminal(committed.job)) || end == LeaseHeld ==> committed == old(committed) && tries == old(tries)
      ensures !old(Terminal(committed.job)) && end != LeaseHeld ==>
                Proceeded(old(committed), old(tries), old(breaker), old(script), admitted, end)
      ensures RowAfter(end)
    {
      ghost var k0: nat :| At(committed, tries, k0);
      if committed.job.status == Completed {
        return Returned;
      }
      if committed.job.status == Failed {
        return AlreadyFailed;
      }
      if Held(committed.job, now, lockFree) {
        return LeaseHeld;
      }
      end := Proceed(now, admitted, k0);
    }

    /** A call by a new worker that finds the row unlocked and room in all counters, and whose awaits all succeed. */
    ghost predicate Undisturbed(call: Call) {
      call.lockFree && call.admitted && call.freshWorker && Smooth(order, 0, maxAttempts, map[], breakerThreshold, call.script)
    }

    /** Any number of calls, by workers that may die and be replaced in between. */
    method Run(calls: seq<Call>)
      requires Valid()
      modifies this`script, this`working, this`committed, this`breaker, this`tries
      ensures Valid() && Progress(old(committed), committed)
      ensures Since(old(tries), tries, old(committed).job.recorded)
      ensures calls == [] ==> committed == old(committed)
      // Whatever happened before, one undisturbed call ends the job, unless a lease is still fresh.
      ensures calls != [] && Undisturbed(calls[|calls| - 1]) ==>
                || committed.job.status in {Completed, Failed}
                || (committed.job.leasedAt.Some? && calls[|calls| - 1].now < committed.job.leasedAt.value + 300)
      decreases |calls|
    {
      if calls != [] {
        script, breaker := calls[0].script, if calls[0].freshWorker then map[] else breaker;
        var end := Advance(calls[0].now, calls[0].lockFree, calls[0].admitted);
        ghost var between, ranBefore := committed, tries;
        Run(calls[1..]);
        assert |calls| > 1 ==> calls[1..][|calls| - 2] == calls[|calls| - 1];
        ProgressOn(old(committed), between, committed);
        SinceOn(old(tries), ranBefore, tries, old(committed).job.recorded, between.job.recorded);
      }
    }
  }
}
