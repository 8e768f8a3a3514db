/**
 Concurrent calls of `advance`.

 Any number of tasks in any number of worker processes share the job rows; the tasks of one
 process also share its counters.  One action is what happens between two awaits of one task, so
 all interleavings, cancellations at any await and crashes of whole processes are runs.
 */
module PipelineConcurrency {
  import opened Prelude

  /** A job, by the columns that never change. */
  datatype Job = Job(id: nat, content: nat, creator: Option<nat>)

  /** One counter: the process-wide one, or the one of a content or of a creator. */
  datatype Slot = Global | OfContent(content: nat) | OfCreator(creator: nat)

  /** Limits; zero or less means none. */
  datatype Limits = Limits(global: int, perContent: int, perCreator: int)

  function Limit(limits: Limits, slot: Slot): int {
    match slot
    case Global => limits.global
    case OfContent(_) => limits.perContent
    case OfCreator(_) => limits.perCreator
  }

  /** The counters a job is counted in. */
  function Slots(job: Job): set<Slot> {
    {Global, OfContent(job.content)} + if job.creator.Some? then {OfCreator(job.creator.value)} else {}
  }

  // ---- The counters of one process -------------------------------------------------

  class ActiveJobs {
    const limits: Limits
    var globalJobs: int
    var perContent: map<nat, int>
    var perCreator: map<nat, int>

    function Count(slot: Slot): int
      reads this
    {
      match slot
      case Global => globalJobs
      case OfContent(c) => if c in perContent then perContent[c] else 0
      case OfCreator(c) => if c in perCreator then perCreator[c] else 0
    }

    constructor (limits: Limits)
      ensures this.limits == limits && forall slot :: Count(slot) == 0
    {
      this.limits := limits;
      globalJobs, perContent, perCreator := 0, map[], map[];
    }

    /** Whether no limit of the job's counters is reached. */
    method WithinLimits(job: Job) returns (ok: bool)
      ensures ok <==> forall slot :: slot in Slots(job) && Limit(limits, slot) > 0 ==> Count(slot) < Limit(limits, slot)
      ensures ok <==>
                && (limits.global > 0 ==> Count(Global) < limits.global)
                && (limits.perContent > 0 ==> Count(OfContent(job.content)) < limits.perContent)
                && (limits.perCreator > 0 && job.creator.Some? ==> Count(OfCreator(job.creator.value)) < limits.perCreator)
    {
      assert Global in Slots(job) && OfContent(job.content) in Slots(job);
      if limits.global > 0 && globalJobs >= limits.global {
        return false;
      }
      if limits.perContent > 0 && (if job.content in perContent then perContent[job.content] else 0) >= limits.perContent {
        assert Count(OfContent(job.content)) >= Limit(limits, OfContent(job.content));
        return false;
      }
      if job.creator.Some? && limits.perCreator > 0 {
        var c := job.creator.value;
        if (if c in perCreator then perCreator[c] else 0) >= limits.perCreator {
          assert OfCreator(c) in Slots(job) && Count(OfCreator(c)) >= Limit(limits, OfCreator(c));
          return false;
        }
      }
      return true;
    }

    method Increment(job: Job)
      modifies this
      ensures forall slot :: Count(slot) == old(Count(slot)) + if slot in Slots(job) then 1 else 0
      ensures forall slot :: slot in Slots(job) <==>
                slot == Global || slot == OfContent(job.content) || (slot.OfCreator? && job.creator == Some(slot.creator))
    {
      globalJobs := globalJobs + 1;
      perContent := perContent[job.content := (if job.content in perContent then perContent[job.content] else 0) + 1];
      if job.creator.Some? {
        var c := job.creator.value;
        perCreator := perCreator[c := (if c in perCreator then perCreator[c] else 0) + 1];
      }
    }

    method Decrement(job: Job)
      modifies this
      ensures forall slot :: Count(slot) == if slot in Slots(job) then Max(0, old(Count(slot)) - 1) else old(Count(slot))
    {
      globalJobs := Max(0, globalJobs - 1);
      perContent := perContent[job.content := Max(0, (if job.content in perContent then perContent[job.content] else 0) - 1)];
      if job.creator.Some? {
        var c := job.creator.value;
        perCreator := perCreator[c := Max(0, (if c in perCreator then perCreator[c] else 0) - 1)];
      }
    }
  }

  // ---- The machine ------------------------------------------------------------------

  datatype Worker = Worker(process: nat, task: nat)

  /** Where a task is; a task that is nowhere in `pcs` is not advancing a job. */
  datatype Pc =
    | Locked(job: Job)                 // holds the row lock, not yet counted
    | Guarded(job: Job, running: bool) // counted, and perhaps inside a stage
    | Sealed(job: Job)                 // committed the job's end, still counted
    | Leaving(job: Job, locked: bool)  // not counted any more, last commit pending

  datatype System = System(
    pcs: map<Worker, Pc>,
    locks: map<Job, Worker>,
    finished: set<Job>,
    counters: map<(nat, Slot), int>)

  datatype Action =
    | Lock(w: Worker, job: Job)
    | Admit(w: Worker)
    | StartStage(w: Worker)
    | EndStage(w: Worker)
    | Seal(w: Worker)
    | Leave(w: Worker)
    | Finish(w: Worker)
    | Cancel(w: Worker)
    | Crash(process: nat)

  const INITIAL := System(map[], map[], {}, map[])

  /** The counter of a slot in one process. */
  function Count(s: System, process: nat, slot: Slot): int {
    if (process, slot) in s.counters then s.counters[(process, slot)] else 0
  }

  function Incremented(counters: map<(nat, Slot), int>, process: nat, slots: set<Slot>): map<(nat, Slot), int> {
    counters
    + map slot | slot in slots ::
        (process, slot) := (if (process, slot) in counters then counters[(process, slot)] else 0) + 1
  }

  function Decremented(counters: map<(nat, Slot), int>, process: nat, slots: set<Slot>): map<(nat, Slot), int> {
    counters
    + map slot | slot in slots ::
        (process, slot) := Max(0, (if (process, slot) in counters then counters[(process, slot)] else 0) - 1)
  }

  predicate Admits(limits: Limits, s: System, process: nat, job: Job) {
    forall slot <- Slots(job) :: Limit(limits, slot) > 0 ==> Count(s, process, slot) < Limit(limits, slot)
  }

  function Unlocked(s: System, w: Worker): System {
    s.(locks := map j | j in s.locks && s.locks[j] != w :: s.locks[j])
  }

  function Gone(s: System, w: Worker): System {
    Unlocked(s, w).(pcs := s.pcs - {w})
  }

  function Entered(s: System, w: Worker): System
    requires w in s.pcs
  {
    s.(counters := Incremented(s.counters, w.process, Slots(s.pcs[w].job)), pcs := s.pcs[w := Guarded(s.pcs[w].job, false)])
  }

  function Left(s: System, w: Worker, locked: bool): System
    requires w in s.pcs
  {
    s.(counters := Decremented(s.counters, w.process, Slots(s.pcs[w].job)), pcs := s.pcs[w := Leaving(s.pcs[w].job, locked)])
  }

  /** One step of the system; an action that does not apply changes nothing. */
  function Next(limits: Limits, s: System, a: Action): System {
    match a
    case Lock(w, job) =>
      // Skips a locked row, and gives up on a finished job.
      if w in s.pcs || job in s.locks || job in s.finished then s
      else s.(locks := s.locks[job := w], pcs := s.pcs[w := Locked(job)])
    case Admit(w) =>
      // The check and the increment have no await between them.
      if !(w in s.pcs && s.pcs[w].Locked?) then s
      else if Admits(limits, s, w.process, s.pcs[w].job) then Entered(s, w)
      else Gone(s, w)
    case StartStage(w) =>
      if w in s.pcs && s.pcs[w].Guarded? then s.(pcs := s.pcs[w := Guarded(s.pcs[w].job, true)]) else s
    case EndStage(w) =>
      if w in s.pcs && s.pcs[w].Guarded? then s.(pcs := s.pcs[w := Guarded(s.pcs[w].job, false)]) else s
    case Seal(w) =>
      if w in s.pcs && s.pcs[w].Guarded? && !s.pcs[w].running then
        Unlocked(s, w).(finished := s.finished + {s.pcs[w].job}, pcs := s.pcs[w := Sealed(s.pcs[w].job)])
      else s
    case Leave(w) =>
      if w in s.pcs && (s.pcs[w].Guarded? || s.pcs[w].Sealed?) then Left(s, w, s.pcs[w].Guarded?) else s
    case Finish(w) =>
      if w in s.pcs && s.pcs[w].Leaving? then Gone(s, w) else s
    case Cancel(w) =>
      // Inside the guarded region `finally` runs first; elsewhere the transaction is rolled back.
      if w !in s.pcs then s
      else if s.pcs[w].Guarded? || s.pcs[w].Sealed? then Left(s, w, s.pcs[w].Guarded?)
      else Gone(s, w)
    case Crash(process) =>
      s.(pcs := map w | w in s.pcs && w.process != process :: s.pcs[w],
         locks := map j | j in s.locks && s.locks[j].process != process :: s.locks[j],
         counters := map k | k in s.counters && k.0 != process :: s.counters[k])
  }

  function Run(limits: Limits, s: System, acts: seq<Action>): System {
    if acts == [] then s else Next(limits, Run(limits, s, acts[..|acts| - 1]), acts[|acts| - 1])
  }

  // ---- The counters of a process, as the machine moves them --------------------------

  predicate InRegion(pc: Pc) {
    pc.Guarded? || pc.Sealed?
  }

  lemma CountEntered(s: System, w: Worker, process: nat, slot: Slot)
    requires w in s.pcs
    ensures Count(Entered(s, w), process, slot)
            == Count(s, process, slot) + if w.process == process && slot in Slots(s.pcs[w].job) then 1 else 0
  {
  }

  lemma CountLeft(s: System, w: Worker, locked: bool, process: nat, slot: Slot)
    requires w in s.pcs
    ensures Count(Left(s, w, locked), process, slot)
            == if w.process == process && slot in Slots(s.pcs[w].job) then Max(0, Count(s, process, slot) - 1)
               else Count(s, process, slot)
  {
  }

  /** The object holds what the machine says are the counters of a process. */
  ghost predicate Mirrors(jobs: ActiveJobs, s: System, process: nat)
    reads jobs
  {
    forall slot :: jobs.Count(slot) == Count(s, process, slot)
  }

  /** Whatever happens anywhere, the checks and updates of the object are the machine's; a crash starts a new object. */
  method Follow(jobs: ActiveJobs, s: System, a: Action, process: nat) returns (now: ActiveJobs)
    requires Mirrors(jobs, s, process)
    modifies jobs
    ensures Mirrors(now, Next(jobs.limits, s, a), process) && now.limits == jobs.limits
    ensures if a == Crash(process) then fresh(now) else now == jobs
  {
    now := jobs;
    match a {
      case Admit(w) =>
        if w.process == process && w in s.pcs && s.pcs[w].Locked? {
          var ok := jobs.WithinLimits(s.pcs[w].job);
          assert ok == Admits(jobs.limits, s, process, s.pcs[w].job);
          if ok {
            jobs.Increment(s.pcs[w].job);
          }
        }
      case Leave(w) =>
        if w.process == process && w in s.pcs && InRegion(s.pcs[w]) {
          jobs.Decrement(s.pcs[w].job);
        }
      case Cancel(w) =>
        if w.process == process && w in s.pcs && InRegion(s.pcs[w]) {
          jobs.Decrement(s.pcs[w].job);
        }
      case Crash(p) =>
        if p == process {
          now := new ActiveJobs(jobs.limits);
        }
      case _ =>
    }
    forall slot ensures now.Count(slot) == Count(Next(jobs.limits, s, a), process, slot) {
      assert old(jobs.Count(slot)) == Count(s, process, slot);
      if a.Admit? && a.w in s.pcs {
        CountEntered(s, a.w, process, slot);
      } else if (a.Leave? || a.Cancel?) && a.w in s.pcs {
        CountLeft(s, a.w, s.pcs[a.w].Guarded?, process, slot);
      }
    }
  }

  // ---- The invariant ----------------------------------------------------------------

  predicate HoldsLock(pc: Pc) {
    pc.Locked? || pc.Guarded? || (pc.Leaving? && pc.locked)
  }

  /** The tasks of a process that are inside the guarded region and counted in a slot. */
  function Inside(pcs: map<Worker, Pc>, process: nat, slot: Slot): set<Worker> {
    set w | w in pcs && w.process == process && InRegion(pcs[w]) && slot in Slots(pcs[w].job)
  }

  /** Every counter of every process is the number of its tasks inside the guarded region. */
  ghost predicate Exact(s: System) {
    forall process, slot :: Count(s, process, slot) == |Inside(s.pcs, process, slot)|
  }

  /** No counter exceeds its positive limit. */
  ghost predicate Bounded(limits: Limits, s: System) {
    forall process, slot :: Limit(limits, slot) > 0 ==> Count(s, process, slot) <= Limit(limits, slot)
  }

  /** Who is meant to hold a row lock does, nobody else does, and finished jobs are not locked. */
  ghost predicate LocksMatch(s: System) {
    && (forall w :: w in s.pcs && HoldsLock(s.pcs[w]) ==> s.pcs[w].job in s.locks && s.locks[s.pcs[w].job] == w)
    && (forall j :: j in s.locks ==>
          s.locks[j] in s.pcs && HoldsLock(s.pcs[s.locks[j]]) && s.pcs[s.locks[j]].job == j && j !in s.finished)
    && (forall w :: w in s.pcs && s.pcs[w].Sealed? ==> s.pcs[w].job in s.finished)
  }

  ghost predicate Inv(limits: Limits, s: System) {
    Exact(s) && Bounded(limits, s) && LocksMatch(s)
  }

  /** Moving one task changes one slot's crowd by at most that task. */
  lemma InsideMoves(pcs: map<Worker, Pc>, w: Worker, pc: Pc, process: nat, slot: Slot)
    ensures Inside(pcs[w := pc], process, slot)
            == Inside(pcs, process, slot) - {w}
               + if w.process == process && InRegion(pc) && slot in Slots(pc.job) then {w} else {}
  {
  }

  /** A task that is counted is counted at least once, so the clamp at zero is idle. */
  lemma InsideCounts(s: System, w: Worker, slot: Slot)
    requires Exact(s) && w in s.pcs && InRegion(s.pcs[w]) && slot in Slots(s.pcs[w].job)
    ensures Count(s, w.process, slot) >= 1
  {
    var crowd := Inside(s.pcs, w.process, slot);
    assert w in crowd;
    assert crowd == (crowd - {w}) + {w};
    assert |crowd| == |crowd - {w}| + 1;
  }

  lemma CrowdMoves(crowd: set<Worker>, moved: set<Worker>, w: Worker, isIn: bool)
    requires moved == crowd - {w} + if isIn then {w} else {}
    ensures |moved| == |crowd| - (if w in crowd then 1 else 0) + if isIn then 1 else 0
  {
    if w in crowd {
      assert crowd == (crowd - {w}) + {w};
    } else {
      assert crowd - {w} == crowd;
    }
  }

  lemma EnterKeepsExact(s: System, w: Worker)
    requires Exact(s) && w in s.pcs && s.pcs[w].Locked?
    ensures Exact(Entered(s, w))
  {
    var pc := Guarded(s.pcs[w].job, false);
    forall process, slot ensures Count(Entered(s, w), process, slot) == |Inside(s.pcs[w := pc], process, slot)| {
      CountEntered(s, w, process, slot);
      InsideMoves(s.pcs, w, pc, process, slot);
      CrowdMoves(Inside(s.pcs, process, slot), Inside(s.pcs[w := pc], process, slot), w,
                 w.process == process && slot in Slots(pc.job));
    }
  }

  lemma LeaveKeepsExact(s: System, w: Worker, locked: bool)
    requires Exact(s) && w in s.pcs && InRegion(s.pcs[w])
    ensures Exact(Left(s, w, locked))
  {
    var pc := Leaving(s.pcs[w].job, locked);
    forall process, slot ensures Count(Left(s, w, locked), process, slot) == |Inside(s.pcs[w := pc], process, slot)| {
      CountLeft(s, w, locked, process, slot);
      InsideMoves(s.pcs, w, pc, process, slot);
      CrowdMoves(Inside(s.pcs, process, slot), Inside(s.pcs[w := pc], process, slot), w, false);
      if w.process == process && slot in Slots(s.pcs[w].job) {
        InsideCounts(s, w, slot);
      }
    }
  }

  /** A move that neither enters nor leaves the region changes no crowd. */
  lemma StayKeepsExact(s: System, t: System, w: Worker)
    requires Exact(s) && t.counters == s.counters
    requires || (&& w in s.pcs && w in t.pcs && InRegion(s.pcs[w]) && InRegion(t.pcs[w])
                 && t.pcs == s.pcs[w := t.pcs[w]] && t.pcs[w].job == s.pcs[w].job)
             || (&& (w in s.pcs ==> !InRegion(s.pcs[w]))
                 && (t.pcs == s.pcs - {w} || (w in t.pcs && t.pcs == s.pcs[w := t.pcs[w]] && !InRegion(t.pcs[w]))))
    ensures Exact(t)
  {
    forall process, slot ensures Count(t, process, slot) == |Inside(t.pcs, process, slot)| {
      assert Inside(t.pcs, process, slot) == Inside(s.pcs, process, slot);
    }
  }

  lemma CrashKeepsExact(limits: Limits, s: System, process: nat)
    requires Exact(s)
    ensures Exact(Next(limits, s, Crash(process)))
  {
    var t := Next(limits, s, Crash(process));
    forall p, slot ensures Count(t, p, slot) == |Inside(t.pcs, p, slot)| {
      assert Inside(t.pcs, p, slot) == if p == process then {} else Inside(s.pcs, p, slot);
    }
  }

  lemma NextKeepsExact(limits: Limits, s: System, a: Action)
    requires Exact(s)
    ensures Exact(Next(limits, s, a))
  {
    var t := Next(limits, s, a);
    if t != s {
      match a
      case Lock(w, _) => StayKeepsExact(s, t, w);
      case Admit(w) =>
        if Admits(limits, s, w.process, s.pcs[w].job) {
          EnterKeepsExact(s, w);
        } else {
          StayKeepsExact(s, t, w);
        }
      case StartStage(w) => StayKeepsExact(s, t, w);
      case EndStage(w) => StayKeepsExact(s, t, w);
      case Seal(w) => StayKeepsExact(s, t, w);
      case Leave(w) => LeaveKeepsExact(s, w, s.pcs[w].Guarded?);
      case Finish(w) => StayKeepsExact(s, t, w);
      case Cancel(w) =>
        if InRegion(s.pcs[w]) {
          LeaveKeepsExact(s, w, s.pcs[w].Guarded?);
        } else {
          StayKeepsExact(s, t, w);
        }
      case Crash(process) => CrashKeepsExact(limits, s, process);
    }
  }

  lemma LeaveKeepsBounded(limits: Limits, s: System, w: Worker, locked: bool)
    requires Bounded(limits, s) && w in s.pcs
    ensures Bounded(limits, Left(s, w, locked))
  {
    forall process, slot | Limit(limits, slot) > 0 ensures Count(Left(s, w, locked), process, slot) <= Limit(limits, slot) {
      CountLeft(s, w, locked, process, slot);
    }
  }

  lemma NextKeepsBounded(limits: Limits, s: System, a: Action)
    requires Bounded(limits, s)
    ensures Bounded(limits, Next(limits, s, a))
  {
    var t := Next(limits, s, a);
    if t.counters == s.counters {
      forall process, slot ensures Count(t, process, slot) == Count(s, process, slot) {
      }
    } else {
      match a
      case Admit(w) =>
        forall process, slot | Limit(limits, slot) > 0 ensures Count(t, process, slot) <= Limit(limits, slot) {
          CountEntered(s, w, process, slot);
        }
      case Leave(w) =>
        LeaveKeepsBounded(limits, s, w, s.pcs[w].Guarded?);
      case Cancel(w) =>
        LeaveKeepsBounded(limits, s, w, s.pcs[w].Guarded?);
      case Crash(process) =>
        forall p, slot ensures Count(t, p, slot) == if p == process then 0 else Count(s, p, slot) {
        }
    }
  }

  /** Moving a task between two places that agree on the lock and the end of the job. */
  lemma MoveKeepsLocks(s: System, t: System, w: Worker)
    requires LocksMatch(s) && w in s.pcs && w in t.pcs && t.pcs == s.pcs[w := t.pcs[w]]
    requires t.locks == s.locks && t.finished == s.finished && t.pcs[w].job == s.pcs[w].job
    requires HoldsLock(t.pcs[w]) == HoldsLock(s.pcs[w]) && !t.pcs[w].Sealed?
    ensures LocksMatch(t)
  {
  }

  lemma GoneKeepsLocks(s: System, w: Worker)
    requires LocksMatch(s)
    ensures LocksMatch(Gone(s, w))
  {
  }

  lemma SealKeepsLocks(limits: Limits, s: System, w: Worker)
    requires LocksMatch(s) && w in s.pcs && s.pcs[w].Guarded?
    ensures LocksMatch(Next(limits, s, Seal(w)))
  {
  }

  lemma LockKeepsLocks(limits: Limits, s: System, w: Worker, job: Job)
    requires LocksMatch(s)
    ensures LocksMatch(Next(limits, s, Lock(w, job)))
  {
  }

  lemma CrashKeepsLocks(limits: Limits, s: System, process: nat)
    requires LocksMatch(s)
    ensures LocksMatch(Next(limits, s, Crash(process)))
  {
  }

  lemma NextKeepsLocks(limits: Limits, s: System, a: Action)
    requires LocksMatch(s)
    ensures LocksMatch(Next(limits, s, a))
  {
    var t := Next(limits, s, a);
    if t != s {
      match a
      case Lock(w, job) => LockKeepsLocks(limits, s, w, job);
      case Seal(w) => SealKeepsLocks(limits, s, w);
      case Crash(process) => CrashKeepsLocks(limits, s, process);
      case Finish(w) => GoneKeepsLocks(s, w);
      case StartStage(w) => MoveKeepsLocks(s, t, w);
      case EndStage(w) => MoveKeepsLocks(s, t, w);
      case Leave(w) => MoveKeepsLocks(s, t, w);
      case Admit(w) =>
        if Admits(limits, s, w.process, s.pcs[w].job) {
          MoveKeepsLocks(s, t, w);
        } else {
          GoneKeepsLocks(s, w);
        }
      case Cancel(w) =>
        if InRegion(s.pcs[w]) {
          MoveKeepsLocks(s, t, w);
        } else {
          GoneKeepsLocks(s, w);
        }
    }
  }

  lemma {:induction false} RunKeepsInv(limits: Limits, acts: seq<Action>)
    ensures Inv(limits, Run(limits, INITIAL, acts))
  {
    if acts != [] {
      var before := acts[..|acts| - 1];
      RunKeepsInv(limits, before);
      var s, a := Run(limits, INITIAL, before), acts[|acts| - 1];
      NextKeepsExact(limits, s, a);
      NextKeepsBounded(limits, s, a);
      NextKeepsLocks(limits, s, a);
    }
  }

  // ---- Main results -------------------------------------------------------------------

  /** At every moment each counter is the number of tasks it should count, and no positive limit is exceeded. */
  lemma CountersAreExact(limits: Limits, acts: seq<Action>)
    ensures Exact(Run(limits, INITIAL, acts)) && Bounded(limits, Run(limits, INITIAL, acts))
  {
    RunKeepsInv(limits, acts);
  }

  /** The counter object of a process, through any run, counts the tasks of the process inside the guarded region. */
  method Track(limits: Limits, acts: seq<Action>, process: nat) returns (jobs: ActiveJobs)
    ensures fresh(jobs) && jobs.limits == limits
    ensures var s := Run(limits, INITIAL, acts);
            Mirrors(jobs, s, process) && forall slot :: jobs.Count(slot) == |Inside(s.pcs, process, slot)|
    decreases |acts|
  {
    if acts == [] {
      jobs := new ActiveJobs(limits);
    } else {
      var before := acts[..|acts| - 1];
      jobs := Track(limits, before, process);
      jobs := Follow(jobs, Run(limits, INITIAL, before), acts[|acts| - 1], process);
    }
    CountersAreExact(limits, acts);
  }

  /** Whoever gives its slots back finds them at least one, so the clamp at zero never acts. */
  lemma ClampIsIdle(limits: Limits, acts: seq<Action>, w: Worker, slot: Slot)
    ensures var s := Run(limits, INITIAL, acts);
            w in s.pcs && InRegion(s.pcs[w]) && slot in Slots(s.pcs[w].job) ==> Count(s, w.process, slot) >= 1
  {
    RunKeepsInv(limits, acts);
    var s := Run(limits, INITIAL, acts);
    if w in s.pcs && InRegion(s.pcs[w]) && slot in Slots(s.pcs[w].job) {
      InsideCounts(s, w, slot);
    }
  }

  /** No two tasks of any processes hold the lock of the same job, let alone run a stage of it. */
  lemma OneWorkerPerJob(limits: Limits, acts: seq<Action>, v: Worker, w: Worker)
    ensures var s := Run(limits, INITIAL, acts);
            v in s.pcs && w in s.pcs && HoldsLock(s.pcs[v]) && HoldsLock(s.pcs[w]) && s.pcs[v].job == s.pcs[w].job ==> v == w
  {
    RunKeepsInv(limits, acts);
  }

  /** No task runs a stage of a job whose end is committed. */
  lemma FinishedIsLeftAlone(limits: Limits, acts: seq<Action>, w: Worker)
    ensures var s := Run(limits, INITIAL, acts);
            w in s.pcs && s.pcs[w].Guarded? ==> s.pcs[w].job !in s.finished
  {
    RunKeepsInv(limits, acts);
  }

  /** The end of a job is final. */
  lemma {:induction false} FinishedStays(limits: Limits, s: System, acts: seq<Action>)
    ensures s.finished <= Run(limits, s, acts).finished
  {
    if acts != [] {
      FinishedStays(limits, s, acts[..|acts| - 1]);
    }
  }

  /** The content counters of one process below a bound, added up. */
  function ContentTotal(s: System, process: nat, bound: nat): int {
    if bound == 0 then 0 else ContentTotal(s, process, bound - 1) + Count(s, process, OfContent(bound - 1))
  }

  function InsideBelow(pcs: map<Worker, Pc>, process: nat, bound: nat): set<Worker> {
    set w | w in pcs && w.process == process && InRegion(pcs[w]) && pcs[w].job.content < bound
  }

  lemma OneMoreContent(pcs: map<Worker, Pc>, process: nat, content: nat)
    ensures |InsideBelow(pcs, process, content + 1)|
            == |InsideBelow(pcs, process, content)| + |Inside(pcs, process, OfContent(content))|
  {
    var below, here := InsideBelow(pcs, process, content), Inside(pcs, process, OfContent(content));
    forall w | w in pcs ensures OfContent(content) in Slots(pcs[w].job) <==> pcs[w].job.content == content {
    }
    assert InsideBelow(pcs, process, content + 1) == below + here;
    assert below * here == {};
  }

  lemma {:induction false} ContentTotalCounts(s: System, process: nat, bound: nat)
    requires Exact(s)
    ensures ContentTotal(s, process, bound) == |InsideBelow(s.pcs, process, bound)|
  {
    if bound == 0 {
      assert InsideBelow(s.pcs, process, 0) == {};
    } else {
      ContentTotalCounts(s, process, bound - 1);
      OneMoreContent(s.pcs, process, bound - 1);
    }
  }

  /** The global counter is the sum of the content counters, once the sum reaches every content in the region. */
  lemma GlobalIsSumOfContents(limits: Limits, acts: seq<Action>, process: nat, bound: nat)
    ensures var s := Run(limits, INITIAL, acts);
            (forall w :: w in s.pcs && InRegion(s.pcs[w]) ==> s.pcs[w].job.content < bound) ==>
              Count(s, process, Global) == ContentTotal(s, process, bound)
  {
    RunKeepsInv(limits, acts);
    var s := Run(limits, INITIAL, acts);
    if forall w :: w in s.pcs && InRegion(s.pcs[w]) ==> s.pcs[w].job.content < bound {
      ContentTotalCounts(s, process, bound);
      assert Inside(s.pcs, process, Global) == InsideBelow(s.pcs, process, bound);
    }
  }
}
