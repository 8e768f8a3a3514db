/**
 The durable inbox for Stripe webhook events: one row per event id, claimed by
 an INSERT that the unique constraint arbitrates, reclaimed by a guarded UPDATE.

 `WebhookEventRepository` is the repository run alone.  `Inbox` is the same code
 run by any number of workers: every SQL statement is one step, a statement's
 row version stays private until its transaction commits, a writer keeps the
 row locked until then, and a worker may die before any step.
 */
module WebhookInbox {
  import opened Prelude

  type Worker = nat

  datatype Status = Processing | Processed | Failed

  /** A `stripe_webhook_events` row.  Times are in seconds. */
  datatype Row = Row(status: Status, attempts: nat, claimedAt: Option<int>, lastError: Option<string>)

  const MAX_ERROR_LENGTH := 500

  function Clip(error: string): string {
    if |error| <= MAX_ERROR_LENGTH then error else error[..MAX_ERROR_LENGTH]
  }

  /** May a claim made at `now` take over an existing row? */
  predicate Reclaimable(r: Row, now: int, staleAfter: int, maxAttempts: int) {
    || (r.status == Failed && r.attempts < maxAttempts)
    || (r.status == Processing && (r.claimedAt.None? || now - r.claimedAt.value >= staleAfter))
  }

  /** The row a successful claim leaves behind. */
  function Taken(row: Option<Row>, now: int): Row {
    Row(Processing, if row.None? then 1 else row.value.attempts + 1, Some(now), None)
  }

  /** Does a claim that nothing interferes with succeed? */
  predicate Claimable(row: Option<Row>, now: int, staleAfter: int, maxAttempts: int) {
    row.None? || Reclaimable(row.value, now, staleAfter, maxAttempts)
  }

  class WebhookEventRepository {
    /** The row of one event id, if there is one. */
    var row: Option<Row>

    constructor ()
      ensures row == None
    {
      row := None;
    }

    method Claim(now: int, staleAfter: int, maxAttempts: int) returns (won: bool)
      modifies this
      // A claim wins an absent row, a failed one with attempts left, and a stale one; and nothing else.
      ensures won <==>
                match old(row)
                case None => true
                case Some(r) =>
                  || (r.status == Failed && r.attempts < maxAttempts)
                  || (r.status == Processing && (r.claimedAt.None? || r.claimedAt.value + staleAfter <= now))
      ensures won ==> row == Some(Row(Processing, if old(row).None? then 1 else old(row).value.attempts + 1, Some(now), None))
      ensures !won ==> row == old(row)
      ensures won <==> Claimable(old(row), now, staleAfter, maxAttempts)
      ensures won ==> row == Some(Taken(old(row), now))
    {
      if row.None? {
        row := Some(Row(Processing, 1, Some(now), None));
        return true;
      }
      var existing := row.value;
      if existing.status == Processed {
        return false;
      }
      var reclaimable := false;
      if existing.status == Failed && existing.attempts < maxAttempts {
        reclaimable := true;
      } else if existing.status == Processing
                && (existing.claimedAt.None? || now - existing.claimedAt.value >= staleAfter) {
        reclaimable := true;
      }
      if !reclaimable {
        return false;
      }
      won := row.value.status == existing.status && row.value.attempts == existing.attempts;
      if won {
        row := Some(Row(Processing, existing.attempts + 1, Some(now), None));
      }
    }

    method Complete() returns (changed: bool)
      modifies this
      ensures changed <==> old(row).Some? && old(row).value.status == Processing
      ensures row == if changed then Some(old(row).value.(status := Processed)) else old(row)
    {
      changed := row.Some? && row.value.status == Processing;
      if changed {
        row := Some(row.value.(status := Processed));
      }
    }

    method Fail(error: string) returns (changed: bool)
      modifies this
      ensures changed <==> old(row).Some? && old(row).value.status == Processing
      ensures row == if changed then Some(old(row).value.(status := Failed, lastError := Some(Clip(error)))) else old(row)
      ensures changed ==> row.value.lastError == Some(if |error| <= 500 then error else error[..500])
    {
      changed := row.Some? && row.value.status == Processing;
      if changed {
        row := Some(row.value.(status := Failed, lastError := Some(Clip(error))));
      }
    }
  }

  // ---- Any number of workers ------------------------------------------------

  /** What a committed transaction did to the row. */
  datatype Entry =
    | Claimed(worker: Worker, number: nat, at: int, staleAfter: int, maxAttempts: int)
    | Completed
    | Errored(error: string)

  /** Where a worker is in the webhook route. */
  datatype Pc =
    | Idle
    | Rereading(staleAfter: int, maxAttempts: int)
    | Guarding(existing: Row, now: int, staleAfter: int, maxAttempts: int)
    | Writing(version: Row, entry: Entry)
    | Handling(claim: nat)

  /** `row` and `log` are committed; `writer` is the worker that holds the row lock. */
  datatype Inbox = Inbox(row: Option<Row>, writer: Option<Worker>, pcs: map<Worker, Pc>, log: seq<Entry>)

  datatype Action =
    | Insert(w: Worker, now: int, staleAfter: int, maxAttempts: int)
    | Reread(w: Worker, now: int)
    | Reclaim(w: Worker)
    | Complete(w: Worker)
    | Fail(w: Worker, error: string)
    | Commit(w: Worker)
    | Crash(w: Worker)

  const INITIAL := Inbox(None, None, map[], [])

  function PcOf(s: Inbox, w: Worker): Pc {
    if w in s.pcs then s.pcs[w] else Idle
  }

  function Goto(s: Inbox, w: Worker, pc: Pc): Inbox {
    s.(pcs := s.pcs[w := pc])
  }

  /** Worker w writes a row version that the entry describes, and holds the row. */
  function Write(s: Inbox, w: Worker, version: Row, entry: Entry): Inbox {
    Goto(s, w, Writing(version, entry)).(writer := Some(w))
  }

  /** One step.  A step that the worker cannot take, or that waits for the row lock, changes nothing. */
  function Next(s: Inbox, a: Action): Inbox {
    var pc := PcOf(s, a.w);
    match a
    case Insert(w, now, staleAfter, maxAttempts) =>
      if pc != Idle then s
      else if s.row.Some? then Goto(s, w, Rereading(staleAfter, maxAttempts))
      else if s.writer.Some? then s
      else
        var r := Row(Processing, 1, Some(now), None);
        Write(s, w, r, Claimed(w, 1, now, staleAfter, maxAttempts))
    case Reread(w, now) =>
      if !pc.Rereading? then s
      else if s.row.None? || !Reclaimable(s.row.value, now, pc.staleAfter, pc.maxAttempts) then Goto(s, w, Idle)
      else Goto(s, w, Guarding(s.row.value, now, pc.staleAfter, pc.maxAttempts))
    case Reclaim(w) =>
      if !pc.Guarding? || s.writer.Some? then s
      else if s.row.None? || s.row.value.status != pc.existing.status || s.row.value.attempts != pc.existing.attempts then
        Goto(s, w, Idle)
      else
        var n := pc.existing.attempts + 1;
        Write(s, w, Row(Processing, n, Some(pc.now), None), Claimed(w, n, pc.now, pc.staleAfter, pc.maxAttempts))
    case Complete(w) =>
      if !pc.Handling? || s.writer.Some? then s
      else if s.row.None? || s.row.value.status != Processing then Goto(s, w, Idle)
      else Write(s, w, s.row.value.(status := Processed), Completed)
    case Fail(w, error) =>
      if !pc.Handling? || s.writer.Some? then s
      else if s.row.None? || s.row.value.status != Processing then Goto(s, w, Idle)
      else Write(s, w, s.row.value.(status := Failed, lastError := Some(Clip(error))), Errored(error))
    case Commit(w) =>
      if !pc.Writing? then s
      else
        Inbox(Some(pc.version), None, s.pcs[w := if pc.entry.Claimed? then Handling(pc.entry.number) else Idle],
              s.log + [pc.entry])
    case Crash(w) =>
      Goto(s, w, Idle).(writer := if s.writer == Some(w) then None else s.writer)
  }

  function Run(s: Inbox, acts: seq<Action>): Inbox
    decreases |acts|
  {
    if acts == [] then s else Run(Next(s, acts[0]), acts[1..])
  }

  // ---- The log explains the row --------------------------------------------

  /** May a transaction with this entry commit on this row? */
  predicate Allowed(row: Option<Row>, e: Entry) {
    match e
    case Claimed(_, n, at, staleAfter, maxAttempts) =>
      && n == Taken(row, at).attempts
      && Claimable(row, at, staleAfter, maxAttempts)
    case _ => row.Some? && row.value.status == Processing
  }

  function After(row: Option<Row>, e: Entry): Row
    requires Allowed(row, e)
  {
    match e
    case Claimed(_, n, at, _, _) => Row(Processing, n, Some(at), None)
    case Completed => row.value.(status := Processed)
    case Errored(error) => row.value.(status := Failed, lastError := Some(Clip(error)))
  }

  predicate LogOk(log: seq<Entry>)
    decreases |log|, 0
  {
    log == [] || (LogOk(log[..|log| - 1]) && Allowed(RowOf(log[..|log| - 1]), log[|log| - 1]))
  }

  /** The row that replaying a log produces. */
  function RowOf(log: seq<Entry>): Option<Row>
    requires LogOk(log)
    decreases |log|, 1
  {
    if log == [] then None else Some(After(RowOf(log[..|log| - 1]), log[|log| - 1]))
  }

  function Claims(log: seq<Entry>): nat {
    if log == [] then 0
    else Claims(log[..|log| - 1]) + if log[|log| - 1].Claimed? then 1 else 0
  }

  /** Claim number n. */
  function ClaimNo(log: seq<Entry>, n: nat): (r: Option<Entry>)
    ensures r.Some? ==> r.value in log && r.value.Claimed? && r.value.number == n
  {
    if log == [] then None
    else
      var e := log[|log| - 1];
      if e.Claimed? && e.number == n then Some(e) else ClaimNo(log[..|log| - 1], n)
  }

  predicate ClaimedAt(log: seq<Entry>, n: nat, at: Option<int>) {
    ClaimNo(log, n).Some? && at == Some(ClaimNo(log, n).value.at)
  }

  lemma {:induction false} PrefixOk(log: seq<Entry>, k: nat)
    requires LogOk(log) && k <= |log|
    ensures LogOk(log[..k])
    ensures k < |log| ==> Allowed(RowOf(log[..k]), log[k])
  {
    if k == |log| {
      assert log[..k] == log;
    } else if k < |log| - 1 {
      PrefixOk(log[..|log| - 1], k);
      assert log[..|log| - 1][..k] == log[..k];
    }
  }

  /** `attempts` counts the claims, and it fixes `claimed_at`: this is why the guard on attempts is free of ABA. */
  lemma {:induction false} AttemptsFixClaimTime(log: seq<Entry>)
    requires LogOk(log)
    ensures RowOf(log).None? <==> Claims(log) == 0
    ensures RowOf(log).Some? ==>
              var r := RowOf(log).value;
              r.attempts == Claims(log) && ClaimedAt(log, r.attempts, r.claimedAt)
  {
    if log != [] {
      AttemptsFixClaimTime(log[..|log| - 1]);
    }
  }

  // ---- The invariant ---------------------------------------------------------

  /** What a worker remembers about the row is still justified by the log. */
  predicate PcOk(s: Inbox, w: Worker, pc: Pc)
    requires LogOk(s.log)
  {
    match pc
    case Guarding(r, now, staleAfter, maxAttempts) =>
      && Reclaimable(r, now, staleAfter, maxAttempts)
      && r.attempts <= Claims(s.log) && ClaimedAt(s.log, r.attempts, r.claimedAt)
    case Handling(n) =>
      n <= Claims(s.log) && ClaimNo(s.log, n).Some? && ClaimNo(s.log, n).value.worker == w
    case Writing(version, entry) =>
      s.writer == Some(w) && Allowed(s.row, entry) && (entry.Claimed? ==> entry.worker == w) && version == After(s.row, entry)
    case _ => true
  }

  ghost predicate Inv(s: Inbox) {
    && LogOk(s.log)
    && s.row == RowOf(s.log)
    && (s.writer.Some? ==> s.writer.value in s.pcs && s.pcs[s.writer.value].Writing?)
    && forall w :: w in s.pcs ==> PcOk(s, w, s.pcs[w])
  }

  lemma CommitKeepsInv(s: Inbox, w: Worker)
    requires Inv(s) && PcOf(s, w).Writing?
    ensures Inv(Next(s, Commit(w)))
  {
    var t := Next(s, Commit(w));
    assert t.log[..|t.log| - 1] == s.log;
    AttemptsFixClaimTime(s.log);
    AttemptsFixClaimTime(t.log);
  }

  lemma ReclaimKeepsInv(s: Inbox, w: Worker)
    requires Inv(s) && PcOf(s, w).Guarding?
    ensures Inv(Next(s, Reclaim(w)))
  {
    AttemptsFixClaimTime(s.log);
  }

  lemma FinishKeepsInv(s: Inbox, a: Action)
    requires Inv(s) && (a.Complete? || a.Fail?)
    ensures Inv(Next(s, a))
  {
  }

  lemma NextKeepsInv(s: Inbox, a: Action)
    requires Inv(s)
    ensures Inv(Next(s, a))
  {
    if a.Complete? || a.Fail? {
      FinishKeepsInv(s, a);
    } else if a.Commit? {
      if PcOf(s, a.w).Writing? {
        CommitKeepsInv(s, a.w);
      }
    } else if a.Reclaim? {
      if PcOf(s, a.w).Guarding? {
        ReclaimKeepsInv(s, a.w);
      }
    } else {
      AttemptsFixClaimTime(s.log);
    }
  }

  /** A processed row stays locked out of every write. */
  lemma ProcessedIsNeverWritten(s: Inbox, a: Action)
    requires Inv(s) && s.row.Some? && s.row.value.status == Processed
    ensures Next(s, a).row == s.row && Next(s, a).log == s.log
  {
    if a.Commit? {
      assert PcOf(s, a.w).Writing? ==> Allowed(s.row, PcOf(s, a.w).entry);
    }
  }

  /** The invariant lasts, and history is only ever added to. */
  lemma {:induction false} RunKeepsInv(s: Inbox, acts: seq<Action>)
    requires Inv(s)
    ensures Inv(Run(s, acts)) && s.log <= Run(s, acts).log
    decreases |acts|
  {
    if acts != [] {
      NextKeepsInv(s, acts[0]);
      RunKeepsInv(Next(s, acts[0]), acts[1..]);
    }
  }

  // ---- What every run guarantees ---------------------------------------------

  /** Claims commit as number 1, 2, 3, ... in this order. */
  ghost predicate ClaimsAreNumbered(log: seq<Entry>) {
    forall i :: 0 <= i < |log| && log[i].Claimed? ==> log[i].number == Claims(log[..i]) + 1
  }

  /** log[j] is the next claim after the claim log[i]. */
  ghost predicate NextClaim(log: seq<Entry>, i: int, j: int) {
    && 0 <= i < j < |log| && log[i].Claimed? && log[j].Claimed?
    && forall k :: i < k < j ==> !log[k].Claimed?
  }

  ghost predicate FailedBetween(log: seq<Entry>, i: int, j: int)
    requires 0 <= i <= j <= |log|
  {
    exists k :: i < k < j && log[k].Errored?
  }

  /** Without a failure in between, the next claim is a stale takeover. */
  ghost predicate LeasesAreRespected(log: seq<Entry>) {
    forall i, j :: NextClaim(log, i, j) && !FailedBetween(log, i, j) ==>
      log[j].at - log[i].at >= log[j].staleAfter
  }

  /** After a failure, the next claim stays within its own attempt bound. */
  ghost predicate RetriesAreBounded(log: seq<Entry>) {
    forall i, j :: NextClaim(log, i, j) && FailedBetween(log, i, j) ==>
      log[j].number <= log[j].maxAttempts
  }

  ghost predicate CompletionIsLast(log: seq<Entry>) {
    forall i :: 0 <= i < |log| && log[i].Completed? ==> i == |log| - 1
  }

  lemma {:induction false} OkLogIsNumbered(log: seq<Entry>)
    requires LogOk(log)
    ensures ClaimsAreNumbered(log)
  {
    forall i | 0 <= i < |log| && log[i].Claimed? ensures log[i].number == Claims(log[..i]) + 1 {
      PrefixOk(log, i);
      AttemptsFixClaimTime(log[..i]);
    }
  }

  lemma {:induction false} OkLogCompletesLast(log: seq<Entry>)
    requires LogOk(log)
    ensures CompletionIsLast(log)
  {
    forall i | 0 <= i < |log| && log[i].Completed? ensures i == |log| - 1 {
      if i + 1 < |log| {
        PrefixOk(log, i + 1);
        assert false;
      }
    }
  }

  /** Between consecutive claims there is nothing, or a single failure. */
  lemma {:induction false} ConsecutiveClaims(log: seq<Entry>, i: int, j: int)
    requires LogOk(log) && NextClaim(log, i, j)
    ensures FailedBetween(log, i, j) ==> log[j].number <= log[j].maxAttempts
    ensures !FailedBetween(log, i, j) ==> log[j].at - log[i].at >= log[j].staleAfter
  {
    OkLogCompletesLast(log);
    PrefixOk(log, i + 1);
    assert log[..i + 1][..i] == log[..i];
    if j > i + 1 {
      assert log[i + 1].Errored?;
      PrefixOk(log, i + 2);
      assert log[..i + 2][..i + 1] == log[..i + 1];
    }
  }

  /** Every interleaving of any number of workers, crashes included. */
  lemma Arbitration(acts: seq<Action>)
    ensures var log := Run(INITIAL, acts).log;
            && ClaimsAreNumbered(log)
            && LeasesAreRespected(log)
            && RetriesAreBounded(log)
            && CompletionIsLast(log)
  {
    RunKeepsInv(INITIAL, acts);
    var log := Run(INITIAL, acts).log;
    OkLogIsNumbered(log);
    OkLogCompletesLast(log);
    forall i, j | NextClaim(log, i, j)
      ensures FailedBetween(log, i, j) ==> log[j].number <= log[j].maxAttempts
      ensures !FailedBetween(log, i, j) ==> log[j].at - log[i].at >= log[j].staleAfter
    {
      ConsecutiveClaims(log, i, j);
    }
  }

  /** Whoever runs side effects holds a committed claim, and no two workers hold the same one. */
  lemma HandlersHoldDistinctClaims(acts: seq<Action>, w: Worker, v: Worker)
    ensures var s := Run(INITIAL, acts);
            PcOf(s, w).Handling? ==>
              && 1 <= PcOf(s, w).claim <= Claims(s.log)
              && (exists e <- s.log :: e.Claimed? && e.worker == w && e.number == PcOf(s, w).claim)
              && (PcOf(s, v).Handling? && v != w ==> PcOf(s, v).claim != PcOf(s, w).claim)
  {
    RunKeepsInv(INITIAL, acts);
    var s := Run(INITIAL, acts);
    if PcOf(s, w).Handling? {
      var e := ClaimNo(s.log, PcOf(s, w).claim).value;
      OkLogIsNumbered(s.log);
      var k :| 0 <= k < |s.log| && s.log[k] == e;
    }
  }

  /** The committed row is exactly what the committed log explains. */
  lemma RowFollowsLog(acts: seq<Action>)
    ensures var s := Run(INITIAL, acts);
            && (s.row.None? <==> Claims(s.log) == 0)
            && (s.row.Some? ==> s.row.value.attempts == Claims(s.log)
                                && ClaimedAt(s.log, Claims(s.log), s.row.value.claimedAt))
  {
    RunKeepsInv(INITIAL, acts);
    AttemptsFixClaimTime(Run(INITIAL, acts).log);
  }

  /** PROCESSED is absorbing: whatever runs afterwards, row and log stay as they are. */
  lemma {:induction false} ProcessedIsAbsorbing(s: Inbox, more: seq<Action>)
    requires Inv(s) && s.row.Some? && s.row.value.status == Processed
    ensures Run(s, more).row == s.row && Run(s, more).log == s.log
    decreases |more|
  {
    if more != [] {
      NextKeepsInv(s, more[0]);
      ProcessedIsNeverWritten(s, more[0]);
      ProcessedIsAbsorbing(Next(s, more[0]), more[1..]);
    }
  }

  /** After any run that left the event processed, any further run leaves it so. */
  lemma ProcessedForever(acts: seq<Action>, more: seq<Action>)
    ensures var s := Run(INITIAL, acts);
            s.row.Some? && s.row.value.status == Processed ==> Run(s, more).row == s.row && Run(s, more).log == s.log
  {
    RunKeepsInv(INITIAL, acts);
    var s := Run(INITIAL, acts);
    if s.row.Some? && s.row.value.status == Processed {
      ProcessedIsAbsorbing(s, more);
    }
  }

  /** A claim that no other worker interrupts does what `WebhookEventRepository.Claim` does. */
  lemma UninterruptedClaim(s: Inbox, w: Worker, now: int, staleAfter: int, maxAttempts: int)
    requires Inv(s) && s.writer.None? && PcOf(s, w) == Idle
    ensures var t := Run(s, [Insert(w, now, staleAfter, maxAttempts), Reread(w, now), Reclaim(w), Commit(w)]);
            var won := Claimable(s.row, now, staleAfter, maxAttempts);
            && t.writer.None?
            && t.row == (if won then Some(Taken(s.row, now)) else s.row)
            && PcOf(t, w) == (if won then Handling(Taken(s.row, now).attempts) else Idle)
  {
    var s1 := Next(s, Insert(w, now, staleAfter, maxAttempts));
    var s2 := Next(s1, Reread(w, now));
    var s3 := Next(s2, Reclaim(w));
    assert Run(s, [Insert(w, now, staleAfter, maxAttempts), Reread(w, now), Reclaim(w), Commit(w)])
        == Run(s1, [Reread(w, now), Reclaim(w), Commit(w)])
        == Run(s2, [Reclaim(w), Commit(w)])
        == Run(s3, [Commit(w)])
        == Next(s3, Commit(w));
  }

  lemma {:induction false} RunConcat(s: Inbox, first: seq<Action>, second: seq<Action>)
    ensures Run(s, first + second) == Run(Run(s, first), second)
    decreases |first|
  {
    if first == [] {
      assert first + second == second;
    } else {
      assert (first + second)[1..] == first[1..] + second;
      RunConcat(Next(s, first[0]), first[1..], second);
    }
  }

  /**
   After any run that left the row unlocked, an idle worker's claim wins and takes the next number
   exactly when there is no row yet, or it failed with attempts left, or its lease has run out.
   */
  lemma EligibleIsWonExactly(acts: seq<Action>, w: Worker, now: int, staleAfter: int, maxAttempts: int)
    requires Run(INITIAL, acts).writer.None? && PcOf(Run(INITIAL, acts), w) == Idle
    ensures var s := Run(INITIAL, acts);
            var t := Run(s, [Insert(w, now, staleAfter, maxAttempts), Reread(w, now), Reclaim(w), Commit(w)]);
            var eligible := match s.row
                            case None => true
                            case Some(Row(Failed, attempts, _, _)) => attempts < maxAttempts
                            case Some(Row(Processing, _, claimedAt, _)) => claimedAt.None? || claimedAt.value + staleAfter <= now
                            case Some(Row(Processed, _, _, _)) => false;
            if eligible then
              var attempts := if s.row.None? then 0 else s.row.value.attempts;
              PcOf(t, w) == Handling(attempts + 1) && t.row == Some(Row(Processing, attempts + 1, Some(now), None))
            else PcOf(t, w) == Idle && t.row == s.row
  {
    RunKeepsInv(INITIAL, acts);
    UninterruptedClaim(Run(INITIAL, acts), w, now, staleAfter, maxAttempts);
  }

  /** A worker that dies leaves the row as it was and unlocked, so that others may go on. */
  lemma DeadWorkersLockNothing(acts: seq<Action>, v: Worker)
    ensures var s := Run(INITIAL, acts);
            var t := Next(s, Crash(v));
            && t.row == s.row && t.log == s.log && PcOf(t, v) == Idle
            && (t.writer.None? <==> s.writer.None? || PcOf(s, v).Writing?)
  {
    RunKeepsInv(INITIAL, acts);
  }

  /** A worker that claims the event and fails. */
  function FailedTry(staleAfter: int, maxAttempts: int): seq<Action> {
    [Insert(0, 0, staleAfter, maxAttempts), Reread(0, 0), Reclaim(0), Commit(0)] + [Fail(0, ""), Commit(0)]
  }

  function FailedTries(n: nat, staleAfter: int, maxAttempts: int): seq<Action> {
    if n == 0 then [] else FailedTries(n - 1, staleAfter, maxAttempts) + FailedTry(staleAfter, maxAttempts)
  }

  /**
   The bound on retries is reached: however often it is tried, an event that always fails is claimed up to
   the maximum and no more.
   */
  lemma {:induction false} RetriesReachTheBound(n: nat, staleAfter: int, maxAttempts: int)
    ensures var s := Run(INITIAL, FailedTries(n, staleAfter, maxAttempts));
            && s.writer.None? && PcOf(s, 0) == Idle
            && s.row == if n == 0 then None else Some(Row(Failed, Max(1, Min(n, maxAttempts)), Some(0), Some("")))
  {
    if n > 0 {
      var before := FailedTries(n - 1, staleAfter, maxAttempts);
      RetriesReachTheBound(n - 1, staleAfter, maxAttempts);
      RunConcat(INITIAL, before, FailedTry(staleAfter, maxAttempts));
      OneMoreTry(before, staleAfter, maxAttempts);
    }
  }

  lemma OneMoreTry(acts: seq<Action>, staleAfter: int, maxAttempts: int)
    requires var s := Run(INITIAL, acts);
             s.writer.None? && PcOf(s, 0) == Idle && (s.row.Some? ==> s.row.value.status == Failed)
    ensures var s := Run(INITIAL, acts);
            var t := Run(s, FailedTry(staleAfter, maxAttempts));
            && t.writer.None? && PcOf(t, 0) == Idle
            && t.row == if s.row.None? then Some(Row(Failed, 1, Some(0), Some("")))
                        else if s.row.value.attempts < maxAttempts then
                          Some(Row(Failed, s.row.value.attempts + 1, Some(0), Some("")))
                        else s.row
  {
    var s := Run(INITIAL, acts);
    var claim := [Insert(0, 0, staleAfter, maxAttempts), Reread(0, 0), Reclaim(0), Commit(0)];
    var t := Run(s, claim);
    RunConcat(s, claim, [Fail(0, ""), Commit(0)]);
    EligibleIsWonExactly(acts, 0, 0, staleAfter, maxAttempts);
    RunKeepsInv(INITIAL, acts);
    RunKeepsInv(s, claim);
    UninterruptedClaim(s, 0, 0, staleAfter, maxAttempts);
    if PcOf(t, 0).Handling? {
      UninterruptedFinish(t, 0, "");
    } else {
      assert Run(t, [Fail(0, ""), Commit(0)]) == Run(Next(t, Fail(0, "")), [Commit(0)]) == t;
    }
  }

  /** So does an uninterrupted end of the handler: `Complete` after success, `Fail` after an exception. */
  lemma UninterruptedFinish(s: Inbox, w: Worker, error: string)
    requires Inv(s) && s.writer.None? && PcOf(s, w).Handling?
    ensures var t := Run(s, [Complete(w), Commit(w)]);
            && PcOf(t, w) == Idle && t.writer.None?
            && t.row == (if s.row.value.status == Processing then Some(s.row.value.(status := Processed)) else s.row)
    ensures var t := Run(s, [Fail(w, error), Commit(w)]);
            && PcOf(t, w) == Idle && t.writer.None?
            && t.row == (if s.row.value.status == Processing
                         then Some(s.row.value.(status := Failed, lastError := Some(Clip(error)))) else s.row)
  {
    AttemptsFixClaimTime(s.log);
    OkLogIsNumbered(s.log);
    var s1 := Next(s, Complete(w));
    assert Run(s, [Complete(w), Commit(w)]) == Run(s1, [Commit(w)]) == Next(s1, Commit(w));
    var s2 := Next(s, Fail(w, error));
    assert Run(s, [Fail(w, error), Commit(w)]) == Run(s2, [Commit(w)]) == Next(s2, Commit(w));
  }
}
