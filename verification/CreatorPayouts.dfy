/**
 Creator payouts: the floor formula, and the ledger that accrues each period once and credits
 the pool balance in the same transaction.
 */
module CreatorPayouts {
  import opened Prelude

  // ---- The formula ---------------------------------------------------------------------

  /** n is x without its fraction. */
  predicate Truncates(x: real, n: int) {
    if x >= 0.0 then n as real <= x < n as real + 1.0 else n as real - 1.0 < x <= n as real
  }

  /** Truncation toward zero. */
  function Trunc(x: real): int {
    if x >= 0.0 then x.Floor else -((-x).Floor)
  }

  lemma TruncDropsTheFraction(x: real)
    ensures Truncates(x, Trunc(x))
  {
  }

  datatype Amounts = Amounts(floorTopup: int, poolTopup: int, share: int, fee: int, net: int)

  function FloorDue(perMinute: real, viewMinutes: int): int {
    Trunc(perMinute * 100.0) * Max(0, viewMinutes)
  }

  /** The amounts of one period, in cents. */
  function Payout(perMinute: real, poolRate: real, viewMinutes: int, earned: int, stripeFee: int): Amounts {
    var topup := Max(0, FloorDue(perMinute, viewMinutes) - Max(0, earned));
    var share := Max(0, earned) + topup;
    Amounts(topup, Trunc(topup as real * poolRate), share, Max(0, stripeFee), share - Max(0, stripeFee))
  }

  /** The floor is some whole number of cents, that of the amount per minute without its fraction, for every minute watched. */
  lemma FloorCountsWholeCents(perMinute: real, viewMinutes: int) returns (cents: int)
    ensures Truncates(perMinute * 100.0, cents)
    ensures FloorDue(perMinute, viewMinutes) == if viewMinutes <= 0 then 0 else cents * viewMinutes
  {
    cents := Trunc(perMinute * 100.0);
    TruncDropsTheFraction(perMinute * 100.0);
    if viewMinutes <= 0 {
      assert cents * 0 == 0;
    }
  }

  /**
   What a creator is promised: the better of the floor and the earnings, less nothing but the fee, at
   least 55 percent of the net, and a top-up of which the pool pays no more than its rate and no less than
   that rounded down.
   */
  predicate Fair(a: Amounts, perMinute: real, poolRate: real, viewMinutes: int, earned: int, stripeFee: int) {
    && a.share == Max(FloorDue(perMinute, viewMinutes), Max(0, earned))
    && a.floorTopup == a.share - Max(0, earned)
    && a.fee == Max(0, stripeFee) && a.net == a.share - a.fee
    && (a.net <= 0 || a.share as real >= 0.55 * a.net as real)
    && (0.0 <= poolRate <= 1.0 ==>
          0 <= a.poolTopup <= a.floorTopup && a.poolTopup as real <= a.floorTopup as real * poolRate < a.poolTopup as real + 1.0)
  }

  /** The creator gets the better of the floor and the earnings, and the contractual share assertion can never fail. */
  lemma PayoutIsFair(perMinute: real, poolRate: real, viewMinutes: int, earned: int, stripeFee: int)
    ensures Fair(Payout(perMinute, poolRate, viewMinutes, earned, stripeFee), perMinute, poolRate, viewMinutes, earned, stripeFee)
  {
    var due, income := FloorDue(perMinute, viewMinutes), Max(0, earned);
    ToppedUp(due, income);
    PoolPart(Max(0, due - income), poolRate);
    ShareCoversNet(Max(due, income), Max(0, stripeFee));
  }

  lemma ToppedUp(due: int, income: int)
    ensures income + Max(0, due - income) == Max(due, income)
  {
  }

  /** What the pool pays of a top-up, at a rate that is a fraction. */
  lemma PoolPart(topup: int, rate: real)
    requires topup >= 0
    ensures 0.0 <= rate <= 1.0 ==>
              var paid := Trunc(topup as real * rate);
              0 <= paid <= topup && paid as real <= topup as real * rate < paid as real + 1.0
  {
    if 0.0 <= rate <= 1.0 {
      var part := FractionFits(topup as real, rate);
      TruncFits(part, topup);
    }
  }

  lemma TruncFits(x: real, bound: int)
    requires 0.0 <= x <= bound as real
    ensures 0 <= Trunc(x) <= bound && Trunc(x) as real <= x < Trunc(x) as real + 1.0
  {
  }

  /** At any rate, the pool pays its part of the top-up without the fraction. */
  lemma PoolPaysItsRate(perMinute: real, poolRate: real, viewMinutes: int, earned: int, stripeFee: int)
    ensures var a := Payout(perMinute, poolRate, viewMinutes, earned, stripeFee);
            Truncates(a.floorTopup as real * poolRate, a.poolTopup)
  {
    var a := Payout(perMinute, poolRate, viewMinutes, earned, stripeFee);
    TruncDropsTheFraction(a.floorTopup as real * poolRate);
  }

  /** The contractual share: what is left after any fee is no reason to fall below 55 percent of it. */
  lemma ShareCoversNet(share: int, fee: int)
    requires share >= 0 && fee >= 0
    ensures share - fee <= 0 || share as real >= 0.55 * (share - fee) as real
  {
  }

  lemma FractionFits(x: real, rate: real) returns (part: real)
    requires x >= 0.0 && 0.0 <= rate <= 1.0
    ensures part == x * rate && 0.0 <= part <= x
  {
    part := x * rate;
    assert x * (1.0 - rate) >= 0.0;
    assert x * (1.0 - rate) == x - x * rate;
  }

  // ---- The database ----------------------------------------------------------------------

  /** A timestamp; without an offset it is taken as UTC. */
  datatype Timestamp = Timestamp(local: int, offset: Option<int>)

  function UtcNaive(t: Timestamp): int {
    if t.offset.Some? then t.local - t.offset.value else t.local
  }

  /** An instant of UTC, seen from where the timestamp was written. */
  predicate Denotes(t: Timestamp, utc: int) {
    t.local == utc + match t.offset case None => 0 case Some(east) => east
  }

  /** A ledger row; its period is in UTC. */
  datatype Row = Row(creator: nat, start: int, end: int, viewMinutes: int, amounts: Amounts)

  datatype Pool = Pool(accrued: int, contributed: int)

  /** Whether each account is active, the ledger in order of insertion, and the pool balances. */
  datatype Db = Db(accounts: map<nat, bool>, ledger: seq<Row>, pools: map<nat, Pool>)

  datatype PayoutError = Suspended | EmptyPeriod | NegativeAmount

  predicate SamePeriod(a: Row, b: Row) {
    a.creator == b.creator && a.start == b.start && a.end == b.end
  }

  /** The row of a period, if it is in the ledger. */
  function Find(ledger: seq<Row>, row: Row): Option<Row> {
    if ledger == [] then None
    else if SamePeriod(ledger[|ledger| - 1], row) then Some(ledger[|ledger| - 1])
    else Find(ledger[..|ledger| - 1], row)
  }

  function PoolOf(pools: map<nat, Pool>, creator: nat): Pool {
    if creator in pools then pools[creator] else Pool(0, 0)
  }

  /** The pool top-ups in a creator's ledger rows. */
  function Topups(ledger: seq<Row>, creator: nat): int {
    if ledger == [] then 0
    else
      var last := ledger[|ledger| - 1];
      Topups(ledger[..|ledger| - 1], creator) + if last.creator == creator then last.amounts.poolTopup else 0
  }

  predicate Active(db: Db, creator: nat) {
    creator in db.accounts && db.accounts[creator]
  }

  /** What `accrued` refuses before it touches the database. */
  function Refused(row: Row): Option<PayoutError> {
    var a := row.amounts;
    if row.end <= row.start then Some(EmptyPeriod)
    else if row.viewMinutes < 0 || a.floorTopup < 0 || a.poolTopup < 0 || a.share < 0 || a.fee < 0 || a.net < 0 then
      Some(NegativeAmount)
    else None
  }

  function Credited(pool: Pool, cents: int): Pool {
    pool.(accrued := pool.accrued + cents)
  }

  /** One accrual as one transaction. */
  function Accrued(db: Db, row: Row): (Db, Result<Row, PayoutError>) {
    if Refused(row).Some? then (db, Err(Refused(row).value))
    else if !Active(db, row.creator) then (db, Err(Suspended))
    else if Find(db.ledger, row).Some? then (db, Ok(Find(db.ledger, row).value))
    else
      (db.(ledger := db.ledger + [row],
           pools := db.pools[row.creator := Credited(PoolOf(db.pools, row.creator), row.amounts.poolTopup)]),
       Ok(row))
  }

  // ---- What the database always satisfies ----------------------------------------------------

  /** One row per creator and period. */
  ghost predicate OneRowPerPeriod(ledger: seq<Row>) {
    forall i, j :: 0 <= i < j < |ledger| ==> !SamePeriod(ledger[i], ledger[j])
  }

  /** Every balance is what the ledger adds up to. */
  ghost predicate Balanced(db: Db) {
    forall creator :: PoolOf(db.pools, creator).accrued == Topups(db.ledger, creator)
  }

  ghost predicate Sound(db: Db) {
    OneRowPerPeriod(db.ledger) && Balanced(db) && forall row :: row in db.ledger ==> Refused(row).None?
  }

  lemma {:induction false} FindExactly(ledger: seq<Row>, row: Row)
    ensures Find(ledger, row).None? <==> forall r :: r in ledger ==> !SamePeriod(r, row)
    ensures Find(ledger, row).Some? ==> Find(ledger, row).value in ledger && SamePeriod(Find(ledger, row).value, row)
  {
    if ledger != [] {
      FindExactly(ledger[..|ledger| - 1], row);
    }
  }

  lemma TopupsPush(ledger: seq<Row>, row: Row, creator: nat)
    ensures Topups(ledger + [row], creator)
            == Topups(ledger, creator) + if row.creator == creator then row.amounts.poolTopup else 0
  {
    assert (ledger + [row])[..|ledger|] == ledger;
  }

  /** A new row with its credit, added in one commit. */
  lemma AddingKeepsSound(db: Db, row: Row, pool: Pool)
    requires Sound(db) && Find(db.ledger, row).None? && Refused(row).None?
    requires pool.accrued == PoolOf(db.pools, row.creator).accrued + row.amounts.poolTopup
    ensures Sound(db.(ledger := db.ledger + [row], pools := db.pools[row.creator := pool]))
  {
    var after := db.(ledger := db.ledger + [row], pools := db.pools[row.creator := pool]);
    FindExactly(db.ledger, row);
    forall creator ensures PoolOf(after.pools, creator).accrued == Topups(after.ledger, creator) {
      TopupsPush(db.ledger, row, creator);
    }
  }

  lemma AccruedKeepsSound(db: Db, row: Row)
    requires Sound(db)
    ensures Sound(Accrued(db, row).0)
  {
    if Accrued(db, row).0 != db {
      AddingKeepsSound(db, row, Credited(PoolOf(db.pools, row.creator), row.amounts.poolTopup));
    }
  }

  /** Accruing the same period again, however its timestamps are written and whatever its amounts, changes nothing. */
  lemma ReplayChangesNothing(db: Db, row: Row, again: Row)
    requires Accrued(db, row).1.Ok? && SamePeriod(row, again) && Refused(again).None?
    ensures Accrued(Accrued(db, row).0, again) == (Accrued(db, row).0, Accrued(db, row).1)
  {
    var after := Accrued(db, row).0;
    FindSame(db.ledger, row, again);
    if Find(db.ledger, row).None? {
      assert after.ledger[|after.ledger| - 1] == row;
    }
  }

  lemma {:induction false} FindSame(ledger: seq<Row>, row: Row, again: Row)
    requires SamePeriod(row, again)
    ensures Find(ledger, row) == Find(ledger, again)
  {
    if ledger != [] {
      FindSame(ledger[..|ledger| - 1], row, again);
    }
  }

  // ---- The service, one call at a time ------------------------------------------------------

  class CreatorService {
    const poolRate: real
    var db: Db
    /** The current floor of a creator, in major units per minute. */
    var floors: map<nat, real>

    ghost predicate Valid()
      reads this
    {
      Sound(db)
    }

    constructor (poolRate: real, accounts: map<nat, bool>)
      ensures Valid() && this.poolRate == poolRate && db == Db(accounts, [], map[]) && floors == map[]
    {
      this.poolRate, db, floors := poolRate, Db(accounts, [], map[]), map[];
    }

    /** Accrue one payout period for a creator, idempotently. */
    method AccruePayout(creator: nat, start: Timestamp, end: Timestamp, viewMinutes: int, earned: int, stripeFee: int)
      returns (r: Result<Row, PayoutError>)
      requires Valid()
      modifies this`db
      ensures Valid()
      ensures var perMinute := if creator in floors then floors[creator] else 0.0;
              var amounts := Payout(perMinute, poolRate, viewMinutes, earned, stripeFee);
              var row := Row(creator, UtcNaive(start), UtcNaive(end), viewMinutes, amounts);
              if Active(old(db), creator) then (db, r) == Accrued(old(db), row) else db == old(db) && r == Err(Suspended)
      ensures r.Ok? ==> r.value in db.ledger && r.value.creator == creator
                        && Denotes(start, r.value.start) && Denotes(end, r.value.end)
      // A new row is the fair payout of this call.
      ensures r.Ok? && r.value !in old(db).ledger ==>
                && r.value.viewMinutes == viewMinutes
                && var perMinute := if creator in floors then floors[creator] else 0.0;
                   Fair(r.value.amounts, perMinute, poolRate, viewMinutes, earned, stripeFee)
    {
      if creator !in db.accounts || !db.accounts[creator] {
        return Err(Suspended);
      }
      var perMinute := if creator in floors then floors[creator] else 0.0;
      var amounts := ComputePayout(perMinute, viewMinutes, earned, stripeFee);
      r := InsertOnce(Row(creator, UtcNaive(start), UtcNaive(end), viewMinutes, amounts));
    }

    /** The amounts that follow from a top-up, a share and a fee. */
    method AmountsOf(floorTopup: int, share: int, fee: int) returns (a: Amounts)
      requires share >= 0 && fee >= 0
      ensures a == Amounts(floorTopup, Trunc(floorTopup as real * poolRate), share, fee, share - fee)
      ensures a.net <= 0 || a.share as real >= 0.55 * a.net as real
    {
      ShareCoversNet(share, fee);
      a := Amounts(floorTopup, Trunc(floorTopup as real * poolRate), share, fee, share - fee);
    }

    /** The amounts of a period; the assertion is the contractual share. */
    method Formula(perMinute: real, viewMinutes: int, earned: int, stripeFee: int) returns (a: Amounts)
      ensures a == Payout(perMinute, poolRate, viewMinutes, earned, stripeFee)
    {
      var floorDue := Trunc(perMinute * 100.0) * Max(0, viewMinutes);
      var floorTopup := Max(0, floorDue - Max(0, earned));
      a := AmountsOf(floorTopup, Max(0, earned) + floorTopup, Max(0, stripeFee));
      assert a.net <= 0 || a.share as real >= 0.55 * a.net as real;
    }

    /** The amounts of a period, and what they promise. */
    method ComputePayout(perMinute: real, viewMinutes: int, earned: int, stripeFee: int) returns (a: Amounts)
      ensures a == Payout(perMinute, poolRate, viewMinutes, earned, stripeFee)
      ensures Fair(a, perMinute, poolRate, viewMinutes, earned, stripeFee)
    {
      PayoutIsFair(perMinute, poolRate, viewMinutes, earned, stripeFee);
      a := Formula(perMinute, viewMinutes, earned, stripeFee);
    }

    /** Insert a period once; credit its pool balance in the same transaction. */
    method InsertOnce(row: Row) returns (r: Result<Row, PayoutError>)
      requires Valid()
      modifies this`db
      ensures Valid() && (db, r) == Accrued(old(db), row)
      ensures r.Ok? ==> r.value in db.ledger && SamePeriod(r.value, row)
      ensures r.Ok? <==>
                && row.start < row.end && row.viewMinutes >= 0
                && var a := row.amounts;
                   && a.floorTopup >= 0 && a.poolTopup >= 0 && a.share >= 0 && a.fee >= 0 && a.net >= 0
                   && row.creator in old(db).accounts && old(db).accounts[row.creator]
      // A recorded period stays as it is; a new one is appended and credited.
      ensures r.Err? || (exists known <- old(db).ledger :: SamePeriod(known, row)) ==> db == old(db)
      ensures r.Ok? && (forall known <- old(db).ledger :: !SamePeriod(known, row)) ==>
                && r.value == row && db.ledger == old(db).ledger + [row] && db.accounts == old(db).accounts
                && db.pools.Keys == old(db).pools.Keys + {row.creator}
                && forall c <- db.pools ::
                     var was := if c in old(db).pools then old(db).pools[c] else Pool(0, 0);
                     db.pools[c] == Pool(was.accrued + (if c == row.creator then row.amounts.poolTopup else 0), was.contributed)
    {
      AccruedKeepsSound(db, row);
      FindExactly(db.ledger, row);
      if row.end <= row.start {
        return Err(EmptyPeriod);
      }
      var a := row.amounts;
      if Min(row.viewMinutes, Min(a.floorTopup, Min(a.poolTopup, Min(a.share, Min(a.fee, a.net))))) < 0 {
        return Err(NegativeAmount);
      }
      if row.creator !in db.accounts || !db.accounts[row.creator] {
        return Err(Suspended);
      }
      var existing := Find(db.ledger, row);
      if existing.Some? {
        return Ok(existing.value);
      }
      db := db.(ledger := db.ledger + [row]);
      db := db.(pools := db.pools[row.creator := Credited(PoolOf(db.pools, row.creator), a.poolTopup)]);
      r := Ok(row);
    }

    /** Record a contribution into the pool; a negative one is refused. */
    method RecordContribution(creator: nat, cents: int) returns (r: Option<Pool>)
      requires Valid()
      modifies this`db
      ensures Valid() && db.ledger == old(db).ledger && db.accounts == old(db).accounts
      ensures cents < 0 ==> r.None? && db == old(db)
      ensures cents >= 0 ==> var pool := if creator in old(db).pools then old(db).pools[creator] else Pool(0, 0);
                             r == Some(pool.(contributed := pool.contributed + cents))
                              && db.pools == old(db).pools[creator := r.value]
    {
      if cents < 0 {
        return None;
      }
      var pool := PoolOf(db.pools, creator);
      pool := pool.(contributed := pool.contributed + cents);
      db := db.(pools := db.pools[creator := pool]);
      r := Some(pool);
    }
  }

  // ---- Transactions in any interleaving -------------------------------------------------------

  /** An open transaction: an accrual holds its account's row lock, and whoever has written a pool row holds that. */
  datatype Tx =
    | Locked(row: Row)
    | Inserted(row: Row)
    | Conflicted(row: Row)
    | Crediting(row: Row, pool: Pool)
    | Contributing(creator: nat, pool: Pool)

  datatype System = System(db: Db, txs: map<nat, Tx>)

  /** A call of the service, with the floor and the pool rate as it read them. */
  datatype Request = Request(
    creator: nat, start: Timestamp, end: Timestamp, viewMinutes: int, earned: int, stripeFee: int,
    perMinute: real, poolRate: real)

  function RowOf(r: Request): Row {
    Row(r.creator, UtcNaive(r.start), UtcNaive(r.end), r.viewMinutes,
        Payout(r.perMinute, r.poolRate, r.viewMinutes, r.earned, r.stripeFee))
  }

  datatype Action =
    | Lock(t: nat, request: Request)
    | Insert(t: nat)
    | Credit(t: nat)
    | Contribute(t: nat, creator: nat, cents: int)
    | Commit(t: nat)
    | Rollback(t: nat)
    | SetActive(creator: nat, active: bool)

  function Initial(accounts: map<nat, bool>): System {
    System(Db(accounts, [], map[]), map[])
  }

  predicate HoldsAccount(tx: Tx, creator: nat) {
    !tx.Contributing? && tx.row.creator == creator
  }

  predicate HoldsPool(tx: Tx, creator: nat) {
    (tx.Crediting? && tx.row.creator == creator) || (tx.Contributing? && tx.creator == creator)
  }

  predicate AccountFree(s: System, creator: nat) {
    forall t <- s.txs :: !HoldsAccount(s.txs[t], creator)
  }

  predicate PoolFree(s: System, creator: nat) {
    forall t <- s.txs :: !HoldsPool(s.txs[t], creator)
  }

  function Closed(s: System, t: nat): System {
    s.(txs := s.txs - {t})
  }

  function Moved(s: System, t: nat, tx: Tx): System {
    s.(txs := s.txs[t := tx])
  }

  /** One step; a step that does not apply, or has to wait for a lock, changes nothing. */
  function Next(s: System, a: Action): System {
    match a
    case Lock(t, request) =>
      var row := RowOf(request);
      if t !in s.txs && Refused(row).None? && Active(s.db, row.creator) && AccountFree(s, row.creator)
      then Moved(s, t, Locked(row)) else s
    case Insert(t) =>
      if !(t in s.txs && s.txs[t].Locked?) then s
      else if Find(s.db.ledger, s.txs[t].row).Some? then Moved(s, t, Conflicted(s.txs[t].row))
      else Moved(s, t, Inserted(s.txs[t].row))
    case Credit(t) =>
      if t in s.txs && s.txs[t].Inserted? && PoolFree(s, s.txs[t].row.creator)
      then
        var row := s.txs[t].row;
        Moved(s, t, Crediting(row, Credited(PoolOf(s.db.pools, row.creator), row.amounts.poolTopup)))
      else s
    case Contribute(t, creator, cents) =>
      if t !in s.txs && cents >= 0 && PoolFree(s, creator)
      then
        var pool := PoolOf(s.db.pools, creator);
        Moved(s, t, Contributing(creator, pool.(contributed := pool.contributed + cents)))
      else s
    case Commit(t) =>
      if t !in s.txs then s
      else (match s.txs[t]
            case Conflicted(_) => Closed(s, t)
            case Crediting(row, pool) =>
              Closed(s, t).(db := s.db.(ledger := s.db.ledger + [row], pools := s.db.pools[row.creator := pool]))
            case Contributing(creator, pool) =>
              Closed(s, t).(db := s.db.(pools := s.db.pools[creator := pool]))
            case _ => s)
    case Rollback(t) => Closed(s, t)
    case SetActive(creator, active) =>
      if AccountFree(s, creator) then s.(db := s.db.(accounts := s.db.accounts[creator := active])) else s
  }

  function Run(s: System, acts: seq<Action>): System {
    if acts == [] then s else Next(Run(s, acts[..|acts| - 1]), acts[|acts| - 1])
  }

  /** What an open transaction knows stays true while it holds its locks. */
  ghost predicate TxFits(db: Db, tx: Tx) {
    match tx
    case Locked(row) => Refused(row).None?
    case Inserted(row) => Refused(row).None? && Find(db.ledger, row).None?
    case Conflicted(_) => true
    case Crediting(row, pool) =>
      && Refused(row).None? && Find(db.ledger, row).None?
      && pool.accrued == PoolOf(db.pools, row.creator).accrued + row.amounts.poolTopup
    case Contributing(creator, pool) => pool.accrued == PoolOf(db.pools, creator).accrued
  }

  ghost predicate Excluded(txs: map<nat, Tx>) {
    forall t, u, creator :: t in txs && u in txs && t != u ==>
      && !(HoldsAccount(txs[t], creator) && HoldsAccount(txs[u], creator))
      && !(HoldsPool(txs[t], creator) && HoldsPool(txs[u], creator))
  }

  ghost predicate Inv(s: System) {
    Sound(s.db) && Excluded(s.txs) && forall t :: t in s.txs ==> TxFits(s.db, s.txs[t]) && StillActive(s.db, s.txs[t])
  }

  /** The account of an accrual is active as long as its row is locked. */
  predicate StillActive(db: Db, tx: Tx) {
    !tx.Contributing? ==> tx.row.creator in db.accounts && db.accounts[tx.row.creator]
  }

  /** A new row of one creator is no row of another's period. */
  lemma FindPastOther(ledger: seq<Row>, added: Row, row: Row)
    requires added.creator != row.creator
    ensures Find(ledger + [added], row) == Find(ledger, row)
  {
    assert (ledger + [added])[..|ledger|] == ledger;
  }

  lemma MovedKeepsInv(s: System, t: nat, tx: Tx)
    requires Inv(s) && TxFits(s.db, tx) && StillActive(s.db, tx)
    requires forall u, creator :: u in s.txs && u != t ==>
               && !(HoldsAccount(tx, creator) && HoldsAccount(s.txs[u], creator))
               && !(HoldsPool(tx, creator) && HoldsPool(s.txs[u], creator))
    ensures Inv(Moved(s, t, tx))
  {
  }

  lemma CreditCommitKeepsInv(s: System, t: nat)
    requires Inv(s) && t in s.txs && s.txs[t].Crediting?
    ensures Inv(Next(s, Commit(t)))
  {
    var row, pool, after := s.txs[t].row, s.txs[t].pool, Next(s, Commit(t));
    AddingKeepsSound(s.db, row, pool);
    forall u | u in after.txs ensures TxFits(after.db, after.txs[u]) {
      assert HoldsAccount(s.txs[t], row.creator) && HoldsPool(s.txs[t], row.creator);
      assert TxFits(s.db, s.txs[u]);
      match s.txs[u]
      case Inserted(other) => FindPastOther(s.db.ledger, row, other);
      case Crediting(other, _) => FindPastOther(s.db.ledger, row, other);
      case Contributing(creator, _) =>
        assert HoldsPool(s.txs[u], creator);
      case _ =>
    }
  }

  lemma ContributionCommitKeepsInv(s: System, t: nat)
    requires Inv(s) && t in s.txs && s.txs[t].Contributing?
    ensures Inv(Next(s, Commit(t)))
  {
    var creator, pool, after := s.txs[t].creator, s.txs[t].pool, Next(s, Commit(t));
    forall c ensures PoolOf(after.db.pools, c).accrued == PoolOf(s.db.pools, c).accrued {
    }
    forall u | u in after.txs ensures TxFits(after.db, after.txs[u]) {
      assert TxFits(s.db, s.txs[u]);
    }
  }

  lemma NextKeepsInv(s: System, a: Action)
    requires Inv(s)
    ensures Inv(Next(s, a))
  {
    var t := Next(s, a);
    if t != s {
      match a
      case Lock(t, request) => MovedKeepsInv(s, t, Locked(RowOf(request)));
      case Insert(t) => MovedKeepsInv(s, t, Next(s, a).txs[t]);
      case Credit(t) => MovedKeepsInv(s, t, Next(s, a).txs[t]);
      case Contribute(t, _, _) => MovedKeepsInv(s, t, Next(s, a).txs[t]);
      case Commit(t) =>
        if s.txs[t].Crediting? {
          CreditCommitKeepsInv(s, t);
        } else if s.txs[t].Contributing? {
          ContributionCommitKeepsInv(s, t);
        }
      case _ =>
    }
  }

  lemma {:induction false} RunKeepsInv(accounts: map<nat, bool>, acts: seq<Action>)
    ensures Inv(Run(Initial(accounts), acts))
  {
    if acts != [] {
      RunKeepsInv(accounts, acts[..|acts| - 1]);
      NextKeepsInv(Run(Initial(accounts), acts[..|acts| - 1]), acts[|acts| - 1]);
    }
  }

  // ---- Main results -----------------------------------------------------------------------------

  /** In every interleaving, with rollbacks and crashes anywhere, each creator's balance is the sum of its ledger rows. */
  lemma Conservation(accounts: map<nat, bool>, acts: seq<Action>, creator: nat)
    ensures var db := Run(Initial(accounts), acts).db;
            PoolOf(db.pools, creator).accrued == Topups(db.ledger, creator)
  {
    RunKeepsInv(accounts, acts);
  }

  /** There is one row per creator and UTC period, and no row that should have been refused. */
  lemma OneRowEach(accounts: map<nat, bool>, acts: seq<Action>)
    ensures var ledger := Run(Initial(accounts), acts).db.ledger;
            OneRowPerPeriod(ledger)
            && forall row :: row in ledger ==> row.start < row.end && 0 <= row.amounts.net <= row.amounts.net + row.amounts.fee
  {
    RunKeepsInv(accounts, acts);
    forall row | row in Run(Initial(accounts), acts).db.ledger
      ensures row.start < row.end && 0 <= row.amounts.net && 0 <= row.amounts.fee
    {
      assert Refused(row).None?;
    }
  }

  /** Rows are never changed or removed. */
  lemma {:induction false} LedgerOnlyGrows(s: System, acts: seq<Action>)
    ensures s.db.ledger <= Run(s, acts).db.ledger
  {
    if acts != [] {
      LedgerOnlyGrows(s, acts[..|acts| - 1]);
    }
  }

  lemma RunPush(s: System, acts: seq<Action>, a: Action)
    ensures Run(s, acts + [a]) == Next(Run(s, acts), a)
  {
    assert (acts + [a])[..|acts|] == acts;
  }

  /** The calls made in a run. */
  function Requests(acts: seq<Action>): set<Request> {
    if acts == [] then {}
    else
      var last := acts[|acts| - 1];
      Requests(acts[..|acts| - 1]) + if last.Lock? then {last.request} else {}
  }

  ghost predicate Requested(row: Row, requests: set<Request>) {
    exists r :: r in requests && row == RowOf(r)
  }

  /** Every row, committed or not, was computed for one of these calls. */
  ghost predicate AllRequested(s: System, requests: set<Request>) {
    && (forall row :: row in s.db.ledger ==> Requested(row, requests))
    && (forall t :: t in s.txs && !s.txs[t].Contributing? ==> Requested(s.txs[t].row, requests))
  }

  lemma RequestedStays(row: Row, some: set<Request>, more: set<Request>)
    requires Requested(row, some) && some <= more
    ensures Requested(row, more)
  {
  }

  lemma {:induction false} RunIsRequested(accounts: map<nat, bool>, acts: seq<Action>)
    ensures AllRequested(Run(Initial(accounts), acts), Requests(acts))
  {
    if acts != [] {
      var before, a := acts[..|acts| - 1], acts[|acts| - 1];
      RunIsRequested(accounts, before);
      var s := Run(Initial(accounts), before);
      forall row | Requested(row, Requests(before)) ensures Requested(row, Requests(acts)) {
        RequestedStays(row, Requests(before), Requests(acts));
      }
      if a.Lock? {
        assert a.request in Requests(acts);
      }
      NextIsRequested(s, a, Requests(acts));
    }
  }

  lemma NextIsRequested(s: System, a: Action, requests: set<Request>)
    requires AllRequested(s, requests) && (a.Lock? ==> a.request in requests)
    ensures AllRequested(Next(s, a), requests)
  {
    if a.Lock? {
      assert Requested(RowOf(a.request), requests);
    }
  }

  /** In every interleaving, a row enters the ledger only while its creator's account is active, whoever suspends it meanwhile. */
  lemma NoRowForTheSuspended(accounts: map<nat, bool>, acts: seq<Action>, a: Action)
    ensures var s := Run(Initial(accounts), acts);
            var after := Next(s, a).db.ledger;
            after != s.db.ledger ==>
              && |after| == |s.db.ledger| + 1 && after[..|s.db.ledger|] == s.db.ledger
              && after[|s.db.ledger|].creator in s.db.accounts && s.db.accounts[after[|s.db.ledger|].creator]
  {
    RunKeepsInv(accounts, acts);
  }

  /** In every interleaving, every ledger row is the fair payout of a call that was made for its creator and period. */
  lemma EveryRowIsFair(accounts: map<nat, bool>, acts: seq<Action>, row: Row)
    requires row in Run(Initial(accounts), acts).db.ledger
    ensures exists r :: r in Requests(acts) && FairRow(row, r)
  {
    RunIsRequested(accounts, acts);
    assert Requested(row, Requests(acts));
    var r :| r in Requests(acts) && row == RowOf(r);
    PayoutIsFair(r.perMinute, r.poolRate, r.viewMinutes, r.earned, r.stripeFee);
    assert FairRow(row, r);
  }

  predicate FairRow(row: Row, r: Request) {
    && row.creator == r.creator && row.viewMinutes == r.viewMinutes
    && Denotes(r.start, row.start) && Denotes(r.end, row.end)
    && Fair(row.amounts, r.perMinute, r.poolRate, r.viewMinutes, r.earned, r.stripeFee)
  }

  /** An accrual that nobody disturbs is the serial one. */
  lemma UninterruptedAccrual(s: System, t: nat, r: Request)
    requires t !in s.txs
    requires forall u <- s.txs :: (if s.txs[u].Contributing? then s.txs[u].creator else s.txs[u].row.creator) != r.creator
    ensures Run(s, [] + [Lock(t, r)] + [Insert(t)] + [Credit(t)] + [Commit(t)]) == s.(db := Accrued(s.db, RowOf(r)).0)
  {
    RunPush(s, [], Lock(t, r));
    RunPush(s, [] + [Lock(t, r)], Insert(t));
    RunPush(s, [] + [Lock(t, r)] + [Insert(t)], Credit(t));
    RunPush(s, [] + [Lock(t, r)] + [Insert(t)] + [Credit(t)], Commit(t));
    AccrualSteps(s, t, r);
  }

  lemma AccrualSteps(s: System, t: nat, r: Request)
    requires t !in s.txs
    requires AccountFree(s, r.creator) && PoolFree(s, r.creator)
    ensures Next(Next(Next(Next(s, Lock(t, r)), Insert(t)), Credit(t)), Commit(t)) == s.(db := Accrued(s.db, RowOf(r)).0)
  {
    var row := RowOf(r);
    var s1 := Next(s, Lock(t, r));
    if s1 == s {
      return;
    }
    assert s1 == Moved(s, t, Locked(row));
    var s2 := Next(s1, Insert(t));
    if Find(s.db.ledger, row).Some? {
      assert s2.txs == s.txs[t := Conflicted(row)];
      assert Next(s2, Credit(t)) == s2;
      assert s2.txs - {t} == s.txs;
    } else {
      assert s2.txs == s.txs[t := Inserted(row)];
      var s3 := Next(s2, Credit(t));
      assert s3.txs == s.txs[t := Crediting(row, Credited(PoolOf(s.db.pools, row.creator), row.amounts.poolTopup))];
      assert s3.txs - {t} == s.txs;
    }
  }
}
