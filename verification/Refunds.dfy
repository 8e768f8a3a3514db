/**
 Refund reconciliation: `process_refund` records every Stripe refund once and
 moves `Invoice.refunded_amount` with a guarded UPDATE.

 `RefundDesk` is the operation run alone.  `System` runs it in any number of
 concurrent READ COMMITTED transactions: a transaction's writes are private until
 it commits, an UPDATE keeps the invoice row locked, an INSERT waits for another
 uncommitted row of the same unique `refund_id`, and any transaction may roll back
 at any point.  A transaction may hold any number of calls.
 */
module Refunds {
  import opened Prelude

  type Worker = nat
  type RefundId = string
  type InvoiceId = nat

  datatype RefundStatus = Processed | Rejected | PendingReview

  datatype InvoiceStatus = Pending | Paid | Failed | Refunded

  /** Amounts are in minor units. */
  datatype Invoice = Invoice(amount: int, currency: string, refunded: int, status: InvoiceStatus)

  datatype Refund = Refund(id: RefundId, invoice: Option<InvoiceId>, amount: int, status: RefundStatus)

  /** A call: the webhook's figures, what Stripe answers about them, and the invoice the lookups resolve to. */
  datatype Request = Request(
    id: RefundId, amount: int, currency: string,
    stripe: Option<(int, string)>, target: Option<InvoiceId>)

  /** What the checks before the ledger write decide. */
  datatype Plan = Review(invoice: Option<InvoiceId>) | Charge(target: InvoiceId)

  function PlanOf(invoices: map<InvoiceId, Invoice>, r: Request): Plan {
    if r.stripe.Some? && r.stripe.value != (r.amount, r.currency) then Review(None)
    else if r.target.None? || r.target.value !in invoices then Review(None)
    else if invoices[r.target.value].currency != r.currency then Review(r.target)
    else Charge(r.target.value)
  }

  predicate Known(refunds: seq<Refund>, id: RefundId) {
    exists i :: 0 <= i < |refunds| && refunds[i].id == id
  }

  /** The guard of `apply_to_invoice`. */
  predicate Fits(inv: Invoice, amount: int) {
    inv.refunded + amount <= inv.amount
  }

  function Applied(inv: Invoice, amount: int): Invoice {
    inv.(refunded := inv.refunded + amount, status := Refunded)
  }

  /** The database's own check on `refunded_amount` rejects a negative total. */
  predicate Underflows(inv: Invoice, amount: int) {
    inv.refunded + amount < 0
  }

  /** Does this call fail on that check?  (It needs a negative amount.) */
  predicate Raises(invoices: map<InvoiceId, Invoice>, refunds: seq<Refund>, r: Request) {
    && !Known(refunds, r.id)
    && PlanOf(invoices, r).Charge?
    && Fits(invoices[r.target.value], r.amount)
    && Underflows(invoices[r.target.value], r.amount)
  }

  /**
   What one call means.  A known refund changes nothing.  A new one is PROCESSED exactly when
   Stripe does not contradict it, it belongs to an invoice in its own currency, and that
   invoice has room for it; only then does the invoice move, and by its amount.
   */
  ghost predicate Reconciled(invoices: map<InvoiceId, Invoice>, refunds: seq<Refund>, r: Request,
                             out: Refund, invoices': map<InvoiceId, Invoice>, refunds': seq<Refund>) {
    && out.id == r.id
    && (Known(refunds, r.id) ==> refunds' == refunds && invoices' == invoices && out in refunds)
    && (!Known(refunds, r.id) ==>
          && refunds' == refunds + [out]
          && out.amount == r.amount
          && (out.status == Processed <==>
                && (r.stripe == None || r.stripe == Some((r.amount, r.currency)))
                && r.target.Some? && r.target.value in invoices
                && invoices[r.target.value].currency == r.currency
                && invoices[r.target.value].refunded + r.amount <= invoices[r.target.value].amount)
          && (out.status == PendingReview <==>
                || (r.stripe.Some? && r.stripe != Some((r.amount, r.currency)))
                || r.target.None? || r.target.value !in invoices
                || invoices[r.target.value].currency != r.currency)
          && out.invoice == (if (r.stripe.Some? && r.stripe != Some((r.amount, r.currency)))
                                || r.target.None? || r.target.value !in invoices then None else r.target)
          && invoices' == (if out.status == Processed
                           then
                             var inv := invoices[r.target.value];
                             invoices[r.target.value := Invoice(inv.amount, inv.currency, inv.refunded + r.amount, Refunded)]
                           else invoices))
  }

  class RefundDesk {
    var invoices: map<InvoiceId, Invoice>
    var refunds: seq<Refund>

    method Lookup(id: RefundId) returns (found: Option<Refund>)
      ensures found.None? <==> forall i :: 0 <= i < |refunds| ==> refunds[i].id != id
      ensures found.None? <==> !Known(refunds, id)
      ensures found.Some? ==> found.value in refunds && found.value.id == id
    {
      var i := 0;
      while i < |refunds|
        invariant i <= |refunds|
        invariant forall k :: 0 <= k < i ==> refunds[k].id != id
      {
        if refunds[i].id == id {
          return Some(refunds[i]);
        }
        i := i + 1;
      }
      return None;
    }

    /** None when the database check raises. */
    method ApplyToInvoice(id: InvoiceId, amount: int) returns (applied: Option<bool>)
      modifies this`invoices
      ensures applied == Some(true) <==>
                id in old(invoices) && 0 <= old(invoices)[id].refunded + amount <= old(invoices)[id].amount
      ensures applied == Some(false) <==>
                id !in old(invoices) || old(invoices)[id].refunded + amount > old(invoices)[id].amount
      ensures applied != Some(true) ==> invoices == old(invoices)
      ensures applied == Some(true) ==>
                var inv := old(invoices)[id];
                invoices == old(invoices)[id := Invoice(inv.amount, inv.currency, inv.refunded + amount, Refunded)]
    {
      if id !in invoices || invoices[id].refunded + amount > invoices[id].amount {
        return Some(false);
      }
      if invoices[id].refunded + amount < 0 {
        return None;
      }
      var inv := invoices[id];
      invoices := invoices[id := inv.(refunded := inv.refunded + amount, status := Refunded)];
      return Some(true);
    }

    method Create(id: RefundId, invoice: Option<InvoiceId>, amount: int, status: RefundStatus) returns (out: Refund)
      modifies this`refunds
      ensures out in refunds && out.id == id
      ensures Known(old(refunds), id) ==> refunds == old(refunds)
      ensures !Known(old(refunds), id) ==> out == Refund(id, invoice, amount, status) && refunds == old(refunds) + [out]
    {
      var existing := Lookup(id);
      if existing.Some? {
        return existing.value;
      }
      out := Refund(id, invoice, amount, status);
      refunds := refunds + [out];
      assert refunds[|refunds| - 1] == out;
    }

    /** None when the database check raises; the caller then rolls back. */
    method ProcessRefund(r: Request) returns (out: Option<Refund>)
      modifies this
      ensures out.None? <==> Raises(old(invoices), old(refunds), r)
      // It fails only on a chargeable refund that fits and yet takes the total below zero.
      ensures out.None? <==>
                && !Known(old(refunds), r.id)
                && (r.stripe.None? || r.stripe.value == (r.amount, r.currency))
                && r.target.Some? && r.target.value in old(invoices)
                && var inv := old(invoices)[r.target.value];
                   && inv.currency == r.currency
                   && inv.refunded + r.amount <= inv.amount && inv.refunded + r.amount < 0
      ensures out.None? ==> invoices == old(invoices) && refunds == old(refunds)
      ensures out.Some? ==> Reconciled(old(invoices), old(refunds), r, out.value, invoices, refunds)
    {
      var existing := Lookup(r.id);
      if existing.Some? {
        return existing;
      }
      var row: Refund;
      if r.stripe.Some? && (r.stripe.value.0 != r.amount || r.stripe.value.1 != r.currency) {
        row := Create(r.id, None, r.amount, PendingReview);
        return Some(row);
      }
      if r.target.None? || r.target.value !in invoices {
        row := Create(r.id, None, r.amount, PendingReview);
        return Some(row);
      }
      var target := r.target.value;
      if invoices[target].currency != r.currency {
        row := Create(r.id, Some(target), r.amount, PendingReview);
        return Some(row);
      }
      var applied := ApplyToInvoice(target, r.amount);
      if applied.None? {
        return None;
      }
      row := Create(r.id, Some(target), r.amount, if applied.value then Processed else Rejected);
      return Some(row);
    }
  }

  // ---- Concurrent transactions ------------------------------------------------

  /** An invoice was charged although the call then found the refund already recorded. */
  datatype Leak = Leak(invoice: InvoiceId, amount: int)

  datatype Pc =
    | Idle
    | Applying(r: Request, target: InvoiceId)
    | Creating(r: Request, invoice: Option<InvoiceId>, status: RefundStatus)
    | Inserting(r: Request, invoice: Option<InvoiceId>, status: RefundStatus)

  /** `own` holds this transaction's versions of the invoices it has locked; `touched` the refunds it has worked on. */
  datatype Tx = Tx(pc: Pc, own: map<InvoiceId, Invoice>, inserts: seq<Refund>, leaks: seq<Leak>, touched: set<RefundId>)

  datatype Db = Db(invoices: map<InvoiceId, Invoice>, refunds: seq<Refund>, leaks: seq<Leak>)

  datatype System = System(db: Db, txs: map<Worker, Tx>)

  datatype Action =
    | NewInvoice(id: InvoiceId, amount: nat, currency: string)
    | Begin(w: Worker, r: Request)
    | Apply(w: Worker)
    | Deadlock(w: Worker)
    | Find(w: Worker)
    | Insert(w: Worker)
    | Commit(w: Worker)
    | Rollback(w: Worker)

  const INITIAL := System(Db(map[], [], []), map[])
  const NO_TX := Tx(Idle, map[], [], [], {})

  function TxOf(s: System, w: Worker): Tx {
    if w in s.txs then s.txs[w] else NO_TX
  }

  function Put(s: System, w: Worker, tx: Tx): System {
    s.(txs := s.txs[w := tx])
  }

  /** Own versions first, committed rows otherwise. */
  function View(s: System, w: Worker): map<InvoiceId, Invoice> {
    s.db.invoices + TxOf(s, w).own
  }

  predicate Sees(s: System, w: Worker, id: RefundId) {
    Known(s.db.refunds, id) || Known(TxOf(s, w).inserts, id)
  }

  predicate LockedByOther(s: System, w: Worker, inv: InvoiceId) {
    exists v <- s.txs :: v != w && inv in s.txs[v].own
  }

  predicate PendingElsewhere(s: System, w: Worker, id: RefundId) {
    exists v <- s.txs :: v != w && Known(s.txs[v].inserts, id)
  }

  /** Where a call gets to before it writes anything. */
  function FirstPc(s: System, w: Worker, r: Request): Pc {
    if Sees(s, w, r.id) then Idle
    else
      match PlanOf(View(s, w), r)
      case Review(invoice) => Creating(r, invoice, PendingReview)
      case Charge(target) => Applying(r, target)
  }

  /** One step.  A step that does not apply, or that must wait, changes nothing. */
  function Next(s: System, a: Action): System {
    match a
    case NewInvoice(id, amount, currency) =>
      if id in s.db.invoices then s
      else s.(db := s.db.(invoices := s.db.invoices[id := Invoice(amount, currency, 0, Pending)]))
    case Begin(w, r) =>
      if TxOf(s, w).pc != Idle then s
      else Put(s, w, TxOf(s, w).(pc := FirstPc(s, w, r), touched := TxOf(s, w).touched + {r.id}))
    case Apply(w) =>
      var tx := TxOf(s, w);
      if !tx.pc.Applying? || LockedByOther(s, w, tx.pc.target) then s
      else
        var r, target, view := tx.pc.r, tx.pc.target, View(s, w);
        if target !in view || !Fits(view[target], r.amount) then
          Put(s, w, tx.(pc := Creating(r, Some(target), Rejected)))
        else if Underflows(view[target], r.amount) then s.(txs := s.txs - {w})
        else
          Put(s, w, tx.(pc := Creating(r, Some(target), Processed), own := tx.own[target := Applied(view[target], r.amount)]))
    case Deadlock(w) =>
      var tx := TxOf(s, w);
      if !tx.pc.Applying? then s else Put(s, w, NO_TX.(pc := tx.pc, touched := {tx.pc.r.id}))
    case Find(w) =>
      var tx := TxOf(s, w);
      if !tx.pc.Creating? then s
      else if !Sees(s, w, tx.pc.r.id) then Put(s, w, tx.(pc := Inserting(tx.pc.r, tx.pc.invoice, tx.pc.status)))
      else if tx.pc.status == Processed && tx.pc.invoice.Some? then
        Put(s, w, tx.(pc := Idle, leaks := tx.leaks + [Leak(tx.pc.invoice.value, tx.pc.r.amount)]))
      else Put(s, w, tx.(pc := Idle))
    case Insert(w) =>
      var tx := TxOf(s, w);
      if !tx.pc.Inserting? || PendingElsewhere(s, w, tx.pc.r.id) then s
      else if Known(s.db.refunds, tx.pc.r.id) then s.(txs := s.txs - {w})
      else
        Put(s, w, tx.(pc := Idle, inserts := tx.inserts + [Refund(tx.pc.r.id, tx.pc.invoice, tx.pc.r.amount, tx.pc.status)]))
    case Commit(w) =>
      var tx := TxOf(s, w);
      if tx.pc != Idle then s
      else System(Db(s.db.invoices + tx.own, s.db.refunds + tx.inserts, s.db.leaks + tx.leaks), s.txs - {w})
    case Rollback(w) => s.(txs := s.txs - {w})
  }

  function Run(s: System, acts: seq<Action>): System
    decreases |acts|
  {
    if acts == [] then s else Run(Next(s, acts[0]), acts[1..])
  }

  // ---- Sums over the ledgers ---------------------------------------------------

  /** Money of the PROCESSED refunds of an invoice. */
  function ProcessedSum(refunds: seq<Refund>, inv: InvoiceId): int {
    if refunds == [] then 0
    else
      var last := refunds[|refunds| - 1];
      ProcessedSum(refunds[..|refunds| - 1], inv)
      + if last.status == Processed && last.invoice == Some(inv) then last.amount else 0
  }

  function LeakSum(leaks: seq<Leak>, inv: InvoiceId): int {
    if leaks == [] then 0
    else
      var last := leaks[|leaks| - 1];
      LeakSum(leaks[..|leaks| - 1], inv) + if last.invoice == inv then last.amount else 0
  }

  lemma {:induction false} ProcessedSumConcat(a: seq<Refund>, b: seq<Refund>, inv: InvoiceId)
    ensures ProcessedSum(a + b, inv) == ProcessedSum(a, inv) + ProcessedSum(b, inv)
  {
    if b == [] {
      assert a + b == a;
    } else {
      ProcessedSumConcat(a, b[..|b| - 1], inv);
      assert (a + b)[..|a + b| - 1] == a + b[..|b| - 1];
    }
  }

  lemma {:induction false} LeakSumConcat(a: seq<Leak>, b: seq<Leak>, inv: InvoiceId)
    ensures LeakSum(a + b, inv) == LeakSum(a, inv) + LeakSum(b, inv)
  {
    if b == [] {
      assert a + b == a;
    } else {
      LeakSumConcat(a, b[..|b| - 1], inv);
      assert (a + b)[..|a + b| - 1] == a + b[..|b| - 1];
    }
  }

  // ---- The invariant -----------------------------------------------------------

  /** An invoice's refunded amount is within bounds. */
  predicate Bounded(inv: Invoice) {
    0 <= inv.refunded <= inv.amount
  }

  /** What the call in progress has charged but not yet recorded. */
  function InFlight(pc: Pc, inv: InvoiceId): int {
    if (pc.Creating? || pc.Inserting?) && pc.status == Processed && pc.invoice == Some(inv) then pc.r.amount else 0
  }

  /** Everything a transaction has added to an invoice. */
  function Added(tx: Tx, inv: InvoiceId): int {
    ProcessedSum(tx.inserts, inv) + LeakSum(tx.leaks, inv) + InFlight(tx.pc, inv)
  }

  ghost predicate TxOk(db: Db, tx: Tx) {
    && (forall inv :: inv in tx.own ==>
          && inv in db.invoices && Bounded(tx.own[inv]) && tx.own[inv].amount == db.invoices[inv].amount
          && tx.own[inv].refunded == db.invoices[inv].refunded + Added(tx, inv))
    && (forall inv :: inv !in tx.own ==> Added(tx, inv) == 0)
    && Unique(tx.inserts)
    && (forall id :: Known(tx.inserts, id) ==> id in tx.touched && !Known(db.refunds, id))
    && (!tx.pc.Idle? ==> tx.pc.r.id in tx.touched && !Known(tx.inserts, tx.pc.r.id))
  }

  ghost predicate Unique(refunds: seq<Refund>) {
    forall i, j :: 0 <= i < j < |refunds| ==> refunds[i].id != refunds[j].id
  }

  /** Committed: all money is accounted for. */
  ghost predicate Balanced(db: Db) {
    forall inv :: if inv in db.invoices
      then db.invoices[inv].refunded == ProcessedSum(db.refunds, inv) + LeakSum(db.leaks, inv)
      else ProcessedSum(db.refunds, inv) + LeakSum(db.leaks, inv) == 0
  }

  ghost predicate Inv(s: System) {
    && Balanced(s.db)
    && (forall inv :: inv in s.db.invoices ==> Bounded(s.db.invoices[inv]))
    && Unique(s.db.refunds)
    && (forall w :: w in s.txs ==> TxOk(s.db, s.txs[w]))
    && (forall v, w :: v in s.txs && w in s.txs && v != w ==> Apart(s.txs[v], s.txs[w]))
  }

  /** Two transactions lock different invoices and insert different refunds. */
  ghost predicate Apart(t: Tx, u: Tx) {
    && t.own.Keys !! u.own.Keys
    && forall id :: Known(t.inserts, id) ==> !Known(u.inserts, id)
  }

  lemma KnownConcat(a: seq<Refund>, b: seq<Refund>, id: RefundId)
    ensures Known(a + b, id) <==> Known(a, id) || Known(b, id)
  {
    if Known(a, id) {
      var i :| 0 <= i < |a| && a[i].id == id;
      assert (a + b)[i].id == id;
    }
    if Known(b, id) {
      var i :| 0 <= i < |b| && b[i].id == id;
      assert (a + b)[|a| + i].id == id;
    }
  }

  lemma UniqueConcat(a: seq<Refund>, b: seq<Refund>)
    requires Unique(a) && Unique(b)
    requires forall id :: Known(b, id) ==> !Known(a, id)
    ensures Unique(a + b)
  {
    forall i, j | 0 <= i < j < |a + b| ensures (a + b)[i].id != (a + b)[j].id {
      if i < |a| <= j {
        assert Known(b, b[j - |a|].id);
      }
    }
  }

  lemma PutKeepsInv(s: System, w: Worker, tx: Tx)
    requires Inv(s) && TxOk(s.db, tx)
    requires forall v :: v in s.txs && v != w ==> Apart(s.txs[v], tx)
    ensures Inv(Put(s, w, tx))
  {
    forall v | v in s.txs && v != w ensures Apart(tx, s.txs[v]) {
      assert Apart(s.txs[v], tx);
    }
  }

  /** A transaction that has written nothing new is still fine. */
  lemma SameWrites(db: Db, tx: Tx, tx': Tx)
    requires TxOk(db, tx) && tx'.inserts == tx.inserts && tx'.leaks == tx.leaks && tx'.own == tx.own
    requires forall inv :: InFlight(tx'.pc, inv) == InFlight(tx.pc, inv)
    requires tx.touched <= tx'.touched
    requires !tx'.pc.Idle? ==> tx'.pc.r.id in tx'.touched && !Known(tx.inserts, tx'.pc.r.id)
    ensures TxOk(db, tx')
  {
    forall inv ensures Added(tx', inv) == Added(tx, inv) {}
  }

  lemma ChargeOk(db: Db, tx: Tx, tx': Tx, view: Invoice)
    requires TxOk(db, tx) && tx.pc.Applying? && tx.pc.target in db.invoices && Bounded(db.invoices[tx.pc.target])
    requires view == if tx.pc.target in tx.own then tx.own[tx.pc.target] else db.invoices[tx.pc.target]
    requires Fits(view, tx.pc.r.amount) && !Underflows(view, tx.pc.r.amount)
    requires tx' == tx.(pc := Creating(tx.pc.r, Some(tx.pc.target), Processed),
                        own := tx.own[tx.pc.target := Applied(view, tx.pc.r.amount)])
    ensures TxOk(db, tx')
  {
    var target := tx.pc.target;
    forall inv ensures Added(tx', inv) == Added(tx, inv) + if inv == target then tx.pc.r.amount else 0 {}
    assert view.refunded == db.invoices[target].refunded + Added(tx, target);
  }

  /** A step that only moves the program counter keeps the invariant. */
  lemma MoveKeepsInv(s: System, w: Worker, tx': Tx)
    requires Inv(s)
    requires var tx := TxOf(s, w); tx'.inserts == tx.inserts && tx'.leaks == tx.leaks && tx'.own == tx.own
    requires forall inv :: InFlight(tx'.pc, inv) == InFlight(TxOf(s, w).pc, inv)
    requires TxOf(s, w).touched <= tx'.touched
    requires !tx'.pc.Idle? ==> tx'.pc.r.id in tx'.touched && !Known(tx'.inserts, tx'.pc.r.id)
    ensures Inv(Put(s, w, tx'))
  {
    assert TxOk(s.db, TxOf(s, w));
    SameWrites(s.db, TxOf(s, w), tx');
    forall v | v in s.txs && v != w ensures Apart(s.txs[v], tx') {
      assert Apart(s.txs[v], TxOf(s, w));
    }
    PutKeepsInv(s, w, tx');
  }

  lemma ApplyKeepsInv(s: System, w: Worker)
    requires Inv(s) && TxOf(s, w).pc.Applying?
    ensures Inv(Next(s, Apply(w)))
  {
    var tx := TxOf(s, w);
    var r, target, view := tx.pc.r, tx.pc.target, View(s, w);
    if LockedByOther(s, w, target) {
    } else if target !in view || !Fits(view[target], r.amount) {
      MoveKeepsInv(s, w, tx.(pc := Creating(r, Some(target), Rejected)));
    } else if !Underflows(view[target], r.amount) {
      LockKeepsInv(s, w);
    }
  }

  lemma LockKeepsInv(s: System, w: Worker)
    requires Inv(s) && TxOf(s, w).pc.Applying?
    requires var pc := TxOf(s, w).pc;
             && !LockedByOther(s, w, pc.target)
             && pc.target in View(s, w) && Fits(View(s, w)[pc.target], pc.r.amount)
             && !Underflows(View(s, w)[pc.target], pc.r.amount)
    ensures Inv(Next(s, Apply(w)))
  {
    var tx := TxOf(s, w);
    var view := View(s, w)[tx.pc.target];
    var tx' := tx.(pc := Creating(tx.pc.r, Some(tx.pc.target), Processed),
                   own := tx.own[tx.pc.target := Applied(view, tx.pc.r.amount)]);
    ChargeOk(s.db, tx, tx', view);
    PutKeepsInv(s, w, tx');
  }

  lemma RecordOk(db: Db, tx: Tx, tx': Tx, row: Refund)
    requires TxOk(db, tx) && tx.pc.Inserting? && !Known(db.refunds, row.id)
    requires row == Refund(tx.pc.r.id, tx.pc.invoice, tx.pc.r.amount, tx.pc.status)
    requires tx' == tx.(pc := Idle, inserts := tx.inserts + [row])
    ensures TxOk(db, tx')
    ensures forall id :: Known(tx'.inserts, id) <==> Known(tx.inserts, id) || id == row.id
  {
    assert tx'.inserts[..|tx.inserts|] == tx.inserts;
    forall inv ensures Added(tx', inv) == Added(tx, inv) {}
    forall id ensures Known(tx'.inserts, id) <==> Known(tx.inserts, id) || id == row.id {
      KnownConcat(tx.inserts, [row], id);
      assert [row][0].id == row.id;
    }
  }

  lemma InsertKeepsInv(s: System, w: Worker)
    requires Inv(s) && TxOf(s, w).pc.Inserting?
    ensures Inv(Next(s, Insert(w)))
  {
    var tx := TxOf(s, w);
    if !PendingElsewhere(s, w, tx.pc.r.id) && !Known(s.db.refunds, tx.pc.r.id) {
      var row := Refund(tx.pc.r.id, tx.pc.invoice, tx.pc.r.amount, tx.pc.status);
      var tx' := tx.(pc := Idle, inserts := tx.inserts + [row]);
      RecordOk(s.db, tx, tx', row);
      PutKeepsInv(s, w, tx');
    }
  }

  lemma LeakOk(db: Db, tx: Tx, tx': Tx)
    requires TxOk(db, tx) && tx.pc.Creating? && tx.pc.status == Processed && tx.pc.invoice.Some?
    requires tx' == tx.(pc := Idle, leaks := tx.leaks + [Leak(tx.pc.invoice.value, tx.pc.r.amount)])
    ensures TxOk(db, tx')
  {
    assert tx'.leaks[..|tx.leaks|] == tx.leaks;
    forall inv ensures Added(tx', inv) == Added(tx, inv) {}
  }

  lemma FindKeepsInv(s: System, w: Worker)
    requires Inv(s) && TxOf(s, w).pc.Creating?
    ensures Inv(Next(s, Find(w)))
  {
    var tx := TxOf(s, w);
    if !Sees(s, w, tx.pc.r.id) {
      MoveKeepsInv(s, w, tx.(pc := Inserting(tx.pc.r, tx.pc.invoice, tx.pc.status)));
    } else if tx.pc.status == Processed && tx.pc.invoice.Some? {
      var tx' := tx.(pc := Idle, leaks := tx.leaks + [Leak(tx.pc.invoice.value, tx.pc.r.amount)]);
      LeakOk(s.db, tx, tx');
      PutKeepsInv(s, w, tx');
    } else {
      MoveKeepsInv(s, w, tx.(pc := Idle));
    }
  }

  lemma CommitKeepsInv(s: System, w: Worker)
    requires Inv(s)
    ensures Inv(Next(s, Commit(w)))
  {
    var tx := TxOf(s, w);
    if tx.pc == Idle && w in s.txs {
      var s' := Next(s, Commit(w));
      forall inv
        ensures ProcessedSum(s'.db.refunds, inv) == ProcessedSum(s.db.refunds, inv) + ProcessedSum(tx.inserts, inv)
        ensures LeakSum(s'.db.leaks, inv) == LeakSum(s.db.leaks, inv) + LeakSum(tx.leaks, inv)
      {
        ProcessedSumConcat(s.db.refunds, tx.inserts, inv);
        LeakSumConcat(s.db.leaks, tx.leaks, inv);
      }
      forall id ensures Known(s'.db.refunds, id) <==> Known(s.db.refunds, id) || Known(tx.inserts, id) {
        KnownConcat(s.db.refunds, tx.inserts, id);
      }
      UniqueConcat(s.db.refunds, tx.inserts);
      forall v | v in s'.txs ensures TxOk(s'.db, s'.txs[v]) {
        assert Apart(s.txs[w], s.txs[v]);
      }
    } else if tx.pc == Idle {
      assert s.db.invoices + tx.own == s.db.invoices;
      assert s.db.refunds + tx.inserts == s.db.refunds;
      assert s.db.leaks + tx.leaks == s.db.leaks;
      assert s.txs - {w} == s.txs;
    }
  }

  lemma BeginKeepsInv(s: System, w: Worker, r: Request)
    requires Inv(s)
    ensures Inv(Next(s, Begin(w, r)))
  {
    if TxOf(s, w).pc == Idle {
      var pc := FirstPc(s, w, r);
      assert pc.Idle? || (pc.r == r && !Known(TxOf(s, w).inserts, r.id));
      assert forall inv :: InFlight(pc, inv) == 0;
      MoveKeepsInv(s, w, TxOf(s, w).(pc := pc, touched := TxOf(s, w).touched + {r.id}));
    }
  }

  lemma NewInvoiceKeepsInv(s: System, a: Action)
    requires Inv(s) && a.NewInvoice?
    ensures Inv(Next(s, a))
  {
    var s' := Next(s, a);
    forall w | w in s'.txs ensures TxOk(s'.db, s'.txs[w]) {
      assert TxOk(s.db, s.txs[w]);
    }
  }

  lemma DeadlockKeepsInv(s: System, w: Worker)
    requires Inv(s) && TxOf(s, w).pc.Applying?
    ensures Inv(Next(s, Deadlock(w)))
    // All that the transaction wrote is gone, and the same update is tried again.
    ensures var tx := TxOf(Next(s, Deadlock(w)), w);
            Next(s, Deadlock(w)).db == s.db && tx.pc == TxOf(s, w).pc && tx.own == map[] && tx.inserts == [] && tx.leaks == []
  {
    var tx' := NO_TX.(pc := TxOf(s, w).pc, touched := {TxOf(s, w).pc.r.id});
    forall inv ensures Added(tx', inv) == 0 {}
    PutKeepsInv(s, w, tx');
  }

  lemma NextKeepsInv(s: System, a: Action)
    requires Inv(s)
    ensures Inv(Next(s, a))
  {
    match a
    case NewInvoice(_, _, _) => NewInvoiceKeepsInv(s, a);
    case Begin(w, r) => BeginKeepsInv(s, w, r);
    case Apply(w) => if TxOf(s, w).pc.Applying? { ApplyKeepsInv(s, w); }
    case Deadlock(w) => if TxOf(s, w).pc.Applying? { DeadlockKeepsInv(s, w); }
    case Find(w) => if TxOf(s, w).pc.Creating? { FindKeepsInv(s, w); }
    case Insert(w) => if TxOf(s, w).pc.Inserting? { InsertKeepsInv(s, w); }
    case Commit(w) => CommitKeepsInv(s, w);
    case Rollback(w) =>
  }

  lemma {:induction false} RunKeepsInv(s: System, acts: seq<Action>)
    requires Inv(s)
    ensures Inv(Run(s, acts))
    decreases |acts|
  {
    if acts != [] {
      NextKeepsInv(s, acts[0]);
      RunKeepsInv(Next(s, acts[0]), acts[1..]);
    }
  }

  // ---- What every run guarantees -------------------------------------------------

  /** In every interleaving: the refunded amount is exactly the PROCESSED refunds plus the leaks,
      it stays within the invoice, and there is one row per refund id. */
  lemma Conservation(acts: seq<Action>)
    ensures var db := Run(INITIAL, acts).db;
            && Unique(db.refunds)
            && forall inv :: inv in db.invoices ==>
                 && 0 <= db.invoices[inv].refunded <= db.invoices[inv].amount
                 && db.invoices[inv].refunded == ProcessedSum(db.refunds, inv) + LeakSum(db.leaks, inv)
  {
    RunKeepsInv(INITIAL, acts);
  }

  /** All calls carry positive amounts. */
  ghost predicate Positive(acts: seq<Action>) {
    forall k :: 0 <= k < |acts| && acts[k].Begin? ==> acts[k].r.amount > 0
  }

  predicate PositiveLeaks(leaks: seq<Leak>) {
    forall k :: 0 <= k < |leaks| ==> leaks[k].amount > 0
  }

  ghost predicate PositiveState(s: System) {
    && PositiveLeaks(s.db.leaks)
    && forall w :: w in s.txs ==> PositiveTx(s.txs[w])
  }

  predicate PositiveTx(tx: Tx) {
    PositiveLeaks(tx.leaks) && (tx.pc.Idle? || tx.pc.r.amount > 0)
  }

  lemma CallKeepsPositive(s: System, a: Action)
    requires PositiveState(s) && (a.Begin? ==> a.r.amount > 0)
    requires a.Begin? || a.Apply? || a.Deadlock?
    ensures PositiveState(Next(s, a))
  {
    assert PositiveTx(TxOf(s, a.w));
  }

  lemma NextKeepsPositive(s: System, a: Action)
    requires PositiveState(s) && (a.Begin? ==> a.r.amount > 0)
    ensures PositiveState(Next(s, a))
  {
    if a.Begin? || a.Apply? || a.Deadlock? {
      CallKeepsPositive(s, a);
    } else if !a.NewInvoice? {
      assert PositiveTx(TxOf(s, a.w));
    }
  }

  lemma {:induction false} RunKeepsPositive(s: System, acts: seq<Action>)
    requires PositiveState(s) && Positive(acts)
    ensures PositiveState(Run(s, acts))
    decreases |acts|
  {
    if acts != [] {
      assert acts[0].Begin? ==> acts[0].r.amount > 0;
      NextKeepsPositive(s, acts[0]);
      RunKeepsPositive(Next(s, acts[0]), acts[1..]);
    }
  }

  lemma {:induction false} LeakSumIsZeroWithoutLeaks(leaks: seq<Leak>, inv: InvoiceId)
    requires PositiveLeaks(leaks)
    ensures LeakSum(leaks, inv) >= 0
    ensures LeakSum(leaks, inv) == 0 <==> forall k :: 0 <= k < |leaks| ==> leaks[k].invoice != inv
  {
    if leaks != [] {
      var init := leaks[..|leaks| - 1];
      LeakSumIsZeroWithoutLeaks(init, inv);
      assert forall k :: 0 <= k < |init| ==> leaks[k] == init[k];
    }
  }

  /** With positive amounts: never more PROCESSED refunds than the refunded amount, and equality
      exactly when no committed call on the invoice returned another call's row after charging. */
  lemma RefundBounds(acts: seq<Action>, inv: InvoiceId)
    requires Positive(acts) && inv in Run(INITIAL, acts).db.invoices
    ensures var db := Run(INITIAL, acts).db;
            && ProcessedSum(db.refunds, inv) <= db.invoices[inv].refunded <= db.invoices[inv].amount
            && (ProcessedSum(db.refunds, inv) == db.invoices[inv].refunded
                <==> forall k :: 0 <= k < |db.leaks| ==> db.leaks[k].invoice != inv)
  {
    Conservation(acts);
    RunKeepsPositive(INITIAL, acts);
    LeakSumIsZeroWithoutLeaks(Run(INITIAL, acts).db.leaks, inv);
  }

  /** No two open transactions have worked on the same refund. */
  ghost predicate NoOverlap(s: System) {
    forall v, w :: v in s.txs && w in s.txs && v != w ==> s.txs[v].touched !! s.txs[w].touched
  }

  ghost predicate NeverOverlaps(s: System, acts: seq<Action>)
    decreases |acts|
  {
    NoOverlap(s) && (acts != [] ==> NeverOverlaps(Next(s, acts[0]), acts[1..]))
  }

  /** No leak so far, and a call in progress works on a refund nobody has committed. */
  ghost predicate Clean(s: System) {
    && s.db.leaks == []
    && forall w :: w in s.txs ==>
         s.txs[w].leaks == [] && (!s.txs[w].pc.Idle? ==> !Known(s.db.refunds, s.txs[w].pc.r.id))
  }

  lemma CommitKeepsClean(s: System, w: Worker)
    requires Inv(s) && NoOverlap(s) && Clean(s) && w in s.txs && s.txs[w].pc == Idle
    ensures Clean(Next(s, Commit(w)))
  {
    var tx := s.txs[w];
    assert TxOk(s.db, tx);
    forall v | v in s.txs && v != w && !s.txs[v].pc.Idle? ensures !Known(s.db.refunds + tx.inserts, s.txs[v].pc.r.id) {
      assert TxOk(s.db, s.txs[v]);
      KnownConcat(s.db.refunds, tx.inserts, s.txs[v].pc.r.id);
    }
  }

  lemma LocalStepKeepsClean(s: System, a: Action)
    requires Clean(s) && !a.NewInvoice? && !a.Commit?
    requires TxOk(s.db, TxOf(s, a.w))
    ensures Clean(Next(s, a))
  {
    match a
    case Begin(w, r) =>
    case Apply(w) =>
    case Deadlock(w) =>
    case Find(w) =>
    case Insert(w) =>
    case Rollback(w) =>
  }

  lemma NextKeepsClean(s: System, a: Action)
    requires Inv(s) && NoOverlap(s) && Clean(s)
    ensures Clean(Next(s, a))
  {
    if a.NewInvoice? {
    } else if !a.Commit? {
      LocalStepKeepsClean(s, a);
    } else if TxOf(s, a.w).pc == Idle {
      if a.w in s.txs {
        CommitKeepsClean(s, a.w);
      } else {
        assert s.db.refunds + [] == s.db.refunds;
      }
    }
  }

  lemma {:induction false} RunKeepsClean(s: System, acts: seq<Action>)
    requires Inv(s) && NeverOverlaps(s, acts) && Clean(s)
    ensures Clean(Run(s, acts))
    decreases |acts|
  {
    if acts != [] {
      NextKeepsClean(s, acts[0]);
      NextKeepsInv(s, acts[0]);
      RunKeepsClean(Next(s, acts[0]), acts[1..]);
    }
  }

  /** When calls for one refund id never overlap, the two ledgers agree exactly. */
  lemma NoOverlapNoLeak(acts: seq<Action>)
    requires NeverOverlaps(INITIAL, acts)
    ensures var db := Run(INITIAL, acts).db;
            forall inv :: inv in db.invoices ==> db.invoices[inv].refunded == ProcessedSum(db.refunds, inv)
  {
    RunKeepsClean(INITIAL, acts);
    Conservation(acts);
  }

  /** A call for a recorded refund changes no committed row, whoever else is running. */
  lemma ReplayChangesNothing(s: System, w: Worker, r: Request)
    requires w !in s.txs && Known(s.db.refunds, r.id)
    ensures Run(s, [Begin(w, r), Commit(w)]) == s
  {
    var s1 := Next(s, Begin(w, r));
    assert Run(s, [Begin(w, r), Commit(w)]) == Run(s1, [Commit(w)]) == Next(s1, Commit(w));
    assert s.db.invoices + map[] == s.db.invoices && s.db.refunds + [] == s.db.refunds && s.db.leaks + [] == s.db.leaks;
    assert s1.txs - {w} == s.txs;
  }

  /** Nobody else holds what this call needs. */
  predicate Undisturbed(s: System, w: Worker, r: Request) {
    && w !in s.txs
    && forall v <- s.txs ::
         && (forall i :: 0 <= i < |s.txs[v].inserts| ==> s.txs[v].inserts[i].id != r.id)
         && (r.target.Some? ==> r.target.value !in s.txs[v].own)
  }

  lemma PutPut(s: System, w: Worker, x: Tx, y: Tx)
    ensures Put(Put(s, w, x), w, y) == Put(s, w, y)
    ensures forall inv :: LockedByOther(Put(s, w, x), w, inv) <==> LockedByOther(s, w, inv)
    ensures forall id :: PendingElsewhere(Put(s, w, x), w, id) <==> PendingElsewhere(s, w, id)
  {
    var s' := Put(s, w, x);
    assert s'.txs[w := y] == s.txs[w := y];
    assert forall v :: v != w ==> (v in s'.txs <==> v in s.txs) && (v in s.txs ==> s'.txs[v] == s.txs[v]);
  }

  lemma FindAndInsert(s: System, w: Worker, r: Request, tx: Tx)
    requires Undisturbed(s, w, r) && !Known(s.db.refunds, r.id)
    requires tx.pc.Creating? && tx.pc.r == r && tx.inserts == []
    ensures Next(Next(Put(s, w, tx), Find(w)), Insert(w))
         == Put(s, w, tx.(pc := Idle, inserts := [Refund(r.id, tx.pc.invoice, r.amount, tx.pc.status)]))
  {
    var s1 := Put(s, w, tx);
    var tx2 := tx.(pc := Inserting(r, tx.pc.invoice, tx.pc.status));
    var tx3 := tx.(pc := Idle, inserts := [Refund(r.id, tx.pc.invoice, r.amount, tx.pc.status)]);
    PutPut(s, w, tx, tx2);
    assert !Sees(s1, w, r.id);
    assert Next(s1, Find(w)) == Put(s, w, tx2);
    PutPut(s, w, tx2, tx3);
    assert [] + tx3.inserts == tx3.inserts;
  }

  lemma ApplyUndisturbed(s: System, w: Worker, r: Request, target: InvoiceId)
    requires Undisturbed(s, w, r) && PlanOf(s.db.invoices, r) == Charge(target)
    ensures var s1 := Put(s, w, Tx(Applying(r, target), map[], [], [], {r.id}));
            var inv := s.db.invoices[target];
            Next(s1, Apply(w)) ==
            if !Fits(inv, r.amount) then Put(s, w, Tx(Creating(r, Some(target), Rejected), map[], [], [], {r.id}))
            else if Underflows(inv, r.amount) then s
            else Put(s, w, Tx(Creating(r, Some(target), Processed), map[target := Applied(inv, r.amount)], [], [], {r.id}))
  {
    var tx := Tx(Applying(r, target), map[], [], [], {r.id});
    var s1 := Put(s, w, tx);
    var s2 := Next(s1, Apply(w));
    PutPut(s, w, tx, TxOf(s2, w));
    assert View(s1, w) == s.db.invoices;
    assert s1.txs - {w} == s.txs;
  }

  /** The four steps before the commit of an undisturbed call. */
  function FourSteps(s: System, w: Worker, r: Request): System {
    Next(Next(Next(Next(s, Begin(w, r)), Apply(w)), Find(w)), Insert(w))
  }

  /** The transaction those steps leave, once the call records something. */
  lemma UndisturbedSteps(s: System, w: Worker, r: Request)
    requires Undisturbed(s, w, r) && !Known(s.db.refunds, r.id)
    ensures FourSteps(s, w, r) ==
            match PlanOf(s.db.invoices, r)
            case Review(inv) => Put(s, w, Tx(Idle, map[], [Refund(r.id, inv, r.amount, PendingReview)], [], {r.id}))
            case Charge(t) =>
              var inv := s.db.invoices[t];
              if !Fits(inv, r.amount) then Put(s, w, Tx(Idle, map[], [Refund(r.id, Some(t), r.amount, Rejected)], [], {r.id}))
              else if Underflows(inv, r.amount) then s
              else Put(s, w, Tx(Idle, map[t := Applied(inv, r.amount)], [Refund(r.id, Some(t), r.amount, Processed)], [], {r.id}))
  {
    var s1 := Next(s, Begin(w, r));
    assert View(s, w) == s.db.invoices;
    assert NO_TX.touched + {r.id} == {r.id};
    match PlanOf(s.db.invoices, r)
    case Review(inv) =>
      assert TxOf(s1, w).pc.Creating?;
      assert s1 == Put(s, w, Tx(Creating(r, inv, PendingReview), map[], [], [], {r.id}));
      assert Next(s1, Apply(w)) == s1;
      FindAndInsert(s, w, r, Tx(Creating(r, inv, PendingReview), map[], [], [], {r.id}));
    case Charge(t) =>
      ApplyUndisturbed(s, w, r, t);
      var inv := s.db.invoices[t];
      if !Fits(inv, r.amount) {
        FindAndInsert(s, w, r, Tx(Creating(r, Some(t), Rejected), map[], [], [], {r.id}));
      } else if !Underflows(inv, r.amount) {
        FindAndInsert(s, w, r, Tx(Creating(r, Some(t), Processed), map[t := Applied(inv, r.amount)], [], [], {r.id}));
      }
  }

  lemma RunFive(s: System, w: Worker, r: Request)
    ensures Run(s, [Begin(w, r), Apply(w), Find(w), Insert(w), Commit(w)]) == Next(FourSteps(s, w, r), Commit(w))
  {
    var s1 := Next(s, Begin(w, r));
    var s2 := Next(s1, Apply(w));
    var s3 := Next(s2, Find(w));
    var s4 := Next(s3, Insert(w));
    assert Run(s, [Begin(w, r), Apply(w), Find(w), Insert(w), Commit(w)])
        == Run(s1, [Apply(w), Find(w), Insert(w), Commit(w)])
        == Run(s2, [Find(w), Insert(w), Commit(w)])
        == Run(s3, [Insert(w), Commit(w)])
        == Run(s4, [Commit(w)])
        == Run(Next(s4, Commit(w)), []);
  }

  /** Recording what the plan says, with the invoice that it moves, is what the call means. */
  lemma PlanReconciles(invoices: map<InvoiceId, Invoice>, refunds: seq<Refund>, r: Request)
    requires !Known(refunds, r.id) && !Raises(invoices, refunds, r)
    ensures match PlanOf(invoices, r)
            case Review(inv) =>
              var row := Refund(r.id, inv, r.amount, PendingReview);
              Reconciled(invoices, refunds, r, row, invoices + map[], refunds + [row])
            case Charge(t) =>
              var fits := Fits(invoices[t], r.amount);
              var row := Refund(r.id, Some(t), r.amount, if fits then Processed else Rejected);
              var own := if fits then map[t := Applied(invoices[t], r.amount)] else map[];
              Reconciled(invoices, refunds, r, row, invoices + own, refunds + [row])
  {
    assert invoices + map[] == invoices;
    if PlanOf(invoices, r).Charge? {
      var t := PlanOf(invoices, r).target;
      assert invoices + map[t := Applied(invoices[t], r.amount)] == invoices[t := Applied(invoices[t], r.amount)];
    }
  }

  /** A transaction that nobody disturbs does what `RefundDesk.ProcessRefund` does. */
  lemma UninterruptedCall(s: System, w: Worker, r: Request)
    requires Undisturbed(s, w, r) && !Known(s.db.refunds, r.id)
    ensures var t := Run(s, [Begin(w, r), Apply(w), Find(w), Insert(w), Commit(w)]);
            && t.txs == s.txs
            && (if Raises(s.db.invoices, s.db.refunds, r) then t.db == s.db
                else exists out :: Reconciled(s.db.invoices, s.db.refunds, r, out, t.db.invoices, t.db.refunds))
  {
    RunFive(s, w, r);
    UndisturbedSteps(s, w, r);
    var s4 := FourSteps(s, w, r);
    var t := Next(s4, Commit(w));
    var tx := TxOf(s4, w);
    assert s.db.invoices + map[] == s.db.invoices && s.db.refunds + [] == s.db.refunds && s.db.leaks + [] == s.db.leaks;
    assert s4.txs - {w} == s.txs;
    if !Raises(s.db.invoices, s.db.refunds, r) {
      PlanReconciles(s.db.invoices, s.db.refunds, r);
      assert t.db.refunds == s.db.refunds + tx.inserts && t.db.invoices == s.db.invoices + tx.own;
      assert Reconciled(s.db.invoices, s.db.refunds, r, tx.inserts[0], s.db.invoices + tx.own, s.db.refunds + tx.inserts);
    }
  }

  /** A refund that Stripe does not contradict, of an invoice in its own currency, and that is not on record yet. */
  predicate Plausible(s: System, r: Request) {
    && !Known(s.db.refunds, r.id)
    && (r.stripe.None? || r.stripe.value == (r.amount, r.currency))
    && r.target.Some? && r.target.value in s.db.invoices
    && s.db.invoices[r.target.value].currency == r.currency
  }

  /**
   The boundary of the guard: an undisturbed refund of up to what is left of the invoice is PROCESSED and moves the
   invoice by its amount, and of anything more is REJECTED and moves nothing; exactly what is left refunds the invoice in full.
   */
  lemma WhatIsLeftIsProcessed(acts: seq<Action>, w: Worker, r: Request)
    requires var s := Run(INITIAL, acts); Undisturbed(s, w, r) && Plausible(s, r)
    requires r.amount >= 0
    ensures var s := Run(INITIAL, acts);
            var t := Run(s, [Begin(w, r), Apply(w), Find(w), Insert(w), Commit(w)]);
            var inv := s.db.invoices[r.target.value];
            var left := inv.amount - inv.refunded;
            && left >= 0 && r.target.value in t.db.invoices
            && t.db.refunds == s.db.refunds + [Refund(r.id, r.target, r.amount, if r.amount <= left then Processed else Rejected)]
            && t.db.invoices[r.target.value].refunded == inv.refunded + (if r.amount <= left then r.amount else 0)
            && (r.amount == left ==> t.db.invoices[r.target.value] == inv.(refunded := inv.amount, status := Refunded))
            && (r.amount > left ==> t.db.invoices == s.db.invoices)
  {
    var s := Run(INITIAL, acts);
    Conservation(acts);
    UninterruptedCall(s, w, r);
    assert !Raises(s.db.invoices, s.db.refunds, r);
  }

  const SAMPLE := Request("re_1", 10, "USD", None, Some(0))
  const CHARGED := Invoice(100, "USD", 10, Refunded)
  const SAMPLE_ROW := Refund("re_1", Some(0), 10, Processed)
  const WAITING := NO_TX.(pc := Applying(SAMPLE, 0), touched := {"re_1"})
  const SECOND_WAITS := System(Db(map[0 := Invoice(100, "USD", 0, Pending)], [], []), map[1 := WAITING])
  const FIRST_COMMITTED := System(Db(map[0 := CHARGED], [SAMPLE_ROW], []), map[1 := WAITING])

  /** Two deliveries of one refund: both pass the first check, then the first commits, then the second goes on. */
  const OVERLAPPING: seq<Action> :=
    [NewInvoice(0, 100, "USD"), Begin(0, SAMPLE), Begin(1, SAMPLE), Apply(0), Find(0), Insert(0), Commit(0),
     Apply(1), Find(1), Commit(1)]

  lemma RunStep(s: System, acts: seq<Action>, k: nat)
    requires k < |acts|
    ensures Run(s, acts[k..]) == Run(Next(s, acts[k]), acts[k + 1..])
  {
    assert acts[k..][1..] == acts[k + 1..];
  }

  lemma CommitResult(s: System, w: Worker, tx: Tx)
    requires w !in s.txs && tx.pc == Idle
    ensures Next(Put(s, w, tx), Commit(w))
         == System(Db(s.db.invoices + tx.own, s.db.refunds + tx.inserts, s.db.leaks + tx.leaks), s.txs)
  {
    assert s.txs[w := tx] - {w} == s.txs;
  }

  lemma BothWait()
    ensures Run(INITIAL, OVERLAPPING) == Run(Put(SECOND_WAITS, 0, WAITING), OVERLAPPING[3..])
  {
    var db := SECOND_WAITS.db;
    RunStep(INITIAL, OVERLAPPING, 0);
    RunStep(System(db, map[]), OVERLAPPING, 1);
    assert !Known([], "re_1") && NO_TX.touched + {"re_1"} == {"re_1"};
    assert View(System(db, map[]), 0) == db.invoices;
    RunStep(System(db, map[0 := WAITING]), OVERLAPPING, 2);
    assert View(System(db, map[0 := WAITING]), 1) == db.invoices;
    assert map[0 := WAITING][1 := WAITING] == SECOND_WAITS.txs[0 := WAITING];
    assert OVERLAPPING[0..] == OVERLAPPING;
  }

  const CHARGING := Tx(Creating(SAMPLE, Some(0), Processed), map[0 := CHARGED], [], [], {"re_1"})
  const RECORDING := CHARGING.(pc := Idle, inserts := [SAMPLE_ROW])

  lemma FirstCharges()
    ensures Run(INITIAL, OVERLAPPING) == Run(Put(SECOND_WAITS, 0, CHARGING), OVERLAPPING[4..])
  {
    BothWait();
    RunStep(Put(SECOND_WAITS, 0, WAITING), OVERLAPPING, 3);
    ApplyUndisturbed(SECOND_WAITS, 0, SAMPLE, 0);
  }

  lemma FirstRecords()
    ensures Run(Put(SECOND_WAITS, 0, CHARGING), OVERLAPPING[4..]) == Run(Put(SECOND_WAITS, 0, RECORDING), OVERLAPPING[6..])
  {
    var s4 := Put(SECOND_WAITS, 0, CHARGING);
    RunStep(s4, OVERLAPPING, 4);
    RunStep(Next(s4, Find(0)), OVERLAPPING, 5);
    FindAndInsert(SECOND_WAITS, 0, SAMPLE, CHARGING);
  }

  lemma FirstCommits()
    ensures Run(INITIAL, OVERLAPPING) == Run(FIRST_COMMITTED, OVERLAPPING[7..])
  {
    FirstCharges();
    FirstRecords();
    RunStep(Put(SECOND_WAITS, 0, RECORDING), OVERLAPPING, 6);
    assert OVERLAPPING[6] == Commit(0);
    CommitResult(SECOND_WAITS, 0, RECORDING);
    assert SECOND_WAITS.db.invoices + map[0 := CHARGED] == map[0 := CHARGED];
    assert SECOND_WAITS.db.refunds + [SAMPLE_ROW] == [SAMPLE_ROW];
    assert SECOND_WAITS.db.leaks + RECORDING.leaks == [];
  }

  /** The condition matters: two overlapping deliveries of one refund of 10 move the invoice by 20. */
  lemma OverlapCanLeak()
    ensures var db := Run(INITIAL, OVERLAPPING).db;
            0 in db.invoices && db.invoices[0].refunded == 20 && ProcessedSum(db.refunds, 0) == 10
  {
    FirstCommits();
    RunStep(FIRST_COMMITTED, OVERLAPPING, 7);
    assert View(FIRST_COMMITTED, 1) == FIRST_COMMITTED.db.invoices;
    var tx := WAITING.(pc := Creating(SAMPLE, Some(0), Processed), own := map[0 := Applied(CHARGED, 10)]);
    var s8 := System(FIRST_COMMITTED.db, map[1 := tx]);
    RunStep(s8, OVERLAPPING, 8);
    assert Known([SAMPLE_ROW], "re_1") by { assert [SAMPLE_ROW][0].id == "re_1"; }
    RunStep(Next(s8, Find(1)), OVERLAPPING, 9);
    assert OVERLAPPING[10..] == [] && [SAMPLE_ROW][..0] == [];
  }
}
