/**
 Milestone-tranched funding: a commitment is split 10/20/30/40 into tranches that are
 released one at a time, each paying out once, until the milestone is killed.

 Money is counted in cents.  A commitment may be given with fractions of a cent; the columns
 keep whole cents, so the commitment and each tranche are rounded on their own, half away from zero.
 */
module Milestones {
  import opened Prelude

  datatype TrancheStatus = Locked | Released | Reverted

  datatype Tranche = Tranche(number: nat, percentage: nat, amount: int, status: TrancheStatus)

  datatype Error = NotAuthorized | MilestoneKilled | TrancheNotFound | InvalidTransition

  const PERCENTAGES: seq<nat> := [10, 20, 30, 40]

  /** What a column keeps of an amount: whole cents, rounded half away from zero. */
  function Stored(amount: real): int {
    if amount >= 0.0 then (amount + 0.5).Floor else -((0.5 - amount).Floor)
  }

  /** Nothing is further than half a cent from what is stored, and a tie goes away from zero. */
  lemma StoredIsNearest(amount: real)
    ensures amount >= 0.0 ==> Stored(amount) as real - 0.5 <= amount < Stored(amount) as real + 0.5
    ensures amount <= 0.0 ==> Stored(amount) as real - 0.5 < amount <= Stored(amount) as real + 0.5
  {
  }

  /** The exact amount of a tranche. */
  function Exact(given: real, percentage: nat): real {
    given * percentage as real / 100.0
  }

  /** May a tranche move between these states? */
  predicate Allowed(from: TrancheStatus, to: TrancheStatus) {
    from == Locked || from == to
  }

  /** A milestone with its tranches and the payouts accrued under its tranche keys. */
  datatype State = State(total: int, killed: bool, tranches: seq<Tranche>, paid: map<nat, int>)

  function NewTranche(given: real, i: nat): Tranche
    requires i < 4
  {
    Tranche(i + 1, PERCENTAGES[i], Stored(Exact(given, PERCENTAGES[i])), Locked)
  }

  /** A new milestone; the tranches are split from the commitment as it was given. */
  function Created(given: real): State {
    State(Stored(given), false, [NewTranche(given, 0), NewTranche(given, 1), NewTranche(given, 2), NewTranche(given, 3)], map[])
  }

  /** Tenths of the commitment, in this order, each stored on its own. */
  lemma CreatedInTenths(given: real)
    ensures Created(given) ==
            State(Stored(given), false,
                  [Tranche(1, 10, Stored(given * 0.1), Locked), Tranche(2, 20, Stored(given * 0.2), Locked),
                   Tranche(3, 30, Stored(given * 0.3), Locked), Tranche(4, 40, Stored(given * 0.4), Locked)],
                  map[])
  {
    assert Exact(given, 10) == given * 0.1 && Exact(given, 20) == given * 0.2;
    assert Exact(given, 30) == given * 0.3 && Exact(given, 40) == given * 0.4;
  }

  predicate WellFormed(s: State) {
    && |s.tranches| == 4
    && forall i :: 0 <= i < 4 ==> s.tranches[i].number == i + 1
  }

  /** Why a release is refused, if it is. */
  function ReleaseError(s: State, number: int, authorized: bool): Option<Error>
    requires WellFormed(s)
  {
    if !authorized then Some(NotAuthorized)
    else if s.killed then Some(MilestoneKilled)
    else if !(1 <= number <= 4) then Some(TrancheNotFound)
    else if s.tranches[number - 1].status == Reverted then Some(InvalidTransition)
    else None
  }

  /** A release moves one tranche and pays its amount unless its key has been paid before. */
  function AfterRelease(s: State, number: int, authorized: bool): State
    requires WellFormed(s)
  {
    if ReleaseError(s, number, authorized).Some? then s
    else
      var t := s.tranches[number - 1];
      s.(tranches := s.tranches[number - 1 := t.(status := Released)],
         paid := if number in s.paid then s.paid else s.paid[number := t.amount])
  }

  function Revert(t: Tranche): Tranche {
    if t.status == Locked then t.(status := Reverted) else t
  }

  function AfterKill(s: State, authorized: bool): State {
    if !authorized then s
    else s.(killed := true, tranches := seq(|s.tranches|, i requires 0 <= i < |s.tranches| => Revert(s.tranches[i])))
  }

  class Milestone {
    var total: int
    var killed: bool
    var tranches: seq<Tranche>
    var paid: map<nat, int>

    function View(): State
      reads this
    {
      State(total, killed, tranches, paid)
    }

    predicate Valid()
      reads this
    {
      WellFormed(View())
    }

    constructor (given: real)
      ensures View() == Created(given) && Valid()
    {
      total, killed, paid := Stored(given), false, map[];
      var ts: seq<Tranche> := [];
      for i := 0 to |PERCENTAGES|
        invariant |ts| == i
        invariant forall k :: 0 <= k < i ==> ts[k] == NewTranche(given, k)
      {
        var pct := PERCENTAGES[i];
        ts := ts + [Tranche(i + 1, pct, Stored(given * pct as real / 100.0), Locked)];
      }
      tranches := ts;
    }

    method Find(number: int) returns (index: Option<nat>)
      requires Valid()
      ensures index.Some? <==> 1 <= number <= 4
      ensures index.Some? ==> index.value == number - 1
    {
      var i := 0;
      while i < |tranches|
        invariant i <= |tranches|
        invariant forall k :: 0 <= k < i ==> tranches[k].number != number
      {
        if tranches[i].number == number {
          return Some(i);
        }
        i := i + 1;
      }
      assert number != 1 && number != 2 && number != 3 && number != 4 by {
        assert tranches[0].number == 1 && tranches[1].number == 2 && tranches[2].number == 3 && tranches[3].number == 4;
      }
      return None;
    }

    /** Inserts a payout unless its idempotency key is taken; returns the amount on record. */
    method Accrue(key: nat, amount: int) returns (onRecord: int)
      modifies this`paid
      ensures key in paid && onRecord == paid[key]
      ensures paid == if key in old(paid) then old(paid) else old(paid)[key := amount]
    {
      if key !in paid {
        paid := paid[key := amount];
      }
      onRecord := paid[key];
    }

    method ReleaseTranche(number: int, authorized: bool) returns (r: Result<Tranche, Error>)
      requires Valid()
      modifies this
      ensures Valid() && View() == AfterRelease(old(View()), number, authorized)
      ensures r.Err? <==> ReleaseError(old(View()), number, authorized).Some?
      ensures r.Err? ==> r.error == ReleaseError(old(View()), number, authorized).value
      // The first error in this order, which changes nothing.
      ensures r == Err(NotAuthorized) <==> !authorized
      ensures r == Err(MilestoneKilled) <==> authorized && old(killed)
      ensures r == Err(TrancheNotFound) <==> authorized && !old(killed) && (number < 1 || number > 4)
      ensures r == Err(InvalidTransition) <==>
                authorized && !old(killed) && 1 <= number <= 4 && old(tranches)[number - 1].status == Reverted
      ensures r.Err? ==> View() == old(View())
      // Or the tranche is released, and paid once.
      ensures r.Ok? ==>
                && r.value == old(tranches)[number - 1].(status := Released)
                && tranches == old(tranches)[number - 1 := r.value]
                && paid == (if number in old(paid) then old(paid) else old(paid)[number := r.value.amount])
                && total == old(total) && !killed
    {
      if !authorized {
        return Err(NotAuthorized);
      }
      if killed {
        return Err(MilestoneKilled);
      }
      var index := Find(number);
      if index.None? {
        return Err(TrancheNotFound);
      }
      var t := tranches[index.value];
      if !Allowed(t.status, Released) {
        return Err(InvalidTransition);
      }
      t := t.(status := Released);
      tranches := tranches[index.value := t];
      var _ := Accrue(number, t.amount);
      return Ok(t);
    }

    method Kill(authorized: bool) returns (r: Result<(), Error>)
      requires Valid()
      modifies this
      ensures Valid() && View() == AfterKill(old(View()), authorized)
      ensures r == if authorized then Ok(()) else Err(NotAuthorized)
      ensures !authorized ==> View() == old(View())
      ensures authorized ==>
                && killed && total == old(total) && paid == old(paid)
                && forall i :: 0 <= i < 4 ==>
                     var t := old(tranches)[i];
                     tranches[i] == t.(status := if t.status == Released then Released else Reverted)
    {
      if !authorized {
        return Err(NotAuthorized);
      }
      killed := true;
      ghost var before := tranches;
      for i := 0 to |tranches|
        invariant |tranches| == |before| && killed && total == old(total) && paid == old(paid)
        invariant forall k :: 0 <= k < i ==> tranches[k] == Revert(before[k])
        invariant forall k :: i <= k < |tranches| ==> tranches[k] == before[k]
      {
        if tranches[i].status == Locked {
          tranches := tranches[i := tranches[i].(status := Reverted)];
        }
      }
      assert tranches == AfterKill(old(View()), true).tranches;
      return Ok(());
    }
  }

  // ---- Runs of releases and kills -----------------------------------------------

  datatype Op = Release(number: int, authorized: bool) | Kill(authorized: bool)

  function After(s: State, op: Op): (t: State)
    requires WellFormed(s)
    ensures WellFormed(t)
  {
    match op
    case Release(number, authorized) => AfterRelease(s, number, authorized)
    case Kill(authorized) => AfterKill(s, authorized)
  }

  function Run(s: State, ops: seq<Op>): (t: State)
    requires WellFormed(s)
    ensures WellFormed(t)
    decreases |ops|
  {
    if ops == [] then s else Run(After(s, ops[0]), ops[1..])
  }

  /** Money in the tranches of one state. */
  function SumIn(ts: seq<Tranche>, status: TrancheStatus): int {
    if ts == [] then 0 else (if ts[0].status == status then ts[0].amount else 0) + SumIn(ts[1..], status)
  }

  function Total(ts: seq<Tranche>): int {
    if ts == [] then 0 else ts[0].amount + Total(ts[1..])
  }

  /** Everything ever paid under the keys of these tranches. */
  function PaidTotal(ts: seq<Tranche>, paid: map<nat, int>): int {
    if ts == [] then 0
    else (if ts[0].number in paid then paid[ts[0].number] else 0) + PaidTotal(ts[1..], paid)
  }

  /** Amounts never change, payouts are exactly the released tranches, a killed milestone locks nothing. */
  ghost predicate Inv(s: State, given: real) {
    && WellFormed(s)
    && (forall i :: 0 <= i < 4 ==> s.tranches[i].amount == NewTranche(given, i).amount)
    && (forall n :: n in s.paid ==> 1 <= n <= 4)
    && (forall i :: 0 <= i < 4 ==> (s.tranches[i].status == Released <==> i + 1 in s.paid))
    && (forall i :: 0 <= i < 4 && i + 1 in s.paid ==> s.paid[i + 1] == s.tranches[i].amount)
    && (s.killed ==> forall i :: 0 <= i < 4 ==> s.tranches[i].status != Locked)
  }

  lemma {:induction false} RunKeepsInv(s: State, given: real, ops: seq<Op>)
    requires Inv(s, given)
    ensures Inv(Run(s, ops), given) && Run(s, ops).total == s.total
    decreases |ops|
  {
    if ops != [] {
      assert Inv(After(s, ops[0]), given);
      RunKeepsInv(After(s, ops[0]), given, ops[1..]);
    }
  }

  lemma {:induction false} StatesPartition(ts: seq<Tranche>)
    ensures SumIn(ts, Locked) + SumIn(ts, Released) + SumIn(ts, Reverted) == Total(ts)
  {
    if ts != [] {
      StatesPartition(ts[1..]);
    }
  }

  lemma {:induction false} PaidIsReleased(ts: seq<Tranche>, paid: map<nat, int>)
    requires forall t <- ts :: (t.status == Released <==> t.number in paid)
    requires forall t <- ts :: t.number in paid ==> paid[t.number] == t.amount
    ensures PaidTotal(ts, paid) == SumIn(ts, Released)
  {
    if ts != [] {
      PaidIsReleased(ts[1..], paid);
    }
  }

  lemma TotalOfFour(ts: seq<Tranche>)
    requires |ts| == 4
    ensures Total(ts) == ts[0].amount + ts[1].amount + ts[2].amount + ts[3].amount
  {
    var a, b, c := ts[1..], ts[1..][1..], ts[1..][1..][1..];
    assert Total(ts) == ts[0].amount + Total(a) && Total(a) == a[0].amount + Total(b);
    assert Total(b) == b[0].amount + Total(c) && Total(c) == c[0].amount + Total(c[1..]);
  }

  /** Over any serial run, money only moves between states, and what was paid is what was released. */
  lemma Conservation(given: real, ops: seq<Op>)
    ensures var s := Run(Created(given), ops);
            && SumIn(s.tranches, Locked) + SumIn(s.tranches, Released) + SumIn(s.tranches, Reverted)
               == Total(Created(given).tranches)
            && PaidTotal(s.tranches, s.paid) == SumIn(s.tranches, Released)
            && (forall n :: n in s.paid ==> 1 <= n <= 4)
            && (s.killed ==> forall t <- s.tranches :: t.status != Locked)
  {
    RunKeepsInv(Created(given), given, ops);
    var s := Run(Created(given), ops);
    StatesPartition(s.tranches);
    TotalOfFour(s.tranches);
    TotalOfFour(Created(given).tranches);
    PaidIsReleased(s.tranches, s.paid);
  }

  /** After a kill nothing is ever paid, released or locked again. */
  lemma {:induction false} KillIsFinal(s: State, given: real, ops: seq<Op>)
    requires Inv(s, given) && s.killed
    ensures Run(s, ops) == s
    decreases |ops|
  {
    if ops != [] {
      assert After(s, ops[0]).tranches == s.tranches;
      KillIsFinal(s, given, ops[1..]);
    }
  }

  /** Whatever run led to a kill, no later run changes anything. */
  lemma KilledForever(given: real, ops: seq<Op>, more: seq<Op>)
    ensures var s := Run(Created(given), ops); s.killed ==> Run(s, more) == s
  {
    RunKeepsInv(Created(given), given, ops);
    var s := Run(Created(given), ops);
    if s.killed {
      KillIsFinal(s, given, more);
    }
  }

  /** Releasing a tranche again, or releasing out of turn, never pays a key twice. */
  lemma {:induction false} PayoutsNeverChange(s: State, given: real, ops: seq<Op>, n: nat)
    requires Inv(s, given) && n in s.paid
    ensures n in Run(s, ops).paid && Run(s, ops).paid[n] == s.paid[n]
    decreases |ops|
  {
    if ops != [] {
      RunKeepsInv(s, given, ops[..1]);
      assert Run(s, ops[..1]) == After(s, ops[0]);
      PayoutsNeverChange(After(s, ops[0]), given, ops[1..], n);
    }
  }

  /** The exact split adds up to the commitment. */
  lemma ExactSplitAddsUp(given: real)
    ensures Exact(given, 10) + Exact(given, 20) + Exact(given, 30) + Exact(given, 40) == given
  {
  }

  function Abs(x: real): real { if x < 0.0 then -x else x }

  /** What is left of an amount above whole tens of cents: its last digit of cents, with any fraction. */
  function LastDigit(x: real): (r: real)
    requires x >= 0.0
    ensures 0.0 <= r < 10.0
  {
    x - 10.0 * (x / 10.0).Floor as real
  }

  /** The last digits of a commitment that the four rounded tranches meet. */
  predicate SplitFits(r: real) {
    || r < 0.5
    || 1.25 <= r < 1.5
    || 5.0 / 3.0 <= r < 3.5
    || 3.75 <= r < 4.5
    || 5.5 <= r < 6.25
    || 6.5 <= r < 25.0 / 3.0
    || 8.5 <= r < 8.75
    || 9.5 <= r
  }

  function StoredTotal(given: real): int {
    Stored(given / 10.0) + Stored(given / 5.0) + Stored(given * 3.0 / 10.0) + Stored(given * 2.0 / 5.0)
  }

  lemma ExactParts(given: real)
    ensures Exact(given, 10) == given / 10.0 && Exact(given, 20) == given / 5.0
    ensures Exact(given, 30) == given * 3.0 / 10.0 && Exact(given, 40) == given * 2.0 / 5.0
  {
  }

  lemma StoredTotalIsTotal(given: real)
    ensures Total(Created(given).tranches) == StoredTotal(given)
  {
    TotalOfFour(Created(given).tranches);
    ExactParts(given);
  }

  lemma StoredShifts(x: real, n: nat)
    requires x >= 0.0
    ensures Stored(n as real + x) == n + Stored(x)
  {
  }

  /** Whole tens of cents split without a remainder. */
  lemma OnlyTheLastDigitCounts(q: nat, r: real)
    requires 0.0 <= r < 10.0
    ensures StoredTotal(10.0 * q as real + r) == 10 * q + StoredTotal(r)
    ensures Stored(10.0 * q as real + r) == 10 * q + Stored(r)
  {
    var x := 10.0 * q as real + r;
    assert x / 10.0 == q as real + r / 10.0;
    assert x / 5.0 == (2 * q) as real + r / 5.0;
    assert x * 3.0 / 10.0 == (3 * q) as real + r * 3.0 / 10.0;
    assert x * 2.0 / 5.0 == (4 * q) as real + r * 2.0 / 5.0;
    StoredShifts(r / 10.0, q);
    StoredShifts(r / 5.0, 2 * q);
    StoredShifts(r * 3.0 / 10.0, 3 * q);
    StoredShifts(r * 2.0 / 5.0, 4 * q);
    StoredShifts(r, 10 * q);
  }

  lemma LastDigitDecides(r: real)
    requires 0.0 <= r < 10.0
    ensures StoredTotal(r) == Stored(r) <==> SplitFits(r)
  {
  }

  lemma SignsAreAlike(x: real)
    ensures Stored(-x) == -Stored(x) && StoredTotal(-x) == -StoredTotal(x)
  {
  }

  /**
   The stored tranches add up to the stored commitment exactly when the commitment's last digit of
   cents, with its fraction, is in these ranges.
   */
  lemma StoredSplitAddsUpExactly(given: real)
    ensures Total(Created(given).tranches) == Created(given).total <==> SplitFits(LastDigit(Abs(given)))
  {
    var x := Abs(given);
    var q, r := (x / 10.0).Floor, LastDigit(x);
    StoredTotalIsTotal(given);
    SignsAreAlike(x);
    OnlyTheLastDigitCounts(q, r);
    LastDigitDecides(r);
  }

  /** For whole cents: the split loses or gains a cent exactly when the last digit is 1, 5 or 9. */
  lemma WholeCentsAddUpExactly(cents: nat)
    ensures Total(Created(cents as real).tranches) == cents <==> cents % 10 !in {1, 5, 9}
  {
    var q, r := cents / 10, cents % 10;
    assert cents as real == 10.0 * q as real + r as real;
    StoredTotalIsTotal(cents as real);
    OnlyTheLastDigitCounts(q, r as real);
    LastDigitDecides(r as real);
  }

  /** A commitment of a cent and a half is stored as two cents, and its tranches as one. */
  lemma FractionsCanLoseACent()
    ensures Created(1.5).total == 2 && Total(Created(1.5).tranches) == 1
  {
    TotalOfFour(Created(1.5).tranches);
  }
}
