/**
 The gateway's fixed-window counter for one key: INCR, and EXPIRE by whoever counted to one.

 The two commands are separate steps, so requests interleave between them; a command may be
 lost, with or without having been applied, and a process may die in between, which leaves a key
 that never expires.  Only `auth` denies on errors; other services let the request through.
 */
module RateLimiter {
  import opened Prelude

  /** The constants of one key. */
  datatype Config = Config(limit: int, window: int, isAuth: bool)

  /**
   The stored counter of one lifetime, born at the INCR that found no key; `waiting` while the
   request that created it has yet to send EXPIRE.
   */
  datatype Key = Key(life: nat, born: int, count: nat, expiry: Option<int>, waiting: bool)

  datatype Admission =
    | Counted(time: int, life: nat, count: nat) // within the limit: the count it saw, in a lifetime of the key
    | FailedOpen(time: int)                     // let through because of an error

  /** Who was admitted, in the order of the decisions. */
  datatype Log = Nobody | After(before: Log, last: Admission)

  predicate Contains(log: Log, a: Admission) {
    log.After? && (log.last == a || Contains(log.before, a))
  }

  /** `births` are the times at which the key came into being; the last is the current lifetime. */
  datatype System = System(now: int, key: Option<Key>, births: seq<int>, admitted: Log)

  datatype Outcome = Answered | Lost(applied: bool)

  datatype Action =
    | Incr(now: int, outcome: Outcome)
    | Expire(now: int, outcome: Outcome)

  function Initial(now: int): System {
    System(now, None, [], Nobody)
  }

  /** The key as Redis sees it at a time. */
  function LiveKey(key: Option<Key>, now: int): Option<Key> {
    if key.Some? && key.value.expiry.Some? && now >= key.value.expiry.value then None else key
  }

  /** What an error admits: `auth` nobody, other services the request. */
  function WithError(c: Config, log: Log, time: int): Log {
    if c.isAuth then log else After(log, FailedOpen(time))
  }

  /** Time passes, and the key may go with it. */
  function Aged(s: System, now: int): System {
    s.(now := now, key := LiveKey(s.key, now))
  }

  /** INCR at the current time. */
  function Incremented(c: Config, s: System, outcome: Outcome): System {
    if outcome == Lost(false) then s.(admitted := WithError(c, s.admitted, s.now))
    else if s.key.None? then
      System(s.now, Some(Key(|s.births|, s.now, 1, None, outcome.Answered?)), s.births + [s.now],
             if outcome.Answered? then s.admitted else WithError(c, s.admitted, s.now))
    else
      var key := s.key.value.(count := s.key.value.count + 1);
      s.(key := Some(key),
         admitted := if outcome.Lost? then WithError(c, s.admitted, s.now)
                     else if key.count <= c.limit then After(s.admitted, Counted(s.now, key.life, key.count))
                     else s.admitted)
  }

  /** EXPIRE, at the current time, by the request that counted to one. */
  function Expired(c: Config, s: System, outcome: Outcome): System {
    if s.key.None? || !s.key.value.waiting then s
    else
      var key := s.key.value.(waiting := false, expiry := if outcome == Lost(false) then None else Some(s.now + c.window));
      s.(key := Some(key),
         admitted := if outcome.Lost? then WithError(c, s.admitted, key.born)
                     else if 1 <= c.limit then After(s.admitted, Counted(key.born, key.life, 1))
                     else s.admitted)
  }

  /** One command reaching Redis; time never runs backwards. */
  function Next(c: Config, s: System, a: Action): System {
    if a.now < s.now then s
    else
      match a
      case Incr(now, outcome) => Incremented(c, Aged(s, now), outcome)
      case Expire(now, outcome) => Expired(c, Aged(s, now), outcome)
  }

  function Run(c: Config, s: System, acts: seq<Action>): System {
    if acts == [] then s else Next(c, Run(c, s, acts[..|acts| - 1]), acts[|acts| - 1])
  }

  // ---- The gateway's code ---------------------------------------------------------------

  class Limiter {
    const config: Config
    var state: System

    constructor (config: Config, now: int)
      ensures this.config == config && state == Initial(now)
    {
      this.config, state := config, Initial(now);
    }

    /** One request alone: the answers to its INCR and, if it needs one, its EXPIRE. */
    method CheckKey(incrAt: int, incr: Outcome, expireAt: int, expire: Outcome) returns (allowed: bool)
      requires state.now <= incrAt <= expireAt && (state.key.Some? ==> !state.key.value.waiting && state.key.value.count >= 1)
      modifies this
      ensures var whole := Run(config, old(state), [Incr(incrAt, incr), Expire(expireAt, expire)]);
              state.admitted == whole.admitted && state.births == whole.births
              && LiveKey(state.key, expireAt) == LiveKey(whole.key, expireAt)
      ensures state.key.Some? ==> !state.key.value.waiting && state.key.value.count >= 1
      // A key that is absent or has run out counts from one; an error decides by the service, and otherwise the count does.
      ensures var key := old(state).key;
              var anew := key.None? || (key.value.expiry.Some? && key.value.expiry.value <= incrAt);
              var count := if anew then 1 else key.value.count + 1;
              allowed <==> if incr.Lost? || (anew && expire.Lost?) then !config.isAuth else count <= config.limit
      // Whoever counts to one sets the expiry.
      ensures var key := old(state).key;
              incr == Answered && (key.None? || (key.value.expiry.Some? && key.value.expiry.value <= incrAt)) ==>
                && state.key.Some? && state.key.value.count == 1
                && state.key.value.expiry == if expire == Lost(false) then None else Some(expireAt + config.window)
      ensures allowed ==> state.admitted.After? && state.admitted.before == old(state).admitted
      ensures !allowed ==> state.admitted == old(state).admitted
    {
      TwoSteps(config, state, Incr(incrAt, incr), Expire(expireAt, expire));
      var key := LiveKey(state.key, incrAt);
      var births, count := state.births, 0;
      if incr != Lost(false) {
        if key.None? {
          count, key, births := 1, Some(Key(|births|, incrAt, 1, None, incr.Answered?)), births + [incrAt];
        } else {
          count := key.value.count + 1;
          key := Some(key.value.(count := count));
        }
      }
      if incr.Lost? {
        allowed := !config.isAuth;
        state := System(incrAt, key, births, if allowed then After(state.admitted, FailedOpen(incrAt)) else state.admitted);
        return;
      }
      if count == 1 {
        key := Some(key.value.(waiting := false,
                               expiry := if expire == Lost(false) then None else Some(expireAt + config.window)));
        if expire.Lost? {
          allowed := !config.isAuth;
          state := System(expireAt, key, births, if allowed then After(state.admitted, FailedOpen(incrAt)) else state.admitted);
          return;
        }
      }
      allowed := count <= config.limit;
      state := System(incrAt, key, births,
                      if allowed then After(state.admitted, Counted(incrAt, key.value.life, count)) else state.admitted);
    }
  }

  lemma RunPush(c: Config, s: System, acts: seq<Action>, a: Action)
    ensures Run(c, s, acts + [a]) == Next(c, Run(c, s, acts), a)
  {
    assert (acts + [a])[..|acts|] == acts;
  }

  lemma TwoSteps(c: Config, s: System, a: Action, b: Action)
    ensures Run(c, s, [a, b]) == Next(c, Next(c, s, a), b)
  {
    assert [a, b] == [a] + [b] && [a] == [] + [a];
    RunPush(c, s, [], a);
    RunPush(c, s, [a], b);
  }

  // ---- Counting admissions ----------------------------------------------------------------

  /** How often a lifetime of the key admitted the request that created it. */
  function First(log: Log, life: nat): nat {
    if log.Nobody? then 0
    else First(log.before, life) + if log.last.Counted? && log.last.life == life && log.last.count <= 1 then 1 else 0
  }

  /** How many later requests a lifetime admitted. */
  function Later(log: Log, life: nat): nat {
    if log.Nobody? then 0
    else Later(log.before, life) + if log.last.Counted? && log.last.life == life && log.last.count > 1 then 1 else 0
  }

  /** The admissions of requests counted in [from, to). */
  function CountedIn(log: Log, from: int, to: int): nat {
    if log.Nobody? then 0
    else CountedIn(log.before, from, to) + if log.last.Counted? && from <= log.last.time < to then 1 else 0
  }

  /** All admissions in [from, to). */
  function AdmittedIn(log: Log, from: int, to: int): nat {
    if log.Nobody? then 0
    else AdmittedIn(log.before, from, to) + if from <= log.last.time < to then 1 else 0
  }

  // ---- The invariant ----------------------------------------------------------------------

  /** Each lifetime lasts at least a window, and its admissions fall within it. */
  ghost predicate LivesApart(c: Config, births: seq<int>, admitted: Log, now: int) {
    && (forall i :: 0 <= i < |births| - 1 ==> births[i] + c.window <= births[i + 1])
    && (forall i :: 0 <= i < |births| ==> births[i] <= now)
    && (forall a :: Contains(admitted, a) && a.Counted? ==>
          && a.life < |births| && births[a.life] <= a.time <= now
          && (a.count <= 1 ==> a.time == births[a.life])
          && (a.life + 1 < |births| ==> a.time < births[a.life + 1]))
  }

  /** No admission of a lifetime is as late as a time. */
  ghost predicate AllBefore(admitted: Log, life: nat, time: int) {
    forall a :: Contains(admitted, a) && a.Counted? && a.life == life ==> a.time < time
  }

  /** The key's lifetime is the last one, and not over before a window has passed nor before its admissions. */
  ghost predicate KeyFits(c: Config, s: System) {
    match s.key
    case None =>
      s.births != [] ==> s.births[|s.births| - 1] + c.window <= s.now && AllBefore(s.admitted, |s.births| - 1, s.now)
    case Some(key) =>
      && |s.births| == key.life + 1 && s.births[key.life] == key.born
      && (key.waiting ==> key.expiry.None?)
      && (key.expiry.Some? ==> key.born + c.window <= key.expiry.value && AllBefore(s.admitted, key.life, key.expiry.value))
  }

  /** A lifetime admits its creator at most once, and later requests only below the limit and its count. */
  ghost predicate GrantsFit(c: Config, s: System) {
    && (forall life :: First(s.admitted, life) <= if c.limit >= 1 then 1 else 0)
    && (forall life :: Later(s.admitted, life) <= Max(0, c.limit - 1))
    && (forall life :: life >= |s.births| ==> First(s.admitted, life) == 0 && Later(s.admitted, life) == 0)
    && (s.key.Some? ==>
          var key := s.key.value;
          && key.life < |s.births| && key.count >= 1
          && Later(s.admitted, key.life) <= Max(0, Min(key.count, c.limit) - 1)
          && (key.waiting ==> First(s.admitted, key.life) == 0))
  }

  ghost predicate Times(c: Config, s: System) {
    LivesApart(c, s.births, s.admitted, s.now) && KeyFits(c, s)
  }

  ghost predicate Inv(c: Config, s: System) {
    Times(c, s) && GrantsFit(c, s)
  }

  lemma GrantsPush(log: Log, a: Admission)
    ensures forall life ::
              First(After(log, a), life) == First(log, life) + if a.Counted? && a.life == life && a.count <= 1 then 1 else 0
    ensures forall life ::
              Later(After(log, a), life) == Later(log, life) + if a.Counted? && a.life == life && a.count > 1 then 1 else 0
  {
  }

  lemma AgedKeepsInv(c: Config, s: System, now: int)
    requires Inv(c, s) && s.now <= now && c.window > 0
    ensures Inv(c, Aged(s, now))
  {
  }

  /** Admissions made because of an error change nothing that is counted. */
  lemma ErrorKeepsInv(c: Config, s: System, time: int)
    requires Inv(c, s)
    ensures Inv(c, s.(admitted := WithError(c, s.admitted, time)))
  {
    GrantsPush(s.admitted, FailedOpen(time));
  }

  /** One more counted admission in the current lifetime. */
  lemma CountedKeepsTimes(c: Config, s: System, time: int, count: nat)
    requires Times(c, s) && s.key.Some?
    requires s.key.value.born <= time <= s.now && (count <= 1 ==> time == s.key.value.born)
    requires s.key.value.expiry.Some? ==> time < s.key.value.expiry.value
    ensures var t := s.(admitted := After(s.admitted, Counted(time, s.key.value.life, count)));
            Times(c, t)
  {
  }

  lemma BirthKeepsInv(c: Config, s: System, waiting: bool)
    requires Inv(c, s) && s.key.None? && c.window > 0
    ensures Inv(c, System(s.now, Some(Key(|s.births|, s.now, 1, None, waiting)), s.births + [s.now], s.admitted))
  {
    var births := s.births + [s.now];
    forall i | 0 <= i < |births| - 1 ensures births[i] + c.window <= births[i + 1] {
      if i + 1 < |s.births| {
        assert births[i] == s.births[i] && births[i + 1] == s.births[i + 1];
      }
    }
  }

  lemma BumpKeepsGrants(c: Config, s: System)
    requires GrantsFit(c, s) && s.key.Some?
    ensures GrantsFit(c, Incremented(c, s, Answered))
  {
    GrantsPush(s.admitted, Counted(s.now, s.key.value.life, s.key.value.count + 1));
  }

  lemma BumpKeepsTimes(c: Config, s: System)
    requires Times(c, s) && s.key.Some? && s.key.value.count >= 1 && LiveKey(s.key, s.now) == s.key
    ensures Times(c, Incremented(c, s, Answered))
  {
    if s.key.value.count + 1 <= c.limit {
      CountedKeepsTimes(c, s, s.now, s.key.value.count + 1);
    }
  }

  lemma IncrementedKeepsInv(c: Config, s: System, outcome: Outcome)
    requires Inv(c, s) && LiveKey(s.key, s.now) == s.key && c.window > 0
    ensures Inv(c, Incremented(c, s, outcome))
  {
    if outcome == Lost(false) {
      ErrorKeepsInv(c, s, s.now);
    } else if s.key.None? {
      var t := System(s.now, Some(Key(|s.births|, s.now, 1, None, outcome.Answered?)), s.births + [s.now], s.admitted);
      BirthKeepsInv(c, s, outcome.Answered?);
      ErrorKeepsInv(c, t, s.now);
    } else if outcome.Answered? {
      BumpKeepsTimes(c, s);
      BumpKeepsGrants(c, s);
    } else {
      ErrorKeepsInv(c, s.(key := Some(s.key.value.(count := s.key.value.count + 1))), s.now);
    }
  }

  /** The key once its EXPIRE has been dealt with. */
  function Settled(c: Config, key: Key, now: int, outcome: Outcome): Key {
    key.(waiting := false, expiry := if outcome == Lost(false) then None else Some(now + c.window))
  }

  lemma SettledKeepsTimes(c: Config, s: System, outcome: Outcome)
    requires Times(c, s) && c.window > 0 && s.key.Some? && s.key.value.waiting
    ensures Times(c, s.(key := Some(Settled(c, s.key.value, s.now, outcome))))
  {
  }

  lemma SettledKeepsGrants(c: Config, s: System, outcome: Outcome)
    requires GrantsFit(c, s) && s.key.Some?
    ensures GrantsFit(c, s.(key := Some(Settled(c, s.key.value, s.now, outcome))))
  {
  }

  lemma ExpiredKeepsGrants(c: Config, s: System)
    requires GrantsFit(c, s) && s.key.Some? && s.key.value.waiting && 1 <= c.limit
    ensures GrantsFit(c, Expired(c, s, Answered))
  {
    GrantsPush(s.admitted, Counted(s.key.value.born, s.key.value.life, 1));
  }

  lemma ExpiredKeepsInv(c: Config, s: System, outcome: Outcome)
    requires Inv(c, s) && c.window > 0
    ensures Inv(c, Expired(c, s, outcome))
  {
    if s.key.Some? && s.key.value.waiting {
      var t := s.(key := Some(Settled(c, s.key.value, s.now, outcome)));
      SettledKeepsTimes(c, s, outcome);
      SettledKeepsGrants(c, s, outcome);
      if outcome.Lost? {
        ErrorKeepsInv(c, t, t.key.value.born);
      } else if 1 <= c.limit {
        CountedKeepsTimes(c, t, t.key.value.born, 1);
        ExpiredKeepsGrants(c, s);
      }
    }
  }

  lemma {:induction false} RunKeepsInv(c: Config, now: int, acts: seq<Action>)
    requires c.window > 0
    ensures Inv(c, Run(c, Initial(now), acts))
  {
    if acts != [] {
      var before, a := acts[..|acts| - 1], acts[|acts| - 1];
      RunKeepsInv(c, now, before);
      var s := Run(c, Initial(now), before);
      if s.now <= a.now {
        AgedKeepsInv(c, s, a.now);
        var aged := Aged(s, a.now);
        match a
        case Incr(_, outcome) => IncrementedKeepsInv(c, aged, outcome);
        case Expire(_, outcome) => ExpiredKeepsInv(c, aged, outcome);
      }
    }
  }

  // ---- Main results -----------------------------------------------------------------------

  /** Each lifetime of the key admits at most the limit. */
  lemma LifetimeBound(c: Config, now: int, acts: seq<Action>, life: nat)
    requires c.window > 0
    ensures var admitted := Run(c, Initial(now), acts).admitted;
            First(admitted, life) + Later(admitted, life) <= Max(0, c.limit)
  {
    RunKeepsInv(c, now, acts);
  }

  lemma {:induction false} BirthsApart(c: Config, births: seq<int>, i: nat, j: nat)
    requires forall k :: 0 <= k < |births| - 1 ==> births[k] + c.window <= births[k + 1]
    requires i < j < |births| && c.window > 0
    ensures births[i] + c.window <= births[j]
  {
    if i + 1 < j {
      BirthsApart(c, births, i, j - 1);
    }
  }

  /** The last of the first n lifetimes that had begun at a time. */
  function LifeAt(births: seq<int>, time: int, n: nat): nat
    requires n <= |births|
  {
    if n == 0 then 0 else if births[n - 1] <= time then n - 1 else LifeAt(births, time, n - 1)
  }

  lemma {:induction false} LifeAtIsLast(births: seq<int>, time: int, n: nat)
    requires n <= |births|
    ensures forall i :: LifeAt(births, time, n) < i < n ==> births[i] > time
    ensures n > 0 ==> LifeAt(births, time, n) < n && (births[LifeAt(births, time, n)] <= time || LifeAt(births, time, n) == 0)
  {
    if n > 0 && births[n - 1] > time {
      LifeAtIsLast(births, time, n - 1);
    }
  }

  /** A window meets at most two lifetimes. */
  lemma WindowMeetsTwoLives(c: Config, births: seq<int>, admitted: Log, now: int, from: int, a: Admission)
    requires LivesApart(c, births, admitted, now) && c.window > 0
    requires Contains(admitted, a) && a.Counted? && from <= a.time < from + c.window
    ensures a.life == LifeAt(births, from, |births|) || a.life == LifeAt(births, from, |births|) + 1
  {
    var m := LifeAt(births, from, |births|);
    LifeAtIsLast(births, from, |births|);
    if a.life < m {
      if a.life + 1 < m {
        BirthsApart(c, births, a.life + 1, m);
      }
    } else if a.life > m + 1 {
      BirthsApart(c, births, m + 1, a.life);
    }
  }

  lemma {:induction false} CountedInOneLife(admitted: Log, from: int, to: int, m: nat)
    requires forall a :: Contains(admitted, a) && a.Counted? && from <= a.time < to ==> a.life == m
    ensures CountedIn(admitted, from, to) <= First(admitted, m) + Later(admitted, m)
  {
    if admitted.After? {
      CountedInOneLife(admitted.before, from, to, m);
    }
  }

  lemma {:induction false} CountedInTwoLives(admitted: Log, from: int, to: int, m: nat)
    requires forall a :: Contains(admitted, a) && a.Counted? && from <= a.time < to ==>
               (a.life == m && a.count > 1) || a.life == m + 1
    ensures CountedIn(admitted, from, to) <= Later(admitted, m) + First(admitted, m + 1) + Later(admitted, m + 1)
  {
    if admitted.After? {
      CountedInTwoLives(admitted.before, from, to, m);
    }
  }

  /**
     Every half-open interval as long as the window holds fewer than twice the limit of requests
     admitted by count: when it meets two lifetimes, it misses the creation of the first.
     */
  lemma SlidingWindow(c: Config, now: int, acts: seq<Action>, from: int)
    requires c.window > 0
    ensures CountedIn(Run(c, Initial(now), acts).admitted, from, from + c.window) <= Max(0, 2 * c.limit - 1)
  {
    RunKeepsInv(c, now, acts);
    var s := Run(c, Initial(now), acts);
    var m := LifeAt(s.births, from, |s.births|);
    LifeAtIsLast(s.births, from, |s.births|);
    forall a | Contains(s.admitted, a) && a.Counted? && from <= a.time < from + c.window
      ensures a.life == m || a.life == m + 1
      ensures s.births[m] >= from ==> a.life == m
      ensures s.births[m] < from && a.life == m ==> a.count > 1
    {
      WindowMeetsTwoLives(c, s.births, s.admitted, s.now, from, a);
    }
    if s.births == [] || s.births[m] >= from {
      CountedInOneLife(s.admitted, from, from + c.window, m);
    } else {
      CountedInTwoLives(s.admitted, from, from + c.window, m);
    }
  }

  /** So many requests at one time. */
  function Burst(n: nat, time: int): seq<Action> {
    if n == 0 then [] else Burst(n - 1, time) + [Incr(time, Answered)]
  }

  /** A lifetime that admits all it may: its first request, and later the rest of the limit at once. */
  function LifeTrace(c: Config, born: int, rest: int): seq<Action>
    requires c.limit >= 1
  {
    [Incr(born, Answered), Expire(born, Answered)] + Burst(c.limit - 1, rest)
  }

  /** One lifetime that is used up just before its end, and another that is used up as soon as it begins. */
  function BusyTrace(c: Config): seq<Action>
    requires c.limit >= 1
  {
    LifeTrace(c, 0, c.window - 1) + LifeTrace(c, c.window, c.window)
  }

  lemma {:induction false} RunConcat(c: Config, s: System, a: seq<Action>, b: seq<Action>)
    ensures Run(c, s, a + b) == Run(c, Run(c, s, a), b)
  {
    if b == [] {
      assert a + b == a;
    } else {
      RunConcat(c, s, a, b[..|b| - 1]);
      assert (a + b)[..|a + b| - 1] == a + b[..|b| - 1];
    }
  }

  lemma OneIsAdmitted(c: Config, s: System, time: int, from: int, to: int)
    requires s.key.Some? && LiveKey(s.key, time) == s.key && s.now <= time && from <= time < to
    requires s.key.value.count + 1 <= c.limit
    ensures var t := Next(c, s, Incr(time, Answered));
            && t.key == Some(s.key.value.(count := s.key.value.count + 1)) && t.now == time
            && CountedIn(t.admitted, from, to) == CountedIn(s.admitted, from, to) + 1
  {
  }

  /** The state after a burst. */
  function AfterBurst(c: Config, s: System, n: nat, time: int): System {
    if n == 0 then s else Next(c, AfterBurst(c, s, n - 1, time), Incr(time, Answered))
  }

  lemma {:induction false} RunBurst(c: Config, s: System, n: nat, time: int)
    ensures Run(c, s, Burst(n, time)) == AfterBurst(c, s, n, time)
  {
    if n > 0 {
      var before := Burst(n - 1, time);
      RunBurst(c, s, n - 1, time);
      RunPush(c, s, before, Incr(time, Answered));
      assert Burst(n, time) == before + [Incr(time, Answered)];
    }
  }

  /** A burst within the limit and the lifetime is admitted whole. */
  lemma {:induction false} BurstIsAdmitted(c: Config, s: System, n: nat, time: int, from: int, to: int)
    requires s.key.Some? && LiveKey(s.key, time) == s.key && s.now <= time && from <= time < to
    requires s.key.value.count + n <= c.limit
    ensures var t := AfterBurst(c, s, n, time);
            && t.key == Some(s.key.value.(count := s.key.value.count + n)) && t.now <= time
            && CountedIn(t.admitted, from, to) == CountedIn(s.admitted, from, to) + n
  {
    if n > 0 {
      BurstIsAdmitted(c, s, n - 1, time, from, to);
      OneIsAdmitted(c, AfterBurst(c, s, n - 1, time), time, from, to);
    }
  }

  /** The state after the first request of a new lifetime. */
  function Born(c: Config, s: System, time: int): System {
    Next(c, Next(c, s, Incr(time, Answered)), Expire(time, Answered))
  }

  /** A new lifetime begins with an admitted request. */
  lemma BirthIsAdmitted(c: Config, s: System, time: int, from: int, to: int)
    requires c.limit >= 1 && LiveKey(s.key, time).None? && s.now <= time
    ensures var t := Born(c, s, time);
            && t.key == Some(Key(|s.births|, time, 1, Some(time + c.window), false)) && t.now == time
            && CountedIn(t.admitted, from, to) == CountedIn(s.admitted, from, to) + if from <= time < to then 1 else 0
  {
  }

  lemma RunLife(c: Config, s: System, born: int, rest: int)
    requires c.limit >= 1
    ensures Run(c, s, LifeTrace(c, born, rest)) == AfterBurst(c, Born(c, s, born), c.limit - 1, rest)
  {
    RunConcat(c, s, [Incr(born, Answered), Expire(born, Answered)], Burst(c.limit - 1, rest));
    TwoSteps(c, s, Incr(born, Answered), Expire(born, Answered));
    RunBurst(c, Born(c, s, born), c.limit - 1, rest);
  }

  lemma LifeIsAdmitted(c: Config, s: System, born: int, rest: int, from: int, to: int)
    requires c.limit >= 1 && LiveKey(s.key, born).None? && s.now <= born <= rest < born + c.window && from <= rest < to
    ensures var t := Run(c, s, LifeTrace(c, born, rest));
            && t.key.Some? && t.key.value.expiry == Some(born + c.window) && t.now <= rest
            && CountedIn(t.admitted, from, to) == CountedIn(s.admitted, from, to) + c.limit - if from <= born < to then 0 else 1
  {
    RunLife(c, s, born, rest);
    BirthIsAdmitted(c, s, born, from, to);
    BurstIsAdmitted(c, Born(c, s, born), c.limit - 1, rest, from, to);
  }

  /** That bound is reached, for every limit and every window of more than one second. */
  lemma BoundIsReached(c: Config)
    requires c.limit >= 1 && c.window > 1
    ensures CountedIn(Run(c, Initial(0), BusyTrace(c)).admitted, c.window - 1, 2 * c.window - 1) == 2 * c.limit - 1
  {
    var from, to := c.window - 1, 2 * c.window - 1;
    RunConcat(c, Initial(0), LifeTrace(c, 0, c.window - 1), LifeTrace(c, c.window, c.window));
    LifeIsAdmitted(c, Initial(0), 0, c.window - 1, from, to);
    LifeIsAdmitted(c, Run(c, Initial(0), LifeTrace(c, 0, c.window - 1)), c.window, c.window, from, to);
  }

  // ---- What errors add --------------------------------------------------------------------

  /** An error lets a request of any service but `auth` through, at once. */
  lemma ErrorsAreLetThrough(c: Config, s: System, now: int, applied: bool)
    requires s.now <= now
    ensures Next(c, s, Incr(now, Lost(applied))).admitted == if c.isAuth then s.admitted else After(s.admitted, FailedOpen(now))
    ensures s.key.Some? && s.key.value.waiting && s.key.value.expiry.None? ==>
              Next(c, s, Expire(now, Lost(applied))).admitted
              == if c.isAuth then s.admitted else After(s.admitted, FailedOpen(s.key.value.born))
  {
  }

  /** How many requests were let through because of an error. */
  function Failures(admitted: Log): nat {
    if admitted.Nobody? then 0 else Failures(admitted.before) + if admitted.last.FailedOpen? then 1 else 0
  }

  function Losses(acts: seq<Action>): nat {
    if acts == [] then 0 else Losses(acts[..|acts| - 1]) + if acts[|acts| - 1].outcome.Lost? then 1 else 0
  }

  lemma {:induction false} AdmittedSplits(admitted: Log, from: int, to: int)
    ensures AdmittedIn(admitted, from, to) <= CountedIn(admitted, from, to) + Failures(admitted)
  {
    if admitted.After? {
      AdmittedSplits(admitted.before, from, to);
    }
  }

  lemma FailuresStep(c: Config, s: System, a: Action)
    ensures Failures(Next(c, s, a).admitted) <= Failures(s.admitted) + if a.outcome.Lost? && !c.isAuth then 1 else 0
  {
  }

  lemma {:induction false} FailuresAreLosses(c: Config, s: System, acts: seq<Action>)
    requires s.admitted.Nobody?
    ensures Failures(Run(c, s, acts).admitted) <= if c.isAuth then 0 else Losses(acts)
  {
    if acts != [] {
      FailuresAreLosses(c, s, acts[..|acts| - 1]);
      FailuresStep(c, Run(c, s, acts[..|acts| - 1]), acts[|acts| - 1]);
    }
  }

  /**
     All admissions together: `auth` keeps the bound whatever fails, any other service exceeds it by
     no more than the commands that were lost.
     */
  lemma AdmissionBound(c: Config, now: int, acts: seq<Action>, from: int)
    requires c.window > 0
    ensures AdmittedIn(Run(c, Initial(now), acts).admitted, from, from + c.window)
            <= Max(0, 2 * c.limit - 1) + if c.isAuth then 0 else Losses(acts)
  {
    var admitted := Run(c, Initial(now), acts).admitted;
    SlidingWindow(c, now, acts, from);
    AdmittedSplits(admitted, from, from + c.window);
    FailuresAreLosses(c, Initial(now), acts);
  }
}
