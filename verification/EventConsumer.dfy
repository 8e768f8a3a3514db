/**
 The at-least-once event consumer: poll, validate, deduplicate, dispatch with bounded
 retries, dead-letter, commit.

 Everything the consumer waits for takes its next answer from a script; a script that
 runs out is a process that dies, or is cancelled, at that await.  A run is any sequence
 of polls with any scripts, and of broker errors, so it covers every crash, cancellation,
 reconnect and redelivery.  What the consumer does to the world goes into a trace, and the
 results are about that trace.
 */
module EventConsumer {
  import opened Prelude

  type Partition = nat

  /** A deserialized event.  Only what dispatching depends on is kept. */
  datatype Event = Event(topic: string, id: string, idempotencyKey: Option<string>, correlated: bool, objectPayload: bool)

  /** What a raw message turns out to be. */
  datatype Body = TooLarge | Malformed | NewerSchema | Good(event: Event)

  datatype Message = Message(utf8Key: bool, body: Body)

  /** What an await can produce.  `Down` is a failed store or broker call, `DownLate` one that took effect all the same. */
  datatype Answer = Fine | Permanent | Error | ImportError | Oversized | Expired | Down | DownLate

  /** How processing ends: normally, with an exception, or not at all. */
  datatype Flow = Done | Raised | Dead

  datatype Reason = RetriesExhausted | PermanentFailure

  datatype Outcome = Handled(attempts: nat) | DeadLettered(reason: Reason, attempts: nat)

  /** One thing the consumer did, or, for `Lapsed` and `Ended`, one thing that happened to it. */
  datatype Step =
    | Polled(partition: Partition, offset: nat)
    | Quarantined(partition: Partition, offset: nat, body: Body)
    | Started(event: Event)
    | Attempted(event: Event, handler: nat, answer: Answer, repeated: bool)
    | Buried(event: Event, handler: nat, reason: Reason, attempts: nat)
    | Marked(key: string)
    | Finished(event: Event)
    | Lapsed(key: string)
    | Ended(flow: Flow)

  datatype Trace = Nothing | Then(before: Trace, last: Step)

  /** How an event was dispatched: each handler's outcome, and the trace before the first handler and after each. */
  datatype Evidence = Evidence(event: Event, outcomes: seq<Outcome>, points: seq<Trace>)

  /** What a mark rests on: a dispatch, and the later trace in which the key was marked. */
  datatype Voucher = Voucher(evidence: Evidence, at: Trace)

  /** Why the consumer was entitled to go past an offset. */
  datatype Fate =
    | Unreadable(at: Trace)
    | Duplicate(key: string, voucher: Voucher, at: Trace)
    | Dispatched(evidence: Evidence)

  datatype Turn = Poll(partition: Partition, script: seq<Answer>) | BrokerError

  const MAX_BACKOFF_MS := 60000

  /** base * 2^n */
  function Doubled(base: nat, n: nat): nat { if n == 0 then base else 2 * Doubled(base, n - 1) }

  function Keys(e: Event): seq<string> {
    [e.topic + ":" + e.id]
    + if e.idempotencyKey.Some? && e.idempotencyKey.value != "" then [e.topic + ":idem:" + e.idempotencyKey.value] else []
  }

  /** The event carries a business key of its own. */
  predicate Tagged(e: Event) {
    e.idempotencyKey.Some? && e.idempotencyKey.value != ""
  }

  /**
   Two events that deduplication takes for one: of one topic, with the same id or the same business
   key, or, as both live in one name space, with an id that spells out the other's business key.
   */
  predicate Alike(e: Event, f: Event) {
    && e.topic == f.topic
    && (|| e.id == f.id
        || (Tagged(e) && Tagged(f) && e.idempotencyKey == f.idempotencyKey)
        || (Tagged(f) && e.id == "idem:" + f.idempotencyKey.value)
        || (Tagged(e) && f.id == "idem:" + e.idempotencyKey.value))
  }

  lemma ColonSplits(a: string, x: string, b: string, y: string)
    requires ':' !in a && ':' !in b && a + ":" + x == b + ":" + y
    ensures a == b && x == y
  {
    var whole := a + ":" + x;
    assert whole[|a|] == ':' && whole[|b|] == ':';
    assert forall i :: 0 <= i < |a| ==> whole[i] == a[i];
    assert forall i :: 0 <= i < |b| ==> whole[i] == b[i];
    assert |a| == |b|;
    assert a == whole[..|a|] && b == whole[..|b|] && x == whole[|a| + 1..] && y == whole[|b| + 1..];
  }

  /** The two keys of an event, as a topic and the rest. */
  lemma KeysSplit(e: Event, key: string)
    ensures key in Keys(e) <==>
            || key == e.topic + ":" + e.id
            || (Tagged(e) && key == e.topic + ":" + ("idem:" + e.idempotencyKey.value))
  {
    if Tagged(e) {
      assert e.topic + ":idem:" + e.idempotencyKey.value == e.topic + ":" + ("idem:" + e.idempotencyKey.value);
    }
  }

  /** A key of an event, without its topic. */
  predicate Names(e: Event, rest: string) {
    rest == e.id || (Tagged(e) && rest == "idem:" + e.idempotencyKey.value)
  }

  lemma KeyNames(e: Event, key: string) returns (rest: string)
    requires key in Keys(e)
    ensures key == e.topic + ":" + rest && Names(e, rest)
  {
    KeysSplit(e, key);
    rest := if key == e.topic + ":" + e.id then e.id else "idem:" + e.idempotencyKey.value;
  }

  lemma TagsAreKept(v: string, w: string)
    requires "idem:" + v == "idem:" + w
    ensures v == w
  {
    assert v == ("idem:" + v)[5..] && w == ("idem:" + w)[5..];
  }

  lemma SharedKeyIsAlike(e: Event, f: Event, key: string)
    requires ':' !in e.topic && ':' !in f.topic && key in Keys(e) && key in Keys(f)
    ensures Alike(e, f)
  {
    var x := KeyNames(e, key);
    var y := KeyNames(f, key);
    ColonSplits(e.topic, x, f.topic, y);
    if x != e.id && x != f.id {
      TagsAreKept(e.idempotencyKey.value, f.idempotencyKey.value);
    }
  }

  /** With topics that hold no colon, two events share a deduplication key exactly when they are alike. */
  lemma KeysAreSharedExactly(e: Event, f: Event)
    requires ':' !in e.topic && ':' !in f.topic
    ensures (exists key :: key in Keys(e) && key in Keys(f)) <==> Alike(e, f)
  {
    if Alike(e, f) {
      var rest := if e.id == f.id || (Tagged(f) && e.id == "idem:" + f.idempotencyKey.value) then e.id
                  else if Tagged(e) then "idem:" + e.idempotencyKey.value else f.id;
      KeysSplit(e, e.topic + ":" + rest);
      KeysSplit(f, f.topic + ":" + rest);
      assert e.topic + ":" + rest in Keys(e) && e.topic + ":" + rest in Keys(f);
    } else if key :| key in Keys(e) && key in Keys(f) {
      SharedKeyIsAlike(e, f, key);
    }
  }

  /** And with ids that do not pose as business keys, alike are events with the same id or the same business key. */
  lemma AlikeByIdOrBusinessKey(e: Event, f: Event)
    requires !("idem:" <= e.id) && !("idem:" <= f.id)
    ensures Alike(e, f) <==>
            e.topic == f.topic && (e.id == f.id || (Tagged(e) && Tagged(f) && e.idempotencyKey == f.idempotencyKey))
  {
    assert Tagged(f) ==> "idem:" <= "idem:" + f.idempotencyKey.value;
    assert Tagged(e) ==> "idem:" <= "idem:" + e.idempotencyKey.value;
  }

  /** An id that spells out a business key, or a topic with a colon, makes strangers share a key. */
  lemma StrangersCanShareAKey()
    ensures var posing := Event("t", "idem:x", None, false, true);
            var tagged := Event("t", "1", Some("x"), false, true);
            "t:idem:x" in Keys(posing) && "t:idem:x" in Keys(tagged)
    ensures var outer := Event("a", "b:1", None, false, true);
            var inner := Event("a:b", "1", None, false, true);
            "a:b:1" in Keys(outer) && "a:b:1" in Keys(inner) && !Alike(outer, inner)
  {
    var posing, tagged := Event("t", "idem:x", None, false, true), Event("t", "1", Some("x"), false, true);
    assert "t" + ":" + "idem:x" == "t:idem:x" && "t" + ":idem:" + "x" == "t:idem:x";
    assert Keys(posing)[0] == "t:idem:x" && Keys(tagged)[1] == "t:idem:x";
    var outer, inner := Event("a", "b:1", None, false, true), Event("a:b", "1", None, false, true);
    assert "a" + ":" + "b:1" == "a:b:1" && "a:b" + ":" + "1" == "a:b:1";
    assert Keys(outer)[0] == "a:b:1" && Keys(inner)[0] == "a:b:1";
    assert |outer.topic| != |inner.topic|;
  }

  /** Stores and brokers always answer. */
  predicate NothingDown(script: seq<Answer>) {
    Down !in script && DownLate !in script
  }

  // ---- Reading the trace --------------------------------------------------------------

  predicate Extends(was: Trace, now: Trace)
    decreases now
  {
    now == was || (now.Then? && Extends(was, now.before))
  }

  lemma {:induction false} ExtendsOn(a: Trace, b: Trace, c: Trace)
    requires Extends(a, b) && Extends(b, c)
    ensures Extends(a, c)
    decreases c
  {
    if c != b {
      ExtendsOn(a, b, c.before);
    }
  }

  /** The message being processed. */
  function CurrentPoll(t: Trace): Option<(Partition, nat)> {
    match t
    case Nothing => None
    case Then(_, Polled(p, offset)) => Some((p, offset))
    case Then(_, Ended(_)) => None
    case Then(before, _) => CurrentPoll(before)
  }

  /** The event being dispatched: started, and neither all marked nor given up with its message. */
  function Open(t: Trace): Option<Event> {
    match t
    case Nothing => None
    case Then(_, Started(e)) => Some(e)
    case Then(_, Finished(_)) => None
    case Then(_, Ended(_)) => None
    case Then(before, _) => Open(before)
  }

  predicate OpenFor(t: Trace, key: string) {
    Open(t).Some? && key in Keys(Open(t).value)
  }

  /** Attempts of a handler in the current dispatch. */
  function AttemptsNow(t: Trace, handler: nat): nat {
    match t
    case Nothing => 0
    case Then(_, Started(_)) => 0
    case Then(before, Attempted(_, h, _, _)) => AttemptsNow(before, handler) + if h == handler then 1 else 0
    case Then(before, _) => AttemptsNow(before, handler)
  }

  /** Dispatches begun of events with a deduplication key. */
  function Starts(key: string, t: Trace): nat {
    if t.Nothing? then 0
    else Starts(key, t.before) + if t.last.Started? && key in Keys(t.last.event) then 1 else 0
  }

  /** Dispatches of such events that were interrupted before their last mark: the message ended while one was open. */
  function Interruptions(key: string, t: Trace): nat {
    if t.Nothing? then 0
    else Interruptions(key, t.before) + if t.last.Ended? && t.last.flow != Done && OpenFor(t.before, key) then 1 else 0
  }

  function Finishes(key: string, t: Trace): nat {
    if t.Nothing? then 0
    else Finishes(key, t.before) + if t.last.Finished? && key in Keys(t.last.event) then 1 else 0
  }

  function Lapses(key: string, t: Trace): nat {
    if t.Nothing? then 0
    else Lapses(key, t.before) + if t.last == Lapsed(key) then 1 else 0
  }

  /** All attempts ever. */
  function Attempts(t: Trace): nat {
    if t.Nothing? then 0 else Attempts(t.before) + if t.last.Attempted? then 1 else 0
  }

  /** Handlers run, and give up, only in the dispatch of their event, and within their budget. */
  predicate Disciplined(t: Trace, budget: nat) {
    t.Nothing? ||
    (&& Disciplined(t.before, budget)
     && match t.last
        case Started(_) => Open(t.before).None?
        case Attempted(e, h, _, _) => Open(t.before) == Some(e) && AttemptsNow(t.before, h) < budget
        case Buried(e, _, _, _) => Open(t.before) == Some(e)
        case Finished(e) => Open(t.before) == Some(e)
        case _ => true)
  }

  /** n attempts of a handler, all of which failed in the ordinary way. */
  predicate Retries(was: Trace, now: Trace, e: Event, h: nat, n: nat)
    decreases n
  {
    if n == 0 then now == was
    else
      && now.Then? && now.last.Attempted? && now.last.event == e && now.last.handler == h
      && now.last.answer != Fine && now.last.answer != Permanent && Retries(was, now.before, e, h, n - 1)
  }

  /** n attempts of a handler, all but the last of which failed in the ordinary way. */
  predicate Tried(was: Trace, now: Trace, e: Event, h: nat, n: nat) {
    && n >= 1
    && now.Then? && now.last.Attempted? && now.last.event == e && now.last.handler == h
    && Retries(was, now.before, e, h, n - 1)
  }

  /** The attempts between two traces are exactly those that justify the outcome, with its dead letter if it has one. */
  predicate HandlerRan(was: Trace, now: Trace, e: Event, h: nat, o: Outcome) {
    match o
    case Handled(n) => Tried(was, now, e, h, n) && now.last.answer == Fine
    case DeadLettered(reason, n) =>
      && now.Then? && now.last == Buried(e, h, reason, n)
      && Tried(was, now.before, e, h, n)
      && (reason == PermanentFailure <==> now.before.last.answer == Permanent) && now.before.last.answer != Fine
  }

  /** Nothing but handlers of this event between two traces. */
  predicate Worked(was: Trace, now: Trace, e: Event)
    decreases now
  {
    now == was ||
    (now.Then? && (now.last.Attempted? || now.last.Buried?) && now.last.event == e && Worked(was, now.before, e))
  }

  lemma {:induction false} WorkedOn(a: Trace, b: Trace, c: Trace, e: Event)
    requires Worked(a, b, e) && Worked(b, c, e)
    ensures Worked(a, c, e)
    decreases c
  {
    if c != b {
      WorkedOn(a, b, c.before, e);
    }
  }

  /** Handlers change no account. */
  lemma {:induction false} WorkedKeepsAccounts(was: Trace, now: Trace, e: Event, key: string)
    requires Worked(was, now, e)
    ensures Open(now) == Open(was) && CurrentPoll(now) == CurrentPoll(was)
    ensures Starts(key, now) == Starts(key, was) && Interruptions(key, now) == Interruptions(key, was)
    ensures Finishes(key, now) == Finishes(key, was) && Lapses(key, now) == Lapses(key, was)
    decreases now
  {
    if now != was {
      WorkedKeepsAccounts(was, now.before, e, key);
    }
  }

  /** Whatever handlers answered and whatever lapsed since, the script said so. */
  predicate Heard(was: Trace, now: Trace, script: seq<Answer>): (r: bool)
    ensures r ==> Extends(was, now)
    decreases now
  {
    now == was ||
    (&& now.Then?
     && (now.last.Attempted? ==> now.last.answer in script)
     && (now.last.Lapsed? ==> Expired in script)
     && Heard(was, now.before, script))
  }

  lemma {:induction false} HeardOn(a: Trace, b: Trace, c: Trace, script: seq<Answer>, rest: seq<Answer>)
    requires Heard(a, b, script) && Heard(b, c, rest) && forall x <- rest :: x in script
    ensures Heard(a, c, script)
    decreases c
  {
    if c != b {
      HeardOn(a, b, c.before, script, rest);
    }
  }

  /** At most n awaits happened, which left `rest` of the script and account for what the trace has gained. */
  predicate Took(script: seq<Answer>, was: Trace, rest: seq<Answer>, now: Trace, n: nat) {
    && |rest| <= |script| <= |rest| + n
    && (forall a <- rest :: a in script)
    && Heard(was, now, script)
    && Attempts(now) - Attempts(was) <= |script| - |rest|
  }

  lemma TookOn(s0: seq<Answer>, t0: Trace, s1: seq<Answer>, t1: Trace, s2: seq<Answer>, t2: Trace, m: nat, n: nat)
    requires Took(s0, t0, s1, t1, m) && Took(s1, t1, s2, t2, n)
    ensures Took(s0, t0, s2, t2, m + n)
  {
    HeardOn(t0, t1, t2, s0, s1);
  }

  /** Marks lapse only when some lookup finds one expired. */
  lemma {:induction false} NothingLapsed(was: Trace, now: Trace, script: seq<Answer>, key: string)
    requires Heard(was, now, script) && Expired !in script
    ensures Lapses(key, now) == Lapses(key, was)
    decreases now
  {
    if now != was {
      NothingLapsed(was, now.before, script, key);
    }
  }

  class KafkaEventSubscriber {
    const handlers: map<string, nat>
    const maxRetries: int
    const backoffMs: nat
    const hasStore: bool
    const log: map<Partition, seq<Message>>

    var script: seq<Answer>
    var position: map<Partition, nat>
    var committed: map<Partition, nat>
    var marks: set<string>
    var trace: Trace

    /** Per handled offset, why it may be committed; per mark, the dispatch behind it. */
    ghost var fates: map<(Partition, nat), Fate>
    ghost var vouchers: map<string, Voucher>

    /** Attempts per handler. */
    function Budget(): nat { Max(1, maxRetries) }

    function HandlerCount(topic: string): nat { if topic in handlers then handlers[topic] else 0 }

    /** Every handler succeeded, or was given up within its own budget. */
    predicate OutcomeOk(o: Outcome) {
      var most := if maxRetries > 1 then maxRetries else 1;
      && 1 <= o.attempts <= most
      && (o == DeadLettered(RetriesExhausted, o.attempts) ==> o.attempts == most)
    }

    /** Every handler of the event's topic ran, one after the other, in a dispatch that the trace contains. */
    ghost predicate FullyDispatched(ev: Evidence, t: Trace) {
      var n := if ev.event.topic in handlers then handlers[ev.event.topic] else 0;
      && |ev.outcomes| == n && |ev.points| == n + 1
      && ev.points[0].Then? && ev.points[0].last == Started(ev.event)
      && (forall h: nat :: h < n ==>
            OutcomeOk(ev.outcomes[h]) && HandlerRan(ev.points[h], ev.points[h + 1], ev.event, h, ev.outcomes[h]))
      && Extends(ev.points[n], t)
    }

    /** The key was marked, after an event that carries it had been fully dispatched, and the mark has not lapsed. */
    ghost predicate Vouches(v: Voucher, key: string, t: Trace) {
      && key in Keys(v.evidence.event)
      && FullyDispatched(v.evidence, v.at) && v.at.Then? && v.at.last == Marked(key)
      && Extends(v.at, t) && Lapses(key, t) == Lapses(key, v.at)
    }

    /**
     A message is dealt with when, while it was being processed, it was quarantined, or one of its
     keys bore the mark of a fully dispatched event that it is alike, or it was fully dispatched itself.
     */
    ghost predicate FateOk(p: Partition, offset: nat, m: Message, f: Fate, t: Trace) {
      match f
      case Unreadable(at) => !m.body.Good? && at.Then? && at.last == Quarantined(p, offset, m.body) && Extends(at, t)
      case Duplicate(key, v, at) =>
        && m.body.Good? && key in Keys(m.body.event) && Vouches(v, key, at)
        && CurrentPoll(at) == Some((p, offset)) && Extends(at, t)
        && (':' !in m.body.event.topic && ':' !in v.evidence.event.topic ==> Alike(m.body.event, v.evidence.event))
      case Dispatched(ev) =>
        m.body.Good? && ev.event == m.body.event && FullyDispatched(ev, t) && CurrentPoll(ev.points[0]) == Some((p, offset))
    }

    lemma DispatchedStays(ev: Evidence, was: Trace, now: Trace)
      requires FullyDispatched(ev, was) && Extends(was, now)
      ensures FullyDispatched(ev, now)
    {
      ExtendsOn(ev.points[HandlerCount(ev.event.topic)], was, now);
    }

    lemma FateStays(p: Partition, offset: nat, m: Message, f: Fate, was: Trace, now: Trace)
      requires FateOk(p, offset, m, f, was) && Extends(was, now)
      ensures FateOk(p, offset, m, f, now)
    {
      match f
      case Unreadable(at) => ExtendsOn(at, was, now);
      case Duplicate(_, _, at) => ExtendsOn(at, was, now);
      case Dispatched(ev) => DispatchedStays(ev, was, now);
    }

    /** An offset has been dealt with. */
    ghost predicate DealtWith(p: Partition, offset: nat, fates: map<(Partition, nat), Fate>, t: Trace)
      requires p in log && offset < |log[p]|
    {
      (p, offset) in fates && FateOk(p, offset, log[p][offset], fates[(p, offset)], t)
    }

    /** So have all offsets below these, but possibly for one message in progress. */
    ghost predicate AllDealtWith(upTo: map<Partition, nat>, current: Option<(Partition, nat)>,
                                 fates: map<(Partition, nat), Fate>, t: Trace)
    {
      forall p, offset: nat :: p in log && p in upTo && offset < upTo[p] && offset < |log[p]| && current != Some((p, offset)) ==>
        DealtWith(p, offset, fates, t)
    }

    /** Every mark has a dispatch behind it. */
    ghost predicate AllVouched(marks: set<string>, vouchers: map<string, Voucher>, t: Trace) {
      forall k :: k in marks ==> k in vouchers && Vouches(vouchers[k], k, t)
    }

    /** Evidence is never lost: the trace only grows. */
    lemma FatesStay(upTo: map<Partition, nat>, current: Option<(Partition, nat)>,
                    fates: map<(Partition, nat), Fate>, was: Trace, now: Trace)
      requires AllDealtWith(upTo, current, fates, was) && Extends(was, now)
      ensures AllDealtWith(upTo, current, fates, now)
    {
      forall p, offset: nat | p in log && p in upTo && offset < upTo[p] && offset < |log[p]| && current != Some((p, offset))
        ensures DealtWith(p, offset, fates, now)
      {
        assert DealtWith(p, offset, fates, was);
        FateStays(p, offset, log[p][offset], fates[(p, offset)], was, now);
      }
    }

    lemma VouchersStay(marks: set<string>, vouchers: map<string, Voucher>, was: Trace, now: Trace)
      requires AllVouched(marks, vouchers, was) && Extends(was, now)
      requires forall k :: k in marks ==> Lapses(k, now) == Lapses(k, was)
      ensures AllVouched(marks, vouchers, now)
    {
      forall k | k in marks ensures Vouches(vouchers[k], k, now) {
        ExtendsOn(vouchers[k].at, was, now);
      }
    }

    ghost predicate Offsets()
      reads this`position, this`committed
    {
      && position.Keys == committed.Keys == log.Keys
      && forall p :: p in log ==> committed[p] <= position[p] <= |log[p]|
    }

    /** Everything before the positions is dealt with, but possibly for one message in progress. */
    ghost predicate SettledBut(current: Option<(Partition, nat)>)
      requires Offsets()
      reads this`fates, this`trace, this`position, this`committed
    {
      && AllDealtWith(position, current, fates, trace)
      && (current.Some? ==> current.value.0 in log && committed[current.value.0] <= current.value.1 < position[current.value.0])
    }

    /** Whatever is committed is dealt with. */
    ghost predicate CommittedIsSettled()
      reads this`fates, this`trace, this`committed
    {
      AllDealtWith(committed, None, fates, trace)
    }

    /** The dispatches of one key: interrupted, finished, or open; and finished once per mark at most. */
    ghost predicate KeyOk(key: string, t: Trace, marked: bool) {
      && Starts(key, t) == Interruptions(key, t) + Finishes(key, t) + (if OpenFor(t, key) then 1 else 0)
      && Finishes(key, t) <= Lapses(key, t) + (if marked then 1 else 0)
      && (OpenFor(t, key) ==> Finishes(key, t) <= Lapses(key, t))
    }

    /** The trace is disciplined, every mark has a dispatch behind it, and with a store every key is accounted for. */
    ghost predicate Accounts()
      reads this`marks, this`trace, this`vouchers
    {
      && Disciplined(trace, Budget())
      && AllVouched(marks, vouchers, trace)
      && (hasStore ==> forall k :: KeyOk(k, trace, k in marks))
    }

    ghost predicate Valid()
      reads this
    {
      Offsets() && SettledBut(None) && Accounts() && Open(trace) == None
    }

    constructor (handlers: map<string, nat>, maxRetries: int, backoffMs: nat, hasStore: bool, log: map<Partition, seq<Message>>)
      ensures Valid() && trace == Nothing && marks == {}
      ensures this.handlers == handlers && this.maxRetries == maxRetries && this.hasStore == hasStore && this.log == log
    {
      this.handlers, this.maxRetries, this.backoffMs, this.hasStore, this.log := handlers, maxRetries, backoffMs, hasStore, log;
      script, marks, trace := [], {}, Nothing;
      position := map p | p in log :: 0;
      committed := map p | p in log :: 0;
      fates, vouchers := map[], map[];
    }

    /** Nothing about the message itself keeps it from being processed. */
    predicate Processable(m: Message) {
      m.utf8Key && (m.body.Good? && hasStore ==> m.body.event.objectPayload)
    }

    /** An event's dispatch is going on. */
    ghost predicate InDispatch(e: Event, t: Trace) {
      Disciplined(t, Budget()) && Open(t) == Some(e)
    }

    /** Wait for something; None is death. */
    method Await() returns (a: Option<Answer>)
      modifies this`script
      ensures Took(old(script), trace, script, trace, 1)
      ensures a.None? <==> old(script) == []
      ensures a.Some? ==> a.value == old(script)[0] && script == old(script)[1..]
    {
      if script == [] {
        return None;
      }
      a := Some(script[0]);
      script := script[1..];
    }

    /** Run a handler under the event's correlation id.  A handler that raises ImportError there is called again. */
    method CallHandler(e: Event, h: nat) returns (a: Option<Answer>)
      requires InDispatch(e, trace) && AttemptsNow(trace, h) < Budget()
      modifies this`script, this`trace
      ensures InDispatch(e, trace) && Worked(old(trace), trace, e)
      ensures forall g :: AttemptsNow(trace, g) == AttemptsNow(old(trace), g) + if a.Some? && g == h then 1 else 0
      ensures Took(old(script), old(trace), script, trace, 2)
      ensures a.None? ==> |old(script)| < 2 && script == [] && trace == old(trace)
      ensures a.Some? ==>
                && old(script) != []
                && var repeated := old(script)[0] == ImportError && e.correlated;
                   && (if repeated then |old(script)| > 1 && a.value == old(script)[1] else a.value == old(script)[0])
                   && trace == Then(old(trace), Attempted(e, h, a.value, repeated))
                   && script == old(script)[if repeated then 2 else 1..]
    {
      a := Await();
      var repeated := a == Some(ImportError) && e.correlated;
      if repeated {
        a := Await();
      }
      if a.Some? {
        trace := Then(trace, Attempted(e, h, a.value, repeated));
      }
    }

    /** Publishing a dead letter: an oversized one is trimmed and tried once more; failures are only logged. */
    method PublishDlq() returns (flow: Flow)
      modifies this`script
      ensures flow != Raised && Took(old(script), trace, script, trace, 2)
      ensures flow == Dead ==> |old(script)| < 2 && script == []
      // Only an oversized letter is sent again.
      ensures flow == Done ==>
                && old(script) != []
                && (old(script)[0] == Oversized ==> |old(script)| >= 2)
                && script == old(script)[if old(script)[0] == Oversized then 2 else 1..]
    {
      var a := Await();
      if a == Some(Oversized) {
        a := Await();
      }
      flow := if a.None? then Dead else Done;
    }

    /** Hand an event to the dead-letter queue for one of its handlers. */
    method SendToDlq(e: Event, h: nat, reason: Reason, attempts: nat) returns (flow: Flow)
      requires InDispatch(e, trace)
      modifies this`script, this`trace
      ensures InDispatch(e, trace) && Worked(old(trace), trace, e)
      ensures forall g :: AttemptsNow(trace, g) == AttemptsNow(old(trace), g)
      ensures flow != Raised && Took(old(script), old(trace), script, trace, 2)
      ensures flow == Dead ==> |old(script)| < 2 && script == []
      ensures trace == Then(old(trace), Buried(e, h, reason, attempts))
    {
      trace := Then(trace, Buried(e, h, reason, attempts));
      flow := PublishDlq();
    }

    function Backoff(attempt: nat): (ms: nat)
      requires attempt >= 1
      ensures ms <= MAX_BACKOFF_MS
    {
      Min(MAX_BACKOFF_MS, Doubled(backoffMs, attempt - 1))
    }

    /** The first pause is the base, every later one twice the one before, and none exceeds a minute. */
    lemma PausesDoubleUpToAMinute(attempt: nat)
      requires attempt >= 1
      ensures Backoff(1) == if backoffMs < 60000 then backoffMs else 60000
      ensures Backoff(attempt + 1) == if 2 * Backoff(attempt) < 60000 then 2 * Backoff(attempt) else 60000
    {
    }

    /** Give a handler up: the event goes to the dead-letter queue. */
    method GiveUp(e: Event, h: nat, reason: Reason, attempts: nat, ghost was: Trace) returns (flow: Flow, outcome: Outcome)
      requires InDispatch(e, trace) && Tried(was, trace, e, h, attempts) && trace.last.answer != Fine
      requires reason == PermanentFailure <==> trace.last.answer == Permanent
      requires attempts <= Budget() && (reason == RetriesExhausted ==> attempts == Budget())
      modifies this`script, this`trace
      ensures flow != Raised && Took(old(script), old(trace), script, trace, 2)
      ensures flow == Dead ==> |old(script)| < 2 && script == []
      ensures InDispatch(e, trace) && Worked(old(trace), trace, e)
      ensures OutcomeOk(outcome) && outcome.attempts == attempts && HandlerRan(was, trace, e, h, outcome)
      ensures forall g :: AttemptsNow(trace, g) == AttemptsNow(old(trace), g)
    {
      outcome := DeadLettered(reason, attempts);
      flow := SendToDlq(e, h, reason, attempts);
    }

    /** One attempt at a handler: it settles the handler, or ends in a pause before the next. */
    method OneAttempt(e: Event, h: nat, attempt: nat, ghost was: Trace) returns (flow: Flow, outcome: Option<Outcome>)
      requires 1 <= attempt <= Budget() && Retries(was, trace, e, h, attempt - 1)
      requires InDispatch(e, trace) && AttemptsNow(trace, h) == attempt - 1
      modifies this`script, this`trace
      ensures flow != Raised && Took(old(script), old(trace), script, trace, if flow == Done && outcome.None? then 3 else 4)
      ensures flow == Dead ==> script == [] && |old(script)| < 4
      ensures InDispatch(e, trace) && Worked(old(trace), trace, e)
      ensures flow == Done && outcome.Some? ==>
                OutcomeOk(outcome.value) && outcome.value.attempts == attempt && HandlerRan(was, trace, e, h, outcome.value)
      ensures flow == Done && outcome.None? ==>
                attempt < maxRetries && Retries(was, trace, e, h, attempt) && AttemptsNow(trace, h) == attempt
      // A pause is waited for as well.
      ensures flow == Done && outcome.None? ==>
                && old(script) != []
                && var awaits := if old(script)[0] == ImportError && e.correlated then 3 else 2;
                   |old(script)| >= awaits && script == old(script)[awaits..]
      ensures forall g :: g != h ==> AttemptsNow(trace, g) == AttemptsNow(old(trace), g)
    {
      var a := CallHandler(e, h);
      if a.None? {
        return Dead, None;
      }
      if a.value == Fine {
        return Done, Some(Handled(attempt));
      }
      ghost var s, t := script, trace;
      if a.value == Permanent || attempt >= maxRetries {
        var given;
        flow, given := GiveUp(e, h, if a.value == Permanent then PermanentFailure else RetriesExhausted, attempt, was);
        TookOn(old(script), old(trace), s, t, script, trace, 2, 2);
        WorkedOn(old(trace), t, trace, e);
        return flow, Some(given);
      }
      a := Await();
      TookOn(old(script), old(trace), s, t, script, trace, 2, 1);
      return if a.None? then Dead else Done, None;
    }

    /** One handler, retried within its own budget.  Exceptions never escape. */
    method RunHandler(e: Event, h: nat) returns (flow: Flow, outcome: Outcome, slept: seq<nat>)
      requires InDispatch(e, trace) && AttemptsNow(trace, h) == 0
      modifies this`script, this`trace
      ensures flow != Raised && Took(old(script), old(trace), script, trace, 4 * Budget())
      ensures flow == Dead ==> script == [] && |old(script)| < 4 * Budget()
      ensures InDispatch(e, trace) && Worked(old(trace), trace, e)
      ensures flow == Done ==> OutcomeOk(outcome) && HandlerRan(old(trace), trace, e, h, outcome)
      ensures flow == Done ==> |slept| == outcome.attempts - 1 && forall i :: 0 <= i < |slept| ==> slept[i] == Backoff(i + 1)
      ensures forall g :: g != h ==> AttemptsNow(trace, g) == AttemptsNow(old(trace), g)
    {
      var attempt := 0;
      slept := [];
      while true
        invariant attempt < Budget() && |slept| == attempt
        invariant forall i :: 0 <= i < |slept| ==> slept[i] == Backoff(i + 1)
        invariant Retries(old(trace), trace, e, h, attempt) && InDispatch(e, trace) && AttemptsNow(trace, h) == attempt
        invariant forall g :: g != h ==> AttemptsNow(trace, g) == AttemptsNow(old(trace), g)
        invariant Worked(old(trace), trace, e) && Took(old(script), old(trace), script, trace, 3 * attempt)
        decreases Budget() - attempt
      {
        attempt := attempt + 1;
        ghost var s, t := script, trace;
        var settled;
        flow, settled := OneAttempt(e, h, attempt, old(trace));
        TookOn(old(script), old(trace), s, t, script, trace, 3 * (attempt - 1), if flow == Done && settled.None? then 3 else 4);
        WorkedOn(old(trace), t, trace, e);
        if flow == Dead {
          return flow, Handled(attempt), slept;
        }
        if settled.Some? {
          return flow, settled.value, slept;
        }
        slept := slept + [Backoff(attempt)];
      }
    }

    /** Awaits that n handlers can take at most. */
    function Awaits(n: nat): nat {
      if n == 0 then 0 else Awaits(n - 1) + 4 * Budget()
    }

    lemma {:induction false} AwaitsGrow(m: nat, n: nat)
      requires m <= n
      ensures Awaits(m) <= Awaits(n)
    {
      if m < n {
        AwaitsGrow(m, n - 1);
      }
    }

    /** All handlers of the topic, each on its own. */
    method Dispatch(e: Event) returns (flow: Flow, ev: Evidence)
      requires Disciplined(trace, Budget()) && Open(trace) == None
      modifies this`script, this`trace
      ensures flow != Raised && Took(old(script), old(trace), script, trace, Awaits(HandlerCount(e.topic)))
      ensures flow == Dead ==> |old(script)| < Awaits(HandlerCount(e.topic))
      ensures InDispatch(e, trace) && Worked(Then(old(trace), Started(e)), trace, e)
      ensures flow == Done ==> ev.event == e && FullyDispatched(ev, trace) && ev.points[0] == Then(old(trace), Started(e))
    {
      trace := Then(trace, Started(e));
      ghost var begun := trace;
      var n := HandlerCount(e.topic);
      var outcomes, points := [], [trace];
      for h := 0 to n
        invariant |outcomes| == h && |points| == h + 1 && points[0] == begun && points[h] == trace
        invariant forall i: nat :: i < h ==> OutcomeOk(outcomes[i]) && HandlerRan(points[i], points[i + 1], e, i, outcomes[i])
        invariant InDispatch(e, trace) && Worked(begun, trace, e)
        invariant forall g :: g >= h ==> AttemptsNow(trace, g) == 0
        invariant Took(old(script), old(trace), script, trace, Awaits(h))
      {
        ghost var s, t := script, trace;
        var outcome, slept;
        flow, outcome, slept := RunHandler(e, h);
        TookOn(old(script), old(trace), s, t, script, trace, Awaits(h), 4 * Budget());
        WorkedOn(begun, t, trace, e);
        AwaitsGrow(h + 1, n);
        if flow == Dead {
          return flow, Evidence(e, outcomes, points);
        }
        outcomes, points := outcomes + [outcome], points + [trace];
      }
      return Done, Evidence(e, outcomes, points);
    }

    /** Commit the consumer's positions. */
    method Commit() returns (flow: Flow)
      requires Offsets()
      modifies this`script, this`committed
      ensures Took(old(script), trace, script, trace, 1)
      ensures flow == Dead <==> old(script) == []
      ensures flow == Raised <==> old(script) != [] && old(script)[0] in {Down, DownLate}
      ensures flow == Done ==> committed == position
      ensures old(script) != [] && old(script)[0] == Down ==> committed == old(committed)
      ensures committed == old(committed) || committed == position
    {
      var a := Await();
      if a.None? {
        return Dead;
      }
      if a.value == Down {
        return Raised;
      }
      committed := position;
      flow := if a.value == DownLate then Raised else Done;
    }

    /** Note the start of a message, or its quarantine. */
    method Note(step: Step)
      requires Accounts() && (step.Polled? || step.Quarantined?)
      modifies this`trace
      ensures Accounts() && trace == Then(old(trace), step)
    {
      trace := Then(trace, step);
      VouchersStay(marks, vouchers, old(trace), trace);
      assert forall k :: KeyOk(k, old(trace), k in marks) ==> KeyOk(k, trace, k in marks);
    }

    /** Note the end of a message.  With a store, a normal end leaves no dispatch open. */
    method NoteEnd(flow: Flow)
      requires Accounts() && (flow == Done && hasStore ==> Open(trace) == None)
      modifies this`trace
      ensures Accounts() && Open(trace) == None && trace == Then(old(trace), Ended(flow))
    {
      trace := Then(trace, Ended(flow));
      VouchersStay(marks, vouchers, old(trace), trace);
      assert hasStore ==> forall k :: KeyOk(k, old(trace), k in marks) ==> KeyOk(k, trace, k in marks);
    }

    /** A mark's time to live runs out. */
    method Lapse(key: string)
      requires Accounts() && Open(trace) == None && key in marks
      modifies this`marks, this`trace
      ensures Accounts() && marks == old(marks) - {key} && trace == Then(old(trace), Lapsed(key))
    {
      marks, trace := marks - {key}, Then(trace, Lapsed(key));
      VouchersStay(marks, vouchers, old(trace), trace);
      assert forall k :: KeyOk(k, old(trace), k in old(marks)) ==> KeyOk(k, trace, k in marks);
    }

    /** Mark a key of an event that has been fully dispatched. */
    method Mark(ghost ev: Evidence, key: string)
      requires Accounts() && FullyDispatched(ev, trace) && key in Keys(ev.event)
      modifies this`marks, this`vouchers, this`trace
      ensures Accounts() && marks == old(marks) + {key} && trace == Then(old(trace), Marked(key)) && FullyDispatched(ev, trace)
    {
      marks, trace := marks + {key}, Then(trace, Marked(key));
      VouchersStay(old(marks), vouchers, old(trace), trace);
      vouchers := vouchers[key := Voucher(ev, trace)];
      DispatchedStays(ev, old(trace), trace);
      assert forall k :: KeyOk(k, old(trace), k in old(marks)) ==> KeyOk(k, trace, k in marks);
    }

    /** Quarantine a message that cannot be read. */
    method QuarantineRaw(p: Partition, offset: nat, body: Body) returns (flow: Flow)
      requires Accounts()
      modifies this`script, this`trace
      ensures Accounts() && trace == Then(old(trace), Quarantined(p, offset, body))
      ensures flow != Raised && Took(old(script), old(trace), script, trace, 2)
      ensures flow == Dead ==> |old(script)| < 2
    {
      Note(Quarantined(p, offset, body));
      ghost var s, t := script, trace;
      flow := PublishDlq();
      TookOn(old(script), old(trace), s, t, script, trace, 0, 2);
    }

    /** Look one key up; its mark may have expired by now. */
    method CheckKey(key: string) returns (flow: Flow, known: bool)
      requires Accounts() && Open(trace) == None
      modifies this`script, this`marks, this`trace
      ensures Accounts() && Open(trace) == None && CurrentPoll(trace) == CurrentPoll(old(trace))
      ensures Took(old(script), old(trace), script, trace, 1)
      ensures marks <= old(marks) && (flow == Done ==> (known <==> key in marks))
      ensures flow == Dead ==> old(script) == []
      // A store that fails leaves nothing known, and is no answer.
      ensures flow == Raised <==> old(script) != [] && old(script)[0] in {Down, DownLate}
    {
      var a := Await();
      if a.None? {
        return Dead, false;
      }
      if a.value == Down || a.value == DownLate {
        return Raised, false;
      }
      if a.value == Expired && key in marks {
        Lapse(key);
      }
      return Done, key in marks;
    }

    /** Look the event's keys up in the store. */
    method CheckStore(e: Event) returns (flow: Flow, known: Option<string>)
      requires Accounts() && Open(trace) == None
      modifies this`script, this`marks, this`trace
      ensures Accounts() && Open(trace) == None && CurrentPoll(trace) == CurrentPoll(old(trace))
      ensures Took(old(script), old(trace), script, trace, 2)
      ensures flow == Done ==>
                match known
                case Some(k) => k in Keys(e) && k in marks
                case None => forall k <- Keys(e) :: k !in marks
      ensures flow == Dead ==> |old(script)| < 2
      ensures flow == Raised ==> !NothingDown(old(script))
    {
      var keys := Keys(e);
      for i := 0 to |keys|
        invariant Accounts() && Open(trace) == None && CurrentPoll(trace) == CurrentPoll(old(trace))
        invariant Took(old(script), old(trace), script, trace, i)
        invariant forall j :: 0 <= j < i ==> keys[j] !in marks
      {
        ghost var s, t := script, trace;
        var isKnown;
        flow, isKnown := CheckKey(keys[i]);
        TookOn(old(script), old(trace), s, t, script, trace, i, 1);
        if flow != Done {
          return flow, None;
        }
        if isKnown {
          return Done, Some(keys[i]);
        }
      }
      return Done, None;
    }

    /** Mark every key of a dispatched event. */
    method MarkStore(e: Event, ghost ev: Evidence) returns (flow: Flow)
      requires Accounts() && FullyDispatched(ev, trace) && ev.event == e
      modifies this`script, this`marks, this`vouchers, this`trace
      ensures Accounts() && Took(old(script), old(trace), script, trace, 2)
      ensures FullyDispatched(ev, trace) && Open(trace) == Open(old(trace))
      ensures flow == Done ==> forall k <- Keys(e) :: k in marks
      ensures flow == Dead ==> |old(script)| < 2
      ensures flow == Raised ==> !NothingDown(old(script))
    {
      var keys := Keys(e);
      for i := 0 to |keys|
        invariant Accounts() && Took(old(script), old(trace), script, trace, i)
        invariant FullyDispatched(ev, trace) && Open(trace) == Open(old(trace))
        invariant forall j :: 0 <= j < i ==> keys[j] in marks
      {
        ghost var s, t := script, trace;
        var a := Await();
        TookOn(old(script), old(trace), s, t, script, trace, i, 1);
        if a.None? {
          return Dead;
        }
        if a.value == Down {
          return Raised;
        }
        Mark(ev, keys[i]);
        TookOn(old(script), old(trace), s, t, script, trace, i, 1);
        if a.value == DownLate {
          return Raised;
        }
      }
      return Done;
    }

    /** All keys are marked: the dispatch is over. */
    method NoteFinished(e: Event)
      requires Accounts() && Open(trace) == Some(e) && forall k <- Keys(e) :: k in marks
      modifies this`trace
      ensures Accounts() && Open(trace) == None && trace == Then(old(trace), Finished(e))
    {
      trace := Then(trace, Finished(e));
      VouchersStay(marks, vouchers, old(trace), trace);
      assert forall k :: KeyOk(k, old(trace), k in marks) ==> KeyOk(k, trace, k in marks);
    }

    /** A dispatch whose keys are not marked leaves the accounts in order. */
    lemma DispatchKeepsAccounts(was: Trace, e: Event)
      requires Open(was) == None && Worked(Then(was, Started(e)), trace, e) && Extends(was, trace)
      requires Disciplined(trace, Budget())
      requires AllVouched(marks, vouchers, was)
      requires hasStore ==> forall k :: KeyOk(k, was, k in marks) && (k in Keys(e) ==> k !in marks)
      ensures Accounts()
    {
      forall k | hasStore ensures KeyOk(k, trace, k in marks) {
        assert KeyOk(k, was, k in marks);
        WorkedKeepsAccounts(Then(was, Started(e)), trace, e, k);
      }
      forall k ensures Lapses(k, trace) == Lapses(k, was) {
        WorkedKeepsAccounts(Then(was, Started(e)), trace, e, k);
      }
      VouchersStay(marks, vouchers, was, trace);
    }

    /** Dispatch an event that the store does not know, then mark it. */
    method DispatchAndMark(e: Event) returns (flow: Flow, ev: Evidence)
      requires hasStore && Accounts() && Open(trace) == None && forall k <- Keys(e) :: k !in marks
      modifies this`script, this`marks, this`trace, this`vouchers
      ensures Accounts() && Took(old(script), old(trace), script, trace, Awaits(HandlerCount(e.topic)) + 2)
      // Marked only after every handler has run: the evidence ends where the marks begin.
      ensures flow == Done ==> ev.event == e && FullyDispatched(ev, trace) && ev.points[0] == Then(old(trace), Started(e))
      ensures flow == Done ==> Open(trace) == None && forall k <- Keys(e) :: k in marks
      ensures flow == Dead ==> |old(script)| < Awaits(HandlerCount(e.topic)) + 2
      ensures flow == Raised ==> !NothingDown(old(script))
    {
      flow, ev := Dispatch(e);
      DispatchKeepsAccounts(old(trace), e);
      if flow == Dead {
        return;
      }
      ghost var s, t := script, trace;
      flow := MarkStore(e, ev);
      TookOn(old(script), old(trace), s, t, script, trace, Awaits(HandlerCount(e.topic)), 2);
      if flow == Done {
        NoteFinished(e);
      }
    }

    /** Deduplicate, dispatch, mark. */
    method HandleOnce(p: Partition, offset: nat, e: Event) returns (flow: Flow, ghost fate: Fate)
      requires hasStore && Accounts() && Open(trace) == None && CurrentPoll(trace) == Some((p, offset))
      modifies this`script, this`marks, this`trace, this`vouchers
      ensures Accounts() && Took(old(script), old(trace), script, trace, Awaits(HandlerCount(e.topic)) + 4)
      ensures flow == Done ==> Open(trace) == None && FateOk(p, offset, Message(true, Good(e)), fate, trace)
      ensures flow == Dead ==> |old(script)| < Awaits(HandlerCount(e.topic)) + 4
      ensures flow == Raised ==> !NothingDown(old(script))
    {
      fate := Unreadable(Nothing);
      var known;
      flow, known := CheckStore(e);
      if flow != Done {
        return;
      }
      if known.Some? {
        fate := Duplicate(known.value, vouchers[known.value], trace);
        ghost var earlier := vouchers[known.value].evidence.event;
        if ':' !in e.topic && ':' !in earlier.topic {
          SharedKeyIsAlike(e, earlier, known.value);
        }
        return;
      }
      ghost var s, t := script, trace;
      var ev;
      flow, ev := DispatchAndMark(e);
      TookOn(old(script), old(trace), s, t, script, trace, 2, Awaits(HandlerCount(e.topic)) + 2);
      fate := Dispatched(ev);
    }

    /** Handle a readable event, through the store if there is one.  The fate is what the message then deserves. */
    method Handle(p: Partition, offset: nat, e: Event) returns (flow: Flow, ghost fate: Fate)
      requires Accounts() && Open(trace) == None && CurrentPoll(trace) == Some((p, offset))
      modifies this`script, this`marks, this`trace, this`vouchers
      ensures Accounts() && Took(old(script), old(trace), script, trace, Awaits(HandlerCount(e.topic)) + 4)
      ensures flow == Done ==> FateOk(p, offset, Message(true, Good(e)), fate, trace) && (hasStore ==> Open(trace) == None)
      ensures flow == Dead ==> |old(script)| < Awaits(HandlerCount(e.topic)) + 4
      ensures flow == Raised ==> !NothingDown(old(script)) || (hasStore && !e.objectPayload)
    {
      fate := Unreadable(Nothing);
      if !hasStore {
        var ev;
        flow, ev := Dispatch(e);
        DispatchKeepsAccounts(old(trace), e);
        fate := Dispatched(ev);
        return;
      }
      if !e.objectPayload {
        flow := Raised;
        return;
      }
      flow, fate := HandleOnce(p, offset, e);
    }

    /** Awaits that one message can take at most. */
    function Enough(m: Message): nat {
      if m.body.Good? then Awaits(HandlerCount(m.body.event.topic)) + 5 else 3
    }

    /** Deal with a message whose key decodes, short of committing. */
    method DealDecoded(p: Partition, offset: nat) returns (flow: Flow)
      requires Offsets() && p in log && offset < |log[p]| && SettledBut(Some((p, offset)))
      requires Accounts() && Open(trace) == None && CurrentPoll(trace) == Some((p, offset))
      modifies this`script, this`marks, this`trace, this`vouchers, this`fates
      ensures Accounts() && Took(old(script), old(trace), script, trace, Enough(log[p][offset]) - 1)
      ensures SettledBut(Some((p, offset))) && (flow == Done ==> SettledBut(None) && (hasStore ==> Open(trace) == None))
      ensures flow == Dead ==> |old(script)| < Enough(log[p][offset])
      ensures flow == Raised ==>
                var body := log[p][offset].body;
                !NothingDown(old(script)) || (body.Good? && hasStore && !body.event.objectPayload)
    {
      var m := log[p][offset];
      ghost var fate;
      if m.body.Good? {
        flow, fate := Handle(p, offset, m.body.event);
      } else {
        flow := QuarantineRaw(p, offset, m.body);
        fate := Unreadable(Then(old(trace), Quarantined(p, offset, m.body)));
      }
      FatesStay(position, Some((p, offset)), fates, old(trace), trace);
      if flow == Done {
        assert FateOk(p, offset, m, fate, trace);
        Record(p, offset, fate);
      }
    }

    ghost method Record(p: Partition, offset: nat, fate: Fate)
      requires Offsets() && SettledBut(Some((p, offset))) && FateOk(p, offset, log[p][offset], fate, trace)
      modifies this`fates
      ensures SettledBut(None) && SettledBut(Some((p, offset)))
    {
      fates := fates[(p, offset) := fate];
    }

    /**
     One raw message.  However it ends, everything committed is settled.  It can only raise because
     of an undecodable key, a payload the deduplication cannot look into, or a store or broker that
     fails; otherwise enough answers bring it to its commit.
     */
    method ProcessMessage(p: Partition, offset: nat) returns (flow: Flow)
      requires Offsets() && p in log && offset < |log[p]| && SettledBut(Some((p, offset)))
      requires Accounts() && Open(trace) == None && CurrentPoll(trace) == Some((p, offset))
      modifies this`script, this`marks, this`trace, this`vouchers, this`fates, this`committed
      ensures Offsets() && Accounts() && Took(old(script), old(trace), script, trace, Enough(log[p][offset]))
      ensures committed == old(committed) || committed == position
      ensures flow == Done ==> SettledBut(None) && committed == position && (hasStore ==> Open(trace) == None)
      ensures CommittedIsSettled()
      ensures var m := log[p][offset];
              |old(script)| >= Enough(m) && NothingDown(old(script)) && Processable(m) ==> flow == Done
    {
      if !log[p][offset].utf8Key {
        return Raised;
      }
      flow := DealDecoded(p, offset);
      if flow == Done {
        ghost var s, t := script, trace;
        flow := Commit();
        TookOn(old(script), old(trace), s, t, script, trace, Enough(log[p][offset]) - 1, 1);
      }
    }

    /** One fetched message from its start to its end, with whatever its awaits meet. */
    method OneMessage(p: Partition, offset: nat, answers: seq<Answer>) returns (flow: Flow)
      requires Offsets() && p in log && offset < |log[p]| && SettledBut(Some((p, offset)))
      requires Accounts() && Open(trace) == None
      modifies this`script, this`marks, this`trace, this`vouchers, this`fates, this`committed
      ensures Offsets() && Accounts() && Open(trace) == None && Heard(old(trace), trace, answers)
      ensures Attempts(trace) - Attempts(old(trace)) <= |answers|
      ensures committed == old(committed) || committed == position
      ensures CommittedIsSettled() && (flow == Done ==> SettledBut(None) && committed == position)
      ensures trace.Then? && trace.last == Ended(flow)
      ensures var m := log[p][offset]; |answers| >= Enough(m) && NothingDown(answers) && Processable(m) ==> flow == Done
    {
      Note(Polled(p, offset));
      FatesStay(position, Some((p, offset)), fates, old(trace), trace);
      script := answers;
      ghost var polled := trace;
      flow := ProcessMessage(p, offset);
      HeardOn(old(trace), polled, trace, answers, answers);
      ghost var processed := trace;
      NoteEnd(flow);
      FatesStay(committed, None, fates, processed, trace);
      if flow == Done {
        FatesStay(position, None, fates, processed, trace);
      }
    }

    /** Start over, or reconnect, from the committed offsets. */
    method Reconnect()
      requires Offsets() && CommittedIsSettled() && Accounts() && Open(trace) == None
      modifies this`position
      ensures Valid() && position == committed
    {
      position := committed;
    }

    /**
     Fetch the next message of a partition, if there is one, and process it; anything but success
     starts over from the committed offsets.
     */
    method PollOne(p: Partition, answers: seq<Answer>) returns (flow: Option<Flow>)
      requires Valid()
      modifies this
      ensures Valid() && Heard(old(trace), trace, answers) && Attempts(trace) - Attempts(old(trace)) <= |answers|
      ensures forall q :: q in log ==> old(committed[q]) <= committed[q]
      ensures flow.None? <==> p !in log || old(position[p]) >= |log[p]|
      ensures flow.None? ==> position == old(position) && committed == old(committed) && trace == old(trace)
      ensures flow.Some? ==> position == committed && trace.Then? && trace.last == Ended(flow.value)
      ensures flow == Some(Done) ==> position == old(position)[p := old(position[p]) + 1]
      ensures flow.Some? && flow.value != Done ==>
                committed == old(committed) || committed == old(position)[p := old(position[p]) + 1]
      ensures flow.Some? ==>
                var m := log[p][old(position[p])];
                |answers| >= Enough(m) && NothingDown(answers) && Processable(m) ==> flow == Some(Done)
    {
      if p !in log || position[p] >= |log[p]| {
        return None;
      }
      var offset := position[p];
      position := position[p := offset + 1];
      var end := OneMessage(p, offset, answers);
      if end != Done {
        Reconnect();
      }
      flow := Some(end);
    }

    /** Any run: messages polled in any order, with broker errors, exceptions, deaths and redeliveries. */
    method Run(turns: seq<Turn>)
      requires Valid()
      modifies this
      // Every offset below the committed one was dealt with, and offsets are never taken back.
      ensures Valid() && CommittedIsSettled()
      ensures forall p :: p in log ==> old(committed[p]) <= committed[p]
      // Handlers run only in dispatches, and a key is dispatched at most once more than it was interrupted or lapsed.
      ensures Disciplined(trace, Budget()) && Extends(old(trace), trace)
      ensures hasStore ==> forall k :: Starts(k, trace) <= Interruptions(k, trace) + 1 + Lapses(k, trace)
      ensures (forall turn <- turns :: turn.Poll? ==> Expired !in turn.script) ==>
                forall k :: Lapses(k, trace) == Lapses(k, old(trace))
    {
      for i := 0 to |turns|
        invariant Valid() && Extends(old(trace), trace)
        invariant forall p :: p in log ==> old(committed[p]) <= committed[p]
        invariant (forall j :: 0 <= j < i && turns[j].Poll? ==> Expired !in turns[j].script) ==>
                    forall k :: Lapses(k, trace) == Lapses(k, old(trace))
      {
        match turns[i]
        case BrokerError => Reconnect();
        case Poll(p, answers) =>
          ghost var before := trace;
          var flow := PollOne(p, answers);
          ExtendsOn(old(trace), before, trace);
          forall k | Expired !in answers ensures Lapses(k, trace) == Lapses(k, before) {
            NothingLapsed(before, trace, answers, k);
          }
      }
      forall k | hasStore ensures Starts(k, trace) <= Interruptions(k, trace) + 1 + Lapses(k, trace) {
        assert KeyOk(k, trace, k in marks);
      }
    }
  }
}
