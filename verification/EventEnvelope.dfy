/**
 Domain events: which payloads are safe to put on the bus, how an envelope is read back
 from its dictionary, and what wrapping an event as a dead letter keeps.
 */
module EventEnvelope {
  import opened Prelude

  /** A value as the services hold it: JSON, plus what JSON cannot carry.  Lists and tuples are both `Arr`. */
  datatype Json =
    | Null
    | Bool(b: bool)
    | Int(n: int)
    | Float(finite: bool, value: real)
    | Str(s: string)
    | Arr(items: seq<Json>)
    | Obj(fields: seq<Field>)
    | Opaque

  datatype Field = Field(key: Key, value: Json)

  datatype Key = Text(s: string) | NonText

  // ---- validate_payload ---------------------------------------------------------

  datatype PayloadError = NonFiniteFloat | NonStringKey | SecretKey | UnsupportedType

  const SECRET_KEYS: set<string> := {
    "password", "passwd", "secret", "authorization", "api_key", "apikey", "access_token",
    "refresh_token", "auth_token", "private_key", "client_secret", "x_api_key",
    "x_amz_security_token", "aws_secret_access_key"
  }

  function Lower(s: string): string {
    if s == "" then ""
    else [if 'A' <= s[0] <= 'Z' then s[0] - 'A' + 'a' else s[0]] + Lower(s[1..])
  }

  function StripUnderscores(s: string): string {
    if s != "" && s[0] == '_' then StripUnderscores(s[1..]) else s
  }

  predicate IsSecret(key: string) {
    StripUnderscores(Lower(key)) in SECRET_KEYS
  }

  function KeyError(k: Key, forbid: bool): Option<PayloadError> {
    if k.NonText? then Some(NonStringKey)
    else if forbid && IsSecret(k.s) then Some(SecretKey)
    else None
  }

  /** The first error found walking the payload in order. */
  function Validate(j: Json, forbid: bool): Option<PayloadError>
    decreases j, 1
  {
    match j
    case Null | Bool(_) | Int(_) | Str(_) => None
    case Float(finite, _) => if finite then None else Some(NonFiniteFloat)
    case Obj(fields) => ValidateFields(fields, forbid)
    case Arr(items) => ValidateItems(items, forbid)
    case Opaque => Some(UnsupportedType)
  }

  function ValidateField(f: Field, forbid: bool): Option<PayloadError>
    decreases f, 2
  {
    if KeyError(f.key, forbid).Some? then KeyError(f.key, forbid) else Validate(f.value, forbid)
  }

  function ValidateFields(fields: seq<Field>, forbid: bool): Option<PayloadError>
    decreases fields, 0
  {
    if fields == [] then None
    else if ValidateField(fields[0], forbid).Some? then ValidateField(fields[0], forbid)
    else ValidateFields(fields[1..], forbid)
  }

  function ValidateItems(items: seq<Json>, forbid: bool): Option<PayloadError>
    decreases items, 0
  {
    if items == [] then None
    else if Validate(items[0], forbid).Some? then Validate(items[0], forbid)
    else ValidateItems(items[1..], forbid)
  }

  /** k occurs in j at the end of a path of positions. */
  ghost predicate At(j: Json, path: seq<nat>, k: Json)
    decreases |path|
  {
    if path == [] then j == k
    else
      match j
      case Obj(fields) => path[0] < |fields| && At(fields[path[0]].value, path[1..], k)
      case Arr(items) => path[0] < |items| && At(items[path[0]], path[1..], k)
      case _ => false
  }

  /** Nothing is wrong with this value itself, whatever is below it. */
  predicate LocallySafe(k: Json, forbid: bool) {
    match k
    case Float(finite, _) => finite
    case Obj(fields) =>
      forall i :: 0 <= i < |fields| ==> fields[i].key.Text? && (forbid ==> !IsSecret(fields[i].key.s))
    case Opaque => false
    case _ => true
  }

  /** No value anywhere inside is unsafe. */
  ghost predicate SafeThroughout(j: Json, forbid: bool) {
    forall path, k :: At(j, path, k) ==> LocallySafe(k, forbid)
  }

  lemma {:induction false} FieldsValidExactly(fields: seq<Field>, forbid: bool)
    ensures ValidateFields(fields, forbid).None? <==>
            forall i :: 0 <= i < |fields| ==> KeyError(fields[i].key, forbid).None? && Validate(fields[i].value, forbid).None?
  {
    if fields != [] {
      FieldsValidExactly(fields[1..], forbid);
      assert forall i :: 1 <= i < |fields| ==> fields[i] == fields[1..][i - 1];
    }
  }

  lemma {:induction false} ItemsValidExactly(items: seq<Json>, forbid: bool)
    ensures ValidateItems(items, forbid).None? <==> forall i :: 0 <= i < |items| ==> Validate(items[i], forbid).None?
  {
    if items != [] {
      ItemsValidExactly(items[1..], forbid);
      assert forall i :: 1 <= i < |items| ==> items[i] == items[1..][i - 1];
    }
  }

  /** A payload passes exactly when no value anywhere inside it is unsafe. */
  lemma ValidExactlyWhenSafe(j: Json, forbid: bool)
    ensures Validate(j, forbid).None? <==> SafeThroughout(j, forbid)
  {
    if Validate(j, forbid).None? {
      forall path, k | At(j, path, k) ensures LocallySafe(k, forbid) {
        ValidIsSafeBelow(j, forbid, path, k);
      }
    } else if SafeThroughout(j, forbid) {
      SafeIsValid(j, forbid);
    }
  }

  lemma {:induction false} ValidIsSafeBelow(j: Json, forbid: bool, path: seq<nat>, k: Json)
    requires Validate(j, forbid).None? && At(j, path, k)
    ensures LocallySafe(k, forbid)
    decreases |path|
  {
    match j
    case Obj(fields) =>
      FieldsValidExactly(fields, forbid);
      if path != [] {
        ValidIsSafeBelow(fields[path[0]].value, forbid, path[1..], k);
      }
    case Arr(items) =>
      ItemsValidExactly(items, forbid);
      if path != [] {
        ValidIsSafeBelow(items[path[0]], forbid, path[1..], k);
      }
    case _ =>
  }

  lemma ChildIsSafe(j: Json, i: nat, child: Json, forbid: bool)
    requires SafeThroughout(j, forbid)
    requires || (j.Obj? && i < |j.fields| && child == j.fields[i].value)
             || (j.Arr? && i < |j.items| && child == j.items[i])
    ensures SafeThroughout(child, forbid)
  {
    forall path, k | At(child, path, k) ensures LocallySafe(k, forbid) {
      assert ([i] + path)[1..] == path;
      assert At(j, [i] + path, k);
    }
  }

  lemma {:induction false} SafeIsValid(j: Json, forbid: bool)
    requires SafeThroughout(j, forbid)
    ensures Validate(j, forbid).None?
    decreases j
  {
    assert At(j, [], j);
    match j
    case Obj(fields) =>
      forall i: nat | i < |fields| ensures Validate(fields[i].value, forbid).None? {
        ChildIsSafe(j, i, fields[i].value, forbid);
        SafeIsValid(fields[i].value, forbid);
      }
      FieldsValidExactly(fields, forbid);
    case Arr(items) =>
      forall i: nat | i < |items| ensures Validate(items[i], forbid).None? {
        ChildIsSafe(j, i, items[i], forbid);
        SafeIsValid(items[i], forbid);
      }
      ItemsValidExactly(items, forbid);
    case _ =>
  }

  // ---- The envelope ---------------------------------------------------------------

  const SCHEMA_VERSION := 1

  /** `event_id`, `producer` and `correlation_id` are not checked when an envelope is read. */
  datatype Event = Event(
    topic: string, key: string, payload: Json, eventId: Json, occurredAt: string, producer: Json,
    version: int, serverTime: Option<string>, sequence: Option<int>, correlationId: Json)

  datatype EnvelopeError =
    | NotADict | MissingTopic | MissingKey | BadVersion | NewerVersion
    | BadOccurredAt | BadServerTime | BadSequence | BadPayload(error: PayloadError)

  /** What reading depends on besides the data: the timestamp parser, the supported version, a new id and the time. */
  datatype Env = Env(iso: string -> bool, supported: int, newId: string, now: string)

  function Get(fields: seq<Field>, name: string): Option<Json> {
    if fields == [] then None
    else if fields[0].key == Text(name) then Some(fields[0].value)
    else Get(fields[1..], name)
  }

  /** `dict.get(name)`: an absent entry and an explicit null look the same. */
  function Lookup(fields: seq<Field>, name: string): Json {
    match Get(fields, name)
    case None => Null
    case Some(v) => v
  }

  predicate Truthy(j: Json) {
    match j
    case Null => false
    case Bool(b) => b
    case Int(n) => n != 0
    case Float(finite, v) => !finite || v != 0.0
    case Str(s) => s != ""
    case Arr(items) => items != []
    case Obj(fields) => fields != []
    case Opaque => true
  }

  function FromDict(data: Json, env: Env): Result<Event, EnvelopeError> {
    if !data.Obj? then Err(NotADict)
    else
      var f := data.fields;
      var topic := Lookup(f, "topic");
      var key := Lookup(f, "key");
      var version := if Get(f, "schema_version").None? then Int(SCHEMA_VERSION) else Get(f, "schema_version").value;
      var occurredAt := Lookup(f, "occurred_at");
      var serverTime := Lookup(f, "server_time");
      var sequence := Lookup(f, "sequence");
      var payload := if Get(f, "payload").None? then Obj([]) else Get(f, "payload").value;
      if !topic.Str? || topic.s == "" then Err(MissingTopic)
      else if !key.Str? || key.s == "" then Err(MissingKey)
      else if !version.Int? then Err(BadVersion)
      else if version.n > env.supported then Err(NewerVersion)
      else if occurredAt != Null && (!occurredAt.Str? || !env.iso(occurredAt.s)) then Err(BadOccurredAt)
      else if serverTime != Null && (!serverTime.Str? || !env.iso(serverTime.s)) then Err(BadServerTime)
      else if sequence != Null && !sequence.Int? then Err(BadSequence)
      else if Validate(payload, true).Some? then Err(BadPayload(Validate(payload, true).value))
      else
        var id := Lookup(f, "event_id");
        Ok(Event(
             topic.s, key.s, payload,
             if Truthy(id) then id else Str(env.newId),
             if occurredAt == Null then env.now else occurredAt.s,
             if Get(f, "producer").None? then Str("") else Get(f, "producer").value,
             version.n,
             if serverTime == Null then None else Some(serverTime.s),
             if sequence == Null then None else Some(sequence.n),
             Lookup(f, "correlation_id")))
  }

  function ToDict(e: Event): Json {
    Obj([
      Field(Text("event_id"), e.eventId),
      Field(Text("topic"), Str(e.topic)),
      Field(Text("key"), Str(e.key)),
      Field(Text("occurred_at"), Str(e.occurredAt)),
      Field(Text("producer"), e.producer),
      Field(Text("schema_version"), Int(e.version)),
      Field(Text("server_time"), if e.serverTime.None? then Null else Str(e.serverTime.value)),
      Field(Text("sequence"), if e.sequence.None? then Null else Int(e.sequence.value)),
      Field(Text("correlation_id"), e.correlationId),
      Field(Text("payload"), e.payload)])
  }

  /** What an accepted event satisfies. */
  predicate WellFormed(e: Event, env: Env) {
    && e.topic != "" && e.key != ""
    && e.version <= env.supported
    && env.iso(e.occurredAt)
    && (e.serverTime.Some? ==> env.iso(e.serverTime.value))
    && Validate(e.payload, true).None?
    && Truthy(e.eventId)
  }

  /** The clock and the id generator produce usable values. */
  predicate Sound(env: Env) {
    env.newId != "" && env.iso(env.now)
  }

  /** A text that the timestamp parser takes. */
  predicate IsTime(j: Json, env: Env) {
    j.Str? && env.iso(j.s)
  }

  predicate IsName(entry: Option<Json>) {
    entry.Some? && entry.value.Str? && entry.value.s != ""
  }

  /** Which dictionaries are accepted, entry by entry; null is as good as nothing for the times and the sequence. */
  lemma AcceptedExactly(data: Json, env: Env)
    ensures FromDict(data, env).Ok? <==>
            && data.Obj?
            && var f := data.fields;
               && IsName(Get(f, "topic")) && IsName(Get(f, "key"))
               && (match Get(f, "schema_version") case None => 1 <= env.supported case Some(v) => v.Int? && v.n <= env.supported)
               && (match Get(f, "occurred_at") case None => true case Some(t) => t.Null? || IsTime(t, env))
               && (match Get(f, "server_time") case None => true case Some(t) => t.Null? || IsTime(t, env))
               && (match Get(f, "sequence") case None => true case Some(n) => n.Null? || n.Int?)
               && (match Get(f, "payload") case None => true case Some(p) => SafeThroughout(p, true))
  {
    if data.Obj? {
      match Get(data.fields, "payload")
      case None =>
      case Some(p) => ValidExactlyWhenSafe(p, true);
    }
  }

  /** A version that is too new is reported as such, and not as a malformed message, whatever else is wrong behind it. */
  lemma NewerVersionExactly(data: Json, env: Env)
    ensures FromDict(data, env) == Err(NewerVersion) <==>
            && data.Obj?
            && var f := data.fields;
               && IsName(Get(f, "topic")) && IsName(Get(f, "key"))
               && (match Get(f, "schema_version") case None => 1 > env.supported case Some(v) => v.Int? && v.n > env.supported)
  {
  }

  /** What is absent gets a new id, the present time, no producer, the first version and an empty payload. */
  lemma AbsentEntriesGetDefaults(fields: seq<Field>, topic: string, key: string, env: Env)
    requires topic != "" && key != "" && env.supported >= 1
    requires Get(fields, "topic") == Some(Str(topic)) && Get(fields, "key") == Some(Str(key))
    requires Get(fields, "event_id").None? && Get(fields, "occurred_at").None? && Get(fields, "producer").None?
    requires Get(fields, "schema_version").None? && Get(fields, "server_time").None? && Get(fields, "sequence").None?
    requires Get(fields, "correlation_id").None? && Get(fields, "payload").None?
    ensures FromDict(Obj(fields), env)
            == Ok(Event(topic, key, Obj([]), Str(env.newId), env.now, Str(""), 1, None, None, Null))
  {
    assert Validate(Obj([]), true).None?;
  }

  /** An id that Python takes for false is replaced by a new one, and any other is kept. */
  lemma FalsyIdsAreReplaced(data: Json, env: Env)
    requires FromDict(data, env).Ok?
    ensures var id := Get(data.fields, "event_id");
            FromDict(data, env).value.eventId ==
            match id
            case None => Str(env.newId)
            case Some(Null) => Str(env.newId)
            case Some(Bool(false)) => Str(env.newId)
            case Some(Int(n)) => if n == 0 then Str(env.newId) else Int(n)
            case Some(Float(finite, v)) => if finite && v == 0.0 then Str(env.newId) else Float(finite, v)
            case Some(Str(t)) => if t == "" then Str(env.newId) else Str(t)
            case Some(Arr(items)) => if items == [] then Str(env.newId) else Arr(items)
            case Some(Obj(fields)) => if fields == [] then Str(env.newId) else Obj(fields)
            case Some(other) => other
  {
  }

  lemma AcceptedIsWellFormed(data: Json, env: Env, e: Event)
    requires Sound(env) && FromDict(data, env) == Ok(e)
    ensures WellFormed(e, env)
  {
  }

  lemma {:induction false} GetHere(fields: seq<Field>, i: nat)
    requires i < |fields| && fields[i].key.Text?
    requires forall k :: 0 <= k < i ==> fields[k].key != fields[i].key
    ensures Get(fields, fields[i].key.s) == Some(fields[i].value)
  {
    if i > 0 {
      GetHere(fields[1..], i - 1);
    }
  }

  predicate Names(fields: seq<Field>, names: seq<string>) {
    |fields| == |names| && forall k :: 0 <= k < |names| ==> fields[k].key == Text(names[k])
  }

  /** Values that pass whatever they hold. */
  predicate Plain(j: Json) {
    j.Null? || j.Int? || j.Str?
  }

  /** The entries of an envelope, in the order `to_dict` writes them. */
  const ENTRIES: seq<string> := [
    "event_id", "topic", "key", "occurred_at", "producer",
    "schema_version", "server_time", "sequence", "correlation_id", "payload"]

  /** Length and the first two letters tell the entries apart. */
  lemma EntriesAreDistinct()
    ensures forall i, j :: 0 <= i < j < 10 ==> ENTRIES[i] != ENTRIES[j]
  {
    forall i, j | 0 <= i < j < 10 ensures ENTRIES[i] != ENTRIES[j] {
      assert |ENTRIES[i]| != |ENTRIES[j]| || ENTRIES[i][0] != ENTRIES[j][0];
    }
  }

  lemma DictNames(e: Event)
    ensures var f := ToDict(e).fields;
            && Names(f, ENTRIES)
            && f[0].value == e.eventId && f[4].value == e.producer && f[8].value == e.correlationId && f[9].value == e.payload
            && forall k :: 0 <= k < 10 ==> k in {0, 4, 8, 9} || Plain(f[k].value)
  {
  }

  lemma EntryOf(e: Event, i: nat)
    requires i < 10
    ensures Get(ToDict(e).fields, ENTRIES[i]) == Some(ToDict(e).fields[i].value)
  {
    EntriesAreDistinct();
    DictNames(e);
    GetHere(ToDict(e).fields, i);
  }

  lemma DictEntries(e: Event)
    ensures var f := ToDict(e).fields;
            && Get(f, "event_id") == Some(e.eventId)
            && Get(f, "topic") == Some(Str(e.topic))
            && Get(f, "key") == Some(Str(e.key))
            && Get(f, "occurred_at") == Some(Str(e.occurredAt))
            && Get(f, "producer") == Some(e.producer)
            && Get(f, "schema_version") == Some(Int(e.version))
            && Get(f, "server_time") == Some(if e.serverTime.None? then Null else Str(e.serverTime.value))
            && Get(f, "sequence") == Some(if e.sequence.None? then Null else Int(e.sequence.value))
            && Get(f, "correlation_id") == Some(e.correlationId)
            && Get(f, "payload") == Some(e.payload)
  {
    EntryOf(e, 0);
    EntryOf(e, 1);
    EntryOf(e, 2);
    EntryOf(e, 3);
    EntryOf(e, 4);
    EntryOf(e, 5);
    EntryOf(e, 6);
    EntryOf(e, 7);
    EntryOf(e, 8);
    EntryOf(e, 9);
  }

  /** Reading back what `to_dict` wrote returns the event itself exactly when the event is well formed. */
  lemma ReadsBackExactly(e: Event, env: Env)
    requires Sound(env)
    ensures FromDict(ToDict(e), env) == Ok(e) <==> WellFormed(e, env)
  {
    DictEntries(e);
  }

  /** Any accepted envelope survives the round trip unchanged, even read with another clock and id source. */
  lemma RoundTrip(data: Json, env: Env, env': Env, e: Event)
    requires Sound(env) && Sound(env') && env'.iso == env.iso && env'.supported == env.supported
    requires FromDict(data, env) == Ok(e)
    ensures FromDict(ToDict(e), env') == Ok(e)
  {
    AcceptedIsWellFormed(data, env, e);
    ReadsBackExactly(e, env');
  }

  lemma {:induction false} GetSkips(a: seq<Field>, g: Field, b: seq<Field>, name: string)
    requires g.key != Text(name)
    ensures Get(a + [g] + b, name) == Get(a + b, name)
  {
    if a == [] {
      assert a + [g] + b == [g] + b && a + b == b;
    } else {
      GetSkips(a[1..], g, b, name);
      assert (a + [g] + b)[1..] == a[1..] + [g] + b && (a + b)[1..] == a[1..] + b;
    }
  }

  /** Forward compatibility: an entry with a name this version does not know makes no difference, wherever it stands. */
  lemma UnknownEntriesAreIgnored(a: seq<Field>, g: Field, b: seq<Field>, env: Env)
    requires forall i :: 0 <= i < |ENTRIES| ==> g.key != Text(ENTRIES[i])
    ensures FromDict(Obj(a + [g] + b), env) == FromDict(Obj(a + b), env)
  {
    forall i | 0 <= i < |ENTRIES| ensures Get(a + [g] + b, ENTRIES[i]) == Get(a + b, ENTRIES[i]) {
      GetSkips(a, g, b, ENTRIES[i]);
    }
    assert ENTRIES[0] == "event_id" && ENTRIES[1] == "topic" && ENTRIES[2] == "key" && ENTRIES[3] == "occurred_at";
    assert ENTRIES[4] == "producer" && ENTRIES[5] == "schema_version" && ENTRIES[6] == "server_time";
    assert ENTRIES[7] == "sequence" && ENTRIES[8] == "correlation_id" && ENTRIES[9] == "payload";
  }

  // ---- Dead letters ------------------------------------------------------------------

  const DLQ_SUFFIX := ".dlq"

  /** Why and by whom an event is dead-lettered. */
  datatype Context = Context(
    errorType: string, error: string, reason: string, attempts: int, group: string,
    clientId: string, newId: string, now: string)

  function DlqPayload(original: Json, c: Context): Json {
    Obj([
      Field(Text("original_event"), original),
      Field(Text("error_type"), Str(c.errorType)),
      Field(Text("error"), Str(c.error)),
      Field(Text("reason"), Str(c.reason)),
      Field(Text("attempts"), Int(c.attempts)),
      Field(Text("consumer_group"), Str(c.group)),
      Field(Text("dlq_time"), Str(c.now))])
  }

  function DeadLetter(e: Event, c: Context): Event {
    Event(e.topic + DLQ_SUFFIX, e.key, DlqPayload(ToDict(e), c), Str(c.newId), c.now, Str(c.clientId),
          SCHEMA_VERSION, None, None, Null)
  }

  /** The fields that reading does not check are themselves safe. */
  predicate CleanIds(e: Event) {
    && Validate(e.eventId, true).None?
    && Validate(e.producer, true).None?
    && Validate(e.correlationId, true).None?
  }

  lemma {:induction false} LowerKeepsPlain(k: string)
    requires forall i :: 0 <= i < |k| ==> !('A' <= k[i] <= 'Z')
    ensures Lower(k) == k
  {
    if k != "" {
      LowerKeepsPlain(k[1..]);
    }
  }

  /** First letter, last letter and length that a secret key may have. */
  predicate SecretShape(k: string) {
    k != "" &&
    var last := k[|k| - 1];
    match k[0]
    case 'p' => last == 'y' || (last == 'd' && |k| != 7)
    case 's' => last == 't'
    case 'a' => last == 'n' || last == 'y'
    case 'r' => |k| == 13
    case 'c' => last == 't'
    case 'x' => true
    case _ => false
  }

  lemma SecretsHaveShape(k: string)
    requires k in SECRET_KEYS
    ensures SecretShape(k)
  {
  }

  /** A lower-case key of another shape is not secret. */
  lemma PlainKey(k: string)
    requires k != "" && k[0] != '_' && (forall i :: 0 <= i < |k| ==> !('A' <= k[i] <= 'Z'))
    requires !SecretShape(k)
    ensures !IsSecret(k)
  {
    LowerKeepsPlain(k);
    if k in SECRET_KEYS {
      SecretsHaveShape(k);
    }
  }

  // ---- What makes a key secret -----------------------------------------------------------

  lemma {:induction false} LowerAt(k: string)
    ensures |Lower(k)| == |k|
    ensures forall i :: 0 <= i < |k| ==> Lower(k)[i] == if 'A' <= k[i] <= 'Z' then k[i] - 'A' + 'a' else k[i]
  {
    if k != "" {
      LowerAt(k[1..]);
    }
  }

  lemma {:induction false} StrippedAt(k: string) returns (n: nat)
    ensures n <= |k| && StripUnderscores(k) == k[n..] && (n < |k| ==> k[n] != '_')
    ensures forall i :: 0 <= i < n ==> k[i] == '_'
  {
    if k != "" && k[0] == '_' {
      var m := StrippedAt(k[1..]);
      n := m + 1;
      assert forall i :: 0 < i < n ==> k[i] == k[1..][i - 1];
    } else {
      n := 0;
    }
  }

  /** The key is that name, after n underscores, in upper or lower case. */
  predicate Disguises(key: string, n: nat, name: string) {
    && n + |name| == |key|
    && (forall i :: 0 <= i < n ==> key[i] == '_')
    && (forall i :: 0 <= i < |name| ==> name[i] == if 'A' <= key[n + i] <= 'Z' then key[n + i] - 'A' + 'a' else key[n + i])
  }

  /** A key is secret exactly when it is one of the names, after any number of underscores and in any case. */
  lemma SecretExactly(key: string)
    ensures IsSecret(key) <==> exists n: nat, name: string :: name in SECRET_KEYS && Disguises(key, n, name)
  {
    LowerAt(key);
    var low := Lower(key);
    var n := StrippedAt(low);
    if low[n..] in SECRET_KEYS {
      assert Disguises(key, n, low[n..]);
    }
    forall m: nat, name: string | name in SECRET_KEYS && Disguises(key, m, name) ensures low[n..] == name {
      SecretsHaveShape(name);
      assert low[m..] == name && low[m] == name[0];
      assert m <= n;
      assert n <= m;
    }
  }

  const WRAPPER: seq<string> := [
    "original_event", "error_type", "error", "reason", "attempts", "consumer_group", "dlq_time"]

  lemma NamesAreNotSecret()
    ensures Harmless(ENTRIES) && Harmless(WRAPPER)
  {
    forall i | 0 <= i < 10 ensures !IsSecret(ENTRIES[i]) {
      PlainKey(ENTRIES[i]);
    }
    forall i | 0 <= i < 7 ensures !IsSecret(WRAPPER[i]) {
      PlainKey(WRAPPER[i]);
    }
  }

  predicate Harmless(names: seq<string>) {
    forall i :: 0 <= i < |names| ==> !IsSecret(names[i])
  }

  /** Under harmless names, only the values at some positions matter when the others are plain. */
  lemma ValuesDecide(fields: seq<Field>, names: seq<string>, open: set<int>)
    requires Names(fields, names) && Harmless(names)
    requires forall i :: 0 <= i < |names| ==> i in open || Plain(fields[i].value)
    requires forall i :: i in open ==> 0 <= i < |names|
    ensures Validate(Obj(fields), true).None? <==> forall i :: i in open ==> Validate(fields[i].value, true).None?
  {
    FieldsValidExactly(fields, true);
  }

  lemma FourDecide(fields: seq<Field>, names: seq<string>, e: Event)
    requires |names| == 10 && Names(fields, names) && Harmless(names)
    requires fields[0].value == e.eventId && fields[4].value == e.producer
             && fields[8].value == e.correlationId && fields[9].value == e.payload
    requires forall k :: 0 <= k < 10 ==> k in {0, 4, 8, 9} || Plain(fields[k].value)
    ensures Validate(Obj(fields), true).None? <==> CleanIds(e) && Validate(e.payload, true).None?
  {
    ValuesDecide(fields, names, {0, 4, 8, 9});
  }

  lemma DictValidExactly(e: Event)
    ensures Validate(ToDict(e), true).None? <==> CleanIds(e) && Validate(e.payload, true).None?
  {
    DictNames(e);
    NamesAreNotSecret();
    FourDecide(ToDict(e).fields, ENTRIES, e);
  }

  lemma WrapperNames(original: Json, c: Context)
    ensures var f := DlqPayload(original, c).fields;
            Names(f, WRAPPER) && f[0].value == original && forall k :: 1 <= k < 7 ==> Plain(f[k].value)
  {
  }

  lemma WrapperValidExactly(original: Json, c: Context)
    ensures Validate(DlqPayload(original, c), true).None? <==> Validate(original, true).None?
    ensures Validate(Obj(DlqPayload(original, c).fields[1..]), true).None?
  {
    WrapperNames(original, c);
    NamesAreNotSecret();
    OneDecides(DlqPayload(original, c).fields, WRAPPER, original);
  }

  lemma OneDecides(fields: seq<Field>, names: seq<string>, original: Json)
    requires |names| == 7 && Names(fields, names) && Harmless(names)
    requires fields[0].value == original && forall k :: 1 <= k < 7 ==> Plain(fields[k].value)
    ensures Validate(Obj(fields), true).None? <==> Validate(original, true).None?
    ensures Validate(Obj(fields[1..]), true).None?
  {
    ValuesDecide(fields, names, {0});
    ValuesDecide(fields[1..], names[1..], {});
  }

  /** A dead letter's payload is publishable exactly when the original's unchecked fields are clean. */
  lemma DeadLetterValidExactly(e: Event, c: Context)
    requires Validate(e.payload, true).None?
    ensures Validate(DeadLetter(e, c).payload, true).None? <==> CleanIds(e)
  {
    DictValidExactly(e);
    WrapperValidExactly(ToDict(e), c);
  }

  /** Dropping `original_event`, as for an oversized dead letter, always leaves a publishable payload. */
  lemma TrimmedDeadLetterIsValid(e: Event, c: Context)
    ensures Validate(Obj(DeadLetter(e, c).payload.fields[1..]), true).None?
  {
    WrapperValidExactly(ToDict(e), c);
  }

  /** What a dead letter says: where it goes, under whose key, and why. */
  lemma DeadLetterTells(e: Event, c: Context)
    ensures var d := DeadLetter(e, c);
            && d.topic == e.topic + ".dlq" && d.key == e.key
            && d.eventId == Str(c.newId) && d.producer == Str(c.clientId) && d.occurredAt == c.now && d.version == 1
            && d.payload.Obj?
            && Get(d.payload.fields, "original_event") == Some(ToDict(e))
            && Get(d.payload.fields, "error_type") == Some(Str(c.errorType))
            && Get(d.payload.fields, "error") == Some(Str(c.error))
            && Get(d.payload.fields, "reason") == Some(Str(c.reason))
            && Get(d.payload.fields, "attempts") == Some(Int(c.attempts))
            && Get(d.payload.fields, "consumer_group") == Some(Str(c.group))
            && Get(d.payload.fields, "dlq_time") == Some(Str(c.now))
  {
    var fields := DlqPayload(ToDict(e), c).fields;
    forall i, j | 0 <= i < j < 7 ensures WRAPPER[i] != WRAPPER[j] {
      assert |WRAPPER[i]| != |WRAPPER[j]| || WRAPPER[i][0] != WRAPPER[j][0];
    }
    WrapperNames(ToDict(e), c);
    forall i: nat | i < 7 ensures Get(fields, WRAPPER[i]) == Some(fields[i].value) {
      GetHere(fields, i);
    }
    assert WRAPPER[0] == "original_event" && WRAPPER[1] == "error_type" && WRAPPER[2] == "error" && WRAPPER[3] == "reason";
    assert WRAPPER[4] == "attempts" && WRAPPER[5] == "consumer_group" && WRAPPER[6] == "dlq_time";
  }

  /** Dead-lettering again and again, once for each context. */
  function Nest(e: Event, cs: seq<Context>): Event {
    if cs == [] then e else DeadLetter(Nest(e, cs[..|cs| - 1]), cs[|cs| - 1])
  }

  /** At any depth, an accepted event with clean ids stays publishable and readable as itself. */
  lemma {:induction false} NestedDeadLettersSurvive(e: Event, cs: seq<Context>, env: Env)
    requires Sound(env) && env.supported >= SCHEMA_VERSION
    requires WellFormed(e, env) && CleanIds(e)
    requires forall c <- cs :: c.newId != "" && env.iso(c.now)
    ensures var d := Nest(e, cs);
            && Validate(d.payload, true).None? && CleanIds(d)
            && FromDict(ToDict(d), env) == Ok(d)
  {
    ReadsBackExactly(e, env);
    if cs != [] {
      var inner := Nest(e, cs[..|cs| - 1]);
      NestedDeadLettersSurvive(e, cs[..|cs| - 1], env);
      ReadsBackExactly(inner, env);
      DeadLetterValidExactly(inner, cs[|cs| - 1]);
      ReadsBackExactly(Nest(e, cs), env);
    }
  }

  /** Each level gives back the level below. */
  lemma DeadLetterKeepsOriginal(e: Event, c: Context, env: Env)
    requires Sound(env) && WellFormed(e, env)
    ensures Get(DeadLetter(e, c).payload.fields, "original_event").Some?
    ensures FromDict(Get(DeadLetter(e, c).payload.fields, "original_event").value, env) == Ok(e)
  {
    ReadsBackExactly(e, env);
  }
}
