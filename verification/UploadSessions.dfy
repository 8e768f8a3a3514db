/**
 Chunked uploads: the chunk plan, and the session rows that register, complete, abort and reap
 work on.

 A session row, its chunk rows and the outbox rows about it are only written in one
 transaction that holds the row lock, so they are modelled as one value, `Upload`.
 */
module UploadSessions {
  import opened Prelude

  // ---- The chunk plan ---------------------------------------------------------------

  datatype PlanError = ChunkSizeNotPositive | SizeNotPositive | TooLarge | TooManyChunks

  datatype Plan = Plan(chunkSize: int, totalChunks: int)

  /** The number of chunks is the size divided by the chunk size, rounded up; too many is an error. */
  function ComputeChunkPlan(sizeBytes: int, chunkSize: int, maxSize: int, maxChunks: int): (r: Result<Plan, PlanError>)
    ensures r.Ok? <==> chunkSize > 0 && 0 < sizeBytes <= maxSize && sizeBytes <= maxChunks * chunkSize
    ensures r.Ok? ==> r.value.chunkSize == chunkSize && Planned(sizeBytes, r.value)
  {
    if chunkSize <= 0 then Err(ChunkSizeNotPositive)
    else if sizeBytes <= 0 then Err(SizeNotPositive)
    else if sizeBytes > maxSize then Err(TooLarge)
    else
      var total := (sizeBytes + chunkSize - 1) / chunkSize;
      RoundedUp(sizeBytes, chunkSize);
      FitsExactly(sizeBytes, chunkSize, total, maxChunks);
      if total > maxChunks then Err(TooManyChunks) else Ok(Plan(chunkSize, total))
  }

  /** All chunks but the last are full, and the last one is not empty. */
  predicate Planned(sizeBytes: int, plan: Plan) {
    plan.chunkSize > 0 && plan.totalChunks > 0
    && (plan.totalChunks - 1) * plan.chunkSize < sizeBytes <= plan.totalChunks * plan.chunkSize
  }

  lemma RoundedUp(size: int, chunk: int)
    requires size > 0 && chunk > 0
    ensures Planned(size, Plan(chunk, (size + chunk - 1) / chunk))
  {
    var total := (size + chunk - 1) / chunk;
    assert size + chunk - 1 == total * chunk + (size + chunk - 1) % chunk;
    assert (total - 1) * chunk == total * chunk - chunk;
    assert total >= 1 by {
      if total < 1 {
        Multiplied(total, 0, chunk);
      }
    }
  }

  lemma FitsExactly(size: int, chunk: int, total: int, limit: int)
    requires Planned(size, Plan(chunk, total))
    ensures total <= limit <==> size <= limit * chunk
  {
    if total <= limit {
      Multiplied(total, limit, chunk);
    } else {
      Multiplied(limit, total - 1, chunk);
    }
  }

  lemma Multiplied(a: int, b: int, c: int)
    requires a <= b && c >= 0
    ensures a * c <= b * c
  {
  }

  /** The bytes that belong in a chunk. */
  function ExpectedChunkSize(sizeBytes: int, plan: Plan, index: int): int {
    if index < plan.totalChunks - 1 then plan.chunkSize
    else sizeBytes - plan.chunkSize * (plan.totalChunks - 1)
  }

  /** The expected sizes of the first n chunks. */
  function ExpectedTotal(sizeBytes: int, plan: Plan, n: nat): int {
    if n == 0 then 0 else ExpectedTotal(sizeBytes, plan, n - 1) + ExpectedChunkSize(sizeBytes, plan, n - 1)
  }

  lemma ExpectedSizeInRange(sizeBytes: int, plan: Plan, index: int)
    requires Planned(sizeBytes, plan) && 0 <= index < plan.totalChunks
    ensures 1 <= ExpectedChunkSize(sizeBytes, plan, index) <= plan.chunkSize
  {
    assert plan.totalChunks * plan.chunkSize == (plan.totalChunks - 1) * plan.chunkSize + plan.chunkSize;
  }

  lemma {:induction false} FullChunks(sizeBytes: int, plan: Plan, n: nat)
    requires n < plan.totalChunks
    ensures ExpectedTotal(sizeBytes, plan, n) == n * plan.chunkSize
  {
    if n > 0 {
      FullChunks(sizeBytes, plan, n - 1);
    }
  }

  /** The chunks hold exactly the object. */
  lemma ExpectedSizesAddUp(sizeBytes: int, plan: Plan)
    requires Planned(sizeBytes, plan)
    ensures ExpectedTotal(sizeBytes, plan, plan.totalChunks) == sizeBytes
  {
    FullChunks(sizeBytes, plan, plan.totalChunks - 1);
  }

  // ---- A session with its chunks and its outbox rows ----------------------------------

  datatype Status = Initiated | Uploading | Complete | Aborted

  datatype Reason = Requested(text: nat) | Expired

  datatype Event =
    | ContentUploaded(sizeBytes: int, checksum: nat, totalChunks: int)
    | UploadAborted(reason: Reason)

  /** `chunks` maps a received index to the size found in storage; the index is unique in the database. */
  datatype Upload = Upload(
    sizeBytes: int, plan: Plan, expiresAt: int, status: Status, checksum: Option<nat>,
    chunks: map<int, int>, uploadedChunks: nat, updatedAt: int, cleanedAt: Option<int>,
    outbox: seq<Event>)

  datatype UploadError =
    | NotFound | NotAccepting | SessionExpired | OutOfRange | AlreadyReceived | NotInStorage | SizeMismatch
    | MissingChunks | StorageFailed | ChecksumMismatch | AlreadyComplete

  predicate Terminal(u: Upload) {
    u.status == Complete || u.status == Aborted
  }

  function Created(sizeBytes: int, plan: Plan, checksum: Option<nat>, now: int, expiresAt: int): Upload {
    Upload(sizeBytes, plan, expiresAt, Initiated, checksum, map[], 0, now, None, [])
  }

  /** The indices a complete session must have. */
  function Indices(total: int): (r: set<int>)
    ensures forall i :: i in r <==> 0 <= i < total
    decreases total
  {
    if total <= 0 then {} else Indices(total - 1) + {total - 1}
  }

  /** Register one chunk; `stored` is the size of the stored object, if there is one. */
  function Registered(u: Upload, index: int, now: int, stored: Option<int>): Result<Upload, UploadError> {
    if Terminal(u) then Err(NotAccepting)
    else if now > u.expiresAt then Err(SessionExpired)
    else if !(0 <= index < u.plan.totalChunks) then Err(OutOfRange)
    else if index in u.chunks then Err(AlreadyReceived)
    else if stored.None? then Err(NotInStorage)
    else if stored.value != ExpectedChunkSize(u.sizeBytes, u.plan, index) then Err(SizeMismatch)
    else Ok(u.(chunks := u.chunks[index := stored.value], uploadedChunks := |u.chunks| + 1, status := Uploading,
               updatedAt := now))
  }

  /** Complete the session; `assembled` is the digest of the assembled object, if storage could assemble it. */
  function Completed(u: Upload, now: int, assembled: Option<nat>): Result<Upload, UploadError> {
    if u.status == Complete then Ok(u)
    else if u.status == Aborted then Err(NotAccepting)
    else if now > u.expiresAt then Err(SessionExpired)
    else if u.chunks.Keys != Indices(u.plan.totalChunks) then Err(MissingChunks)
    else if assembled.None? then Err(StorageFailed)
    else if u.checksum.Some? && u.checksum.value != assembled.value then Err(ChecksumMismatch)
    else Ok(u.(status := Complete, checksum := Some(assembled.value), uploadedChunks := |u.chunks|, updatedAt := now,
               outbox := u.outbox + [ContentUploaded(u.sizeBytes, assembled.value, u.plan.totalChunks)]))
  }

  /** One attempt to clean the storage of a session. */
  function Cleaned(u: Upload, now: int, cleaned: bool): Upload {
    if cleaned then u.(cleanedAt := Some(now), updatedAt := now) else u
  }

  /** Abort the session for a reason. */
  function AbortedFor(u: Upload, reason: Reason, now: int, cleaned: bool): Result<Upload, UploadError> {
    if u.status == Complete then Err(AlreadyComplete)
    else if u.status == Aborted then Ok(Cleaned(u, now, cleaned))
    else Ok(Cleaned(u.(status := Aborted, updatedAt := now, outbox := u.outbox + [UploadAborted(reason)]), now, cleaned))
  }

  predicate Reapable(u: Upload, now: int) {
    u.expiresAt < now && !Terminal(u)
  }

  predicate Uncleaned(u: Upload, now: int, grace: int) {
    u.status == Aborted && u.cleanedAt.None? && u.updatedAt < now - grace
  }

  /** What the reaper makes of a session it can lock. */
  function Reaped(u: Upload, now: int, grace: int, cleaned: bool): Upload {
    if Reapable(u, now) then AbortedFor(u, Expired, now, cleaned).value
    else if Uncleaned(u, now, grace) then Cleaned(u, now, cleaned)
    else u
  }

  /** An open session past its expiry is aborted with its event, a leftover is cleaned, and all others stay as they are. */
  lemma ReapedExactly(u: Upload, now: int, grace: int, cleaned: bool)
    ensures Reaped(u, now, grace, cleaned) ==
            if u.status in {Initiated, Uploading} && u.expiresAt < now then
              u.(status := Aborted, updatedAt := now, cleanedAt := if cleaned then Some(now) else u.cleanedAt,
                 outbox := u.outbox + [UploadAborted(Expired)])
            else if u.status == Aborted && u.cleanedAt.None? && u.updatedAt + grace < now && cleaned then
              u.(cleanedAt := Some(now), updatedAt := now)
            else u
  {
  }

  /** The sessions the reaper aborts: in flight past their expiry, and not locked by anyone. */
  function Stale(sessions: map<nat, Upload>, now: int, locked: set<nat>): set<nat> {
    set id | id in sessions && id !in locked && Reapable(sessions[id], now)
  }

  /** The aborted sessions whose cleanup the reaper retries. */
  function Leftover(sessions: map<nat, Upload>, now: int, grace: int, locked: set<nat>): set<nat> {
    set id | id in sessions && id !in locked && Uncleaned(sessions[id], now, grace)
  }

  // ---- What a session always satisfies ---------------------------------------------------

  /** The sizes of the first n received chunks. */
  function ReceivedTotal(chunks: map<int, int>, n: nat): int
    requires forall i :: 0 <= i < n ==> i in chunks
  {
    if n == 0 then 0 else ReceivedTotal(chunks, n - 1) + chunks[n - 1]
  }

  function Uploads(outbox: seq<Event>): nat {
    if outbox == [] then 0 else Uploads(outbox[..|outbox| - 1]) + if outbox[|outbox| - 1].ContentUploaded? then 1 else 0
  }

  function Aborts(outbox: seq<Event>): nat {
    if outbox == [] then 0 else Aborts(outbox[..|outbox| - 1]) + if outbox[|outbox| - 1].UploadAborted? then 1 else 0
  }

  /** The inductive invariant of one session. */
  ghost predicate Sound(u: Upload) {
    && Planned(u.sizeBytes, u.plan)
    && (forall i :: i in u.chunks ==> 0 <= i < u.plan.totalChunks && u.chunks[i] == ExpectedChunkSize(u.sizeBytes, u.plan, i))
    && u.uploadedChunks == |u.chunks|
    && match u.status
       case Initiated => u.outbox == [] && u.chunks == map[]
       case Uploading => u.outbox == [] && u.chunks != map[]
       case Complete =>
         && u.chunks.Keys == Indices(u.plan.totalChunks)
         && u.checksum.Some?
         && u.outbox == [ContentUploaded(u.sizeBytes, u.checksum.value, u.plan.totalChunks)]
       case Aborted => |u.outbox| == 1 && u.outbox[0].UploadAborted?
  }

  /** What a session may become: its plan stays, its chunks and events only grow, its declared checksum and its end are final. */
  ghost predicate Follows(u: Upload, v: Upload) {
    && v.sizeBytes == u.sizeBytes && v.plan == u.plan && v.expiresAt == u.expiresAt
    && (forall i :: i in u.chunks ==> i in v.chunks && v.chunks[i] == u.chunks[i])
    && u.outbox <= v.outbox
    && (u.checksum.Some? ==> v.checksum == u.checksum)
    && (Terminal(u) ==> v.status == u.status && v.chunks == u.chunks && v.outbox == u.outbox && v.checksum == u.checksum)
  }

  lemma FollowsOn(u: Upload, v: Upload, w: Upload)
    requires Follows(u, v) && Follows(v, w)
    ensures Follows(u, w)
  {
  }

  lemma RegisterKeepsSound(u: Upload, index: int, now: int, stored: Option<int>)
    requires Sound(u)
    ensures var r := Registered(u, index, now, stored); r.Ok? ==> Sound(r.value) && Follows(u, r.value)
  {
    var r := Registered(u, index, now, stored);
    if r.Ok? {
      assert index in r.value.chunks;
    }
  }

  lemma CompleteKeepsSound(u: Upload, now: int, assembled: Option<nat>)
    requires Sound(u)
    ensures var r := Completed(u, now, assembled); r.Ok? ==> Sound(r.value) && Follows(u, r.value)
  {
  }

  lemma AbortKeepsSound(u: Upload, reason: Reason, now: int, cleaned: bool)
    requires Sound(u)
    ensures var r := AbortedFor(u, reason, now, cleaned); r.Ok? ==> Sound(r.value) && Follows(u, r.value)
  {
  }

  lemma ReapKeepsSound(u: Upload, now: int, grace: int, cleaned: bool)
    requires Sound(u)
    ensures Sound(Reaped(u, now, grace, cleaned)) && Follows(u, Reaped(u, now, grace, cleaned))
  {
    AbortKeepsSound(u, Expired, now, cleaned);
  }

  lemma {:induction false} ReceivedAsExpected(u: Upload, n: nat)
    requires Sound(u) && n <= u.plan.totalChunks && forall i :: 0 <= i < n ==> i in u.chunks
    ensures ReceivedTotal(u.chunks, n) == ExpectedTotal(u.sizeBytes, u.plan, n)
  {
    if n > 0 {
      ReceivedAsExpected(u, n - 1);
    }
  }

  /** The promises to the consumers of the outbox, in their own terms. */
  ghost predicate Consistent(u: Upload) {
    && Uploads(u.outbox) == (if u.status == Complete then 1 else 0)
    && Aborts(u.outbox) == (if u.status == Aborted then 1 else 0)
    && (u.status == Complete ==>
          && (forall i :: i in u.chunks <==> 0 <= i < u.plan.totalChunks)
          && u.plan.totalChunks >= 0 && ReceivedTotal(u.chunks, u.plan.totalChunks) == u.sizeBytes
          && u.uploadedChunks == u.plan.totalChunks)
  }

  lemma {:induction false} IndicesCount(total: nat)
    ensures |Indices(total)| == total
  {
    if total > 0 {
      IndicesCount(total - 1);
      assert total - 1 !in Indices(total - 1);
    }
  }

  lemma SoundIsConsistent(u: Upload)
    requires Sound(u)
    ensures Consistent(u)
  {
    if u.outbox != [] {
      assert u.outbox[..|u.outbox| - 1] == [];
    }
    if u.status == Complete {
      assert forall i :: i in u.chunks <==> i in Indices(u.plan.totalChunks);
      ReceivedAsExpected(u, u.plan.totalChunks);
      ExpectedSizesAddUp(u.sizeBytes, u.plan);
      IndicesCount(u.plan.totalChunks);
      assert |u.chunks| == |u.chunks.Keys|;
    }
  }

  /** Aborting the stale sessions first does not change whose cleanup is retried. */
  lemma LeftoverUnchanged(before: map<nat, Upload>, after: map<nat, Upload>, now: int, grace: nat, locked: set<nat>,
                          cleans: set<nat>)
    requires after.Keys == before.Keys
    requires forall id :: id in before ==>
               after[id] == if id in Stale(before, now, locked) then Reaped(before[id], now, grace, id in cleans) else before[id]
    ensures Leftover(after, now, grace, locked) == Leftover(before, now, grace, locked)
  {
  }

  // ---- The service, one call at a time --------------------------------------------------

  class UploadService {
    const grace: nat
    var sessions: map<nat, Upload>

    ghost predicate Valid()
      reads this
    {
      forall id :: id in sessions ==> Sound(sessions[id])
    }

    constructor (grace: nat)
      ensures Valid() && sessions == map[] && this.grace == grace
    {
      this.grace, sessions := grace, map[];
    }

    /** Plan the chunks and store the session; an unacceptable plan stores nothing. */
    method CreateSession(id: nat, sizeBytes: int, chunkSize: int, checksum: Option<nat>, now: int, expiresAt: int,
                         maxSize: int, maxChunks: int)
      returns (r: Result<Upload, PlanError>)
      requires Valid() && id !in sessions
      modifies this
      ensures Valid()
      ensures r.Ok? <==> chunkSize > 0 && 0 < sizeBytes <= maxSize && sizeBytes <= maxChunks * chunkSize
      ensures r.Ok? ==>
                && r.value.plan.chunkSize == chunkSize
                && r.value == Upload(sizeBytes, r.value.plan, expiresAt, Initiated, checksum, map[], 0, now, None, [])
                && (r.value.plan.totalChunks - 1) * chunkSize < sizeBytes <= r.value.plan.totalChunks * chunkSize
      ensures r.Err? ==>
                match r.error
                case ChunkSizeNotPositive => chunkSize <= 0
                case SizeNotPositive => chunkSize > 0 >= sizeBytes
                case TooLarge => chunkSize > 0 && sizeBytes > maxSize
                case TooManyChunks => chunkSize > 0 && 0 < sizeBytes <= maxSize && sizeBytes > maxChunks * chunkSize
      ensures sessions == if r.Ok? then old(sessions)[id := r.value] else old(sessions)
    {
      var plan := ComputeChunkPlan(sizeBytes, chunkSize, maxSize, maxChunks);
      if plan.Err? {
        return Err(plan.error);
      }
      var u := Created(sizeBytes, plan.value, checksum, now, expiresAt);
      sessions := sessions[id := u];
      r := Ok(u);
    }

    method RegisterChunk(id: nat, index: int, now: int, stored: Option<int>) returns (r: Result<Upload, UploadError>)
      requires Valid()
      modifies this
      ensures Valid()
      // Exactly a missing chunk of an open session, with the size that its place in the object calls for.
      ensures r.Ok? <==>
                && id in old(sessions)
                && var u := old(sessions)[id];
                   && u.status in {Initiated, Uploading} && now <= u.expiresAt
                   && 0 <= index < u.plan.totalChunks && index !in u.chunks
                   && stored == Some(if index < u.plan.totalChunks - 1 then u.plan.chunkSize
                                     else u.sizeBytes - u.plan.chunkSize * (u.plan.totalChunks - 1))
      ensures r.Ok? ==>
                var u := old(sessions)[id];
                r.value == u.(chunks := u.chunks[index := stored.value], uploadedChunks := |u.chunks| + 1,
                              status := Uploading, updatedAt := now)
      ensures r == if id in old(sessions) then Registered(old(sessions)[id], index, now, stored) else Err(NotFound)
      ensures sessions == if r.Ok? then old(sessions)[id := r.value] else old(sessions)
    {
      if id !in sessions {
        return Err(NotFound);
      }
      var u := sessions[id];
      RegisterKeepsSound(u, index, now, stored);
      if u.status == Complete || u.status == Aborted {
        return Err(NotAccepting);
      }
      if now > u.expiresAt {
        return Err(SessionExpired);
      }
      if index < 0 || index >= u.plan.totalChunks {
        return Err(OutOfRange);
      }
      if index in u.chunks {
        return Err(AlreadyReceived);
      }
      if stored.None? {
        return Err(NotInStorage);
      }
      if stored.value != ExpectedChunkSize(u.sizeBytes, u.plan, index) {
        return Err(SizeMismatch);
      }
      u := u.(chunks := u.chunks[index := stored.value]);
      if u.status == Initiated {
        u := u.(status := Uploading);
      }
      u := u.(uploadedChunks := |u.chunks|, updatedAt := now);
      sessions := sessions[id := u];
      r := Ok(u);
    }

    method CompleteSession(id: nat, now: int, assembled: Option<nat>) returns (r: Result<Upload, UploadError>)
      requires Valid()
      modifies this
      ensures Valid()
      // A complete session is returned as it is.
      ensures id in old(sessions) && old(sessions)[id].status == Complete ==> r == Ok(old(sessions)[id])
      // Any other is completed exactly when it is open, in time and whole, and storage found the digest that was declared.
      ensures r.Ok? <==>
                && id in old(sessions)
                && var u := old(sessions)[id];
                   || u.status == Complete
                   || (&& u.status != Aborted && now <= u.expiresAt
                       && (forall i :: i in u.chunks <==> 0 <= i < u.plan.totalChunks)
                       && assembled.Some? && (u.checksum.Some? ==> u.checksum == assembled))
      // What is stored and announced is what storage found.
      ensures r.Ok? && old(sessions)[id].status != Complete ==>
                var u := old(sessions)[id];
                r.value == u.(status := Complete, checksum := assembled, uploadedChunks := |u.chunks|, updatedAt := now,
                              outbox := u.outbox + [ContentUploaded(u.sizeBytes, assembled.value, u.plan.totalChunks)])
      ensures r == Err(ChecksumMismatch) <==>
                && id in old(sessions)
                && var u := old(sessions)[id];
                   && u.status in {Initiated, Uploading} && now <= u.expiresAt
                   && (forall i :: i in u.chunks <==> 0 <= i < u.plan.totalChunks)
                   && assembled.Some? && u.checksum.Some? && u.checksum != assembled
      ensures r == if id in old(sessions) then Completed(old(sessions)[id], now, assembled) else Err(NotFound)
      ensures sessions == if r.Ok? then old(sessions)[id := r.value] else old(sessions)
    {
      if id !in sessions {
        return Err(NotFound);
      }
      var u := sessions[id];
      CompleteKeepsSound(u, now, assembled);
      if u.status == Complete {
        assert sessions == sessions[id := u];
        return Ok(u);
      }
      if u.status == Aborted {
        return Err(NotAccepting);
      }
      if now > u.expiresAt {
        return Err(SessionExpired);
      }
      if u.chunks.Keys != Indices(u.plan.totalChunks) {
        return Err(MissingChunks);
      }
      if assembled.None? {
        return Err(StorageFailed);
      }
      if u.checksum.Some? && u.checksum.value != assembled.value {
        return Err(ChecksumMismatch);
      }
      u := u.(status := Complete, checksum := Some(assembled.value), uploadedChunks := |u.chunks|, updatedAt := now);
      u := u.(outbox := u.outbox + [ContentUploaded(u.sizeBytes, u.checksum.value, u.plan.totalChunks)]);
      sessions := sessions[id := u];
      r := Ok(u);
    }

    method Abort(id: nat, reason: nat, now: int, cleaned: bool) returns (r: Result<Upload, UploadError>)
      requires Valid()
      modifies this
      ensures Valid()
      ensures r.Ok? <==> id in old(sessions) && old(sessions)[id].status != Complete
      ensures r.Ok? ==>
                var u := old(sessions)[id];
                var again := u.status == Aborted;
                r.value == u.(status := Aborted,
                              updatedAt := if again && !cleaned then u.updatedAt else now,
                              cleanedAt := if cleaned then Some(now) else u.cleanedAt,
                              outbox := if again then u.outbox else u.outbox + [UploadAborted(Requested(reason))])
      ensures r == if id in old(sessions) then AbortedFor(old(sessions)[id], Requested(reason), now, cleaned) else Err(NotFound)
      ensures sessions == if r.Ok? then old(sessions)[id := r.value] else old(sessions)
    {
      if id !in sessions {
        return Err(NotFound);
      }
      var u := sessions[id];
      AbortKeepsSound(u, Requested(reason), now, cleaned);
      if u.status == Complete {
        return Err(AlreadyComplete);
      }
      var alreadyAborted := u.status == Aborted;
      if !alreadyAborted {
        u := u.(status := Aborted, updatedAt := now);
      }
      if cleaned {
        u := u.(cleanedAt := Some(now), updatedAt := now);
      }
      if !alreadyAborted {
        u := u.(outbox := u.outbox + [UploadAborted(Requested(reason))]);
      }
      sessions := sessions[id := u];
      r := Ok(u);
    }

    /** Abort the stale sessions that nobody has locked. */
    method AbortStale(now: int, locked: set<nat>, cleans: set<nat>) returns (touched: nat)
      modifies this
      ensures sessions.Keys == old(sessions).Keys
      ensures forall id :: id in sessions ==>
                sessions[id] ==
                if id in Stale(old(sessions), now, locked) then Reaped(old(sessions)[id], now, grace, id in cleans)
                else old(sessions)[id]
      ensures touched == |Stale(old(sessions), now, locked)|
    {
      var expired := Stale(sessions, now, locked);
      touched := |expired|;
      var todo := expired;
      while todo != {}
        invariant todo <= expired && sessions.Keys == old(sessions).Keys
        invariant forall id :: id in sessions ==>
                    sessions[id] == if id in expired && id !in todo then Reaped(old(sessions)[id], now, grace, id in cleans)
                                    else old(sessions)[id]
        decreases |todo|
      {
        var id :| id in todo;
        todo := todo - {id};
        var u := sessions[id];
        u := u.(status := Aborted, updatedAt := now);
        if id in cleans {
          u := u.(cleanedAt := Some(now), updatedAt := now);
        }
        u := u.(outbox := u.outbox + [UploadAborted(Expired)]);
        sessions := sessions[id := u];
      }
    }

    /** Clean again behind aborted sessions whose cleanup failed a while ago. */
    method RetryCleanups(now: int, locked: set<nat>, cleans: set<nat>) returns (touched: nat)
      modifies this
      ensures sessions.Keys == old(sessions).Keys
      ensures forall id :: id in sessions ==>
                sessions[id] ==
                if id in Leftover(old(sessions), now, grace, locked) then Cleaned(old(sessions)[id], now, id in cleans)
                else old(sessions)[id]
      ensures touched == |Leftover(old(sessions), now, grace, locked)|
    {
      var leftover := Leftover(sessions, now, grace, locked);
      touched := |leftover|;
      var todo := leftover;
      while todo != {}
        invariant todo <= leftover && sessions.Keys == old(sessions).Keys
        invariant forall id :: id in sessions ==>
                    sessions[id] == if id in leftover && id !in todo then Cleaned(old(sessions)[id], now, id in cleans)
                                    else old(sessions)[id]
        decreases |todo|
      {
        var id :| id in todo;
        todo := todo - {id};
        if id in cleans {
          sessions := sessions[id := sessions[id].(cleanedAt := Some(now), updatedAt := now)];
        }
      }
    }

    /**
     Abort stale sessions and retry failed cleanups, skipping rows that others have locked.
     `cleans` are the sessions whose storage can be cleaned this time.
     */
    method ReapExpired(now: int, locked: set<nat>, cleans: set<nat>) returns (touched: nat)
      requires Valid()
      modifies this
      ensures Valid() && sessions.Keys == old(sessions).Keys
      ensures forall id :: id in sessions ==>
                sessions[id] == if id in locked then old(sessions)[id] else Reaped(old(sessions)[id], now, grace, id in cleans)
      ensures touched == |Stale(old(sessions), now, locked)| + |Leftover(old(sessions), now, grace, locked)|
    {
      touched := AbortStale(now, locked, cleans);
      ghost var between := sessions;
      var again := RetryCleanups(now, locked, cleans);
      LeftoverUnchanged(old(sessions), between, now, grace, locked, cleans);
      touched := touched + again;
      forall id | id in sessions ensures Sound(sessions[id]) {
        ReapKeepsSound(old(sessions)[id], now, grace, id in cleans);
      }
    }
  }

  // ---- Transactions in any interleaving -------------------------------------------------

  /** What a transaction may do to a session it has locked. */
  datatype Op =
    | Register(index: int, now: int, stored: Option<int>)
    | Finish(now: int, assembled: Option<nat>)
    | Cancel(reason: nat, now: int, cleaned: bool)
    | Reap(now: int, grace: nat, cleaned: bool)

  function Perform(u: Upload, op: Op): Result<Upload, UploadError> {
    match op
    case Register(index, now, stored) => Registered(u, index, now, stored)
    case Finish(now, assembled) => Completed(u, now, assembled)
    case Cancel(reason, now, cleaned) => AbortedFor(u, Requested(reason), now, cleaned)
    case Reap(now, grace, cleaned) => Ok(Reaped(u, now, grace, cleaned))
  }

  /** A held row lock, with the row as its transaction would commit it. */
  datatype Held = Held(tx: nat, row: Upload)

  datatype System = System(committed: map<nat, Upload>, locks: map<nat, Held>)

  datatype Action =
    | Create(id: nat, sizeBytes: int, chunkSize: int, checksum: Option<nat>, now: int, expiresAt: int,
             maxSize: int, maxChunks: int)
    | Lock(tx: nat, id: nat)
    | Work(tx: nat, id: nat, op: Op)
    | Commit(tx: nat)
    | Rollback(tx: nat)

  const INITIAL := System(map[], map[])

  function Released(locks: map<nat, Held>, tx: nat): map<nat, Held> {
    map id | id in locks && locks[id].tx != tx :: locks[id]
  }

  /** The row after an operation, or the rollback after its error. */
  function Worked(s: System, tx: nat, id: nat, r: Result<Upload, UploadError>): System {
    s.(locks := if r.Ok? then s.locks[id := Held(tx, r.value)] else Released(s.locks, tx))
  }

  /** One step; a step that does not apply changes nothing, and a failed operation rolls its transaction back. */
  function Next(s: System, a: Action): System {
    match a
    case Create(id, sizeBytes, chunkSize, checksum, now, expiresAt, maxSize, maxChunks) =>
      var plan := ComputeChunkPlan(sizeBytes, chunkSize, maxSize, maxChunks);
      if id in s.committed || plan.Err? then s
      else s.(committed := s.committed[id := Created(sizeBytes, plan.value, checksum, now, expiresAt)])
    case Lock(tx, id) =>
      if id !in s.committed || id in s.locks then s
      else s.(locks := s.locks[id := Held(tx, s.committed[id])])
    case Work(tx, id, op) =>
      if id !in s.locks || s.locks[id].tx != tx then s
      else Worked(s, tx, id, Perform(s.locks[id].row, op))
    case Commit(tx) =>
      System(map id | id in s.committed :: if id in s.locks && s.locks[id].tx == tx then s.locks[id].row else s.committed[id],
             Released(s.locks, tx))
    case Rollback(tx) =>
      s.(locks := Released(s.locks, tx))
  }

  function Run(s: System, acts: seq<Action>): System {
    if acts == [] then s else Next(Run(s, acts[..|acts| - 1]), acts[|acts| - 1])
  }

  ghost predicate Inv(s: System) {
    && (forall id :: id in s.committed ==> Sound(s.committed[id]))
    && (forall id :: id in s.locks ==>
          id in s.committed && Sound(s.locks[id].row) && Follows(s.committed[id], s.locks[id].row))
  }

  /** No session is lost, and each has only become what its rules allow. */
  ghost predicate AllFollow(s: System, t: System) {
    forall id :: id in s.committed ==> id in t.committed && Follows(s.committed[id], t.committed[id])
  }

  lemma PerformKeepsSound(u: Upload, op: Op)
    requires Sound(u)
    ensures var r := Perform(u, op); r.Ok? ==> Sound(r.value) && Follows(u, r.value)
  {
    match op
    case Register(index, now, stored) => RegisterKeepsSound(u, index, now, stored);
    case Finish(now, assembled) => CompleteKeepsSound(u, now, assembled);
    case Cancel(reason, now, cleaned) => AbortKeepsSound(u, Requested(reason), now, cleaned);
    case Reap(now, grace, cleaned) => ReapKeepsSound(u, now, grace, cleaned);
  }

  lemma WorkedKeepsInv(s: System, tx: nat, id: nat, r: Result<Upload, UploadError>)
    requires Inv(s) && id in s.committed && (r.Ok? ==> Sound(r.value) && Follows(s.committed[id], r.value))
    ensures Inv(Worked(s, tx, id, r))
  {
  }

  lemma WorkKeepsInv(s: System, tx: nat, id: nat, op: Op)
    requires Inv(s) && id in s.locks && s.locks[id].tx == tx
    ensures Inv(Next(s, Work(tx, id, op)))
  {
    var row := s.locks[id].row;
    var r := Perform(row, op);
    PerformKeepsSound(row, op);
    if r.Ok? {
      FollowsOn(s.committed[id], row, r.value);
    }
    WorkedKeepsInv(s, tx, id, r);
  }

  lemma FollowsItself(u: Upload)
    ensures Follows(u, u)
  {
  }

  /** A committed row is either the one before or the one its transaction held. */
  lemma CommitFollows(s: System, tx: nat)
    requires Inv(s)
    ensures AllFollow(s, Next(s, Commit(tx)))
  {
    var t := Next(s, Commit(tx));
    forall id | id in s.committed ensures Follows(s.committed[id], t.committed[id]) {
      FollowsItself(s.committed[id]);
      assert t.committed[id] == s.committed[id] || (id in s.locks && t.committed[id] == s.locks[id].row);
    }
  }

  lemma CommitKeepsInv(s: System, tx: nat)
    requires Inv(s)
    ensures Inv(Next(s, Commit(tx)))
  {
    var t := Next(s, Commit(tx));
    forall id | id in t.committed ensures Sound(t.committed[id]) {
      assert t.committed[id] == s.committed[id] || (id in s.locks && t.committed[id] == s.locks[id].row);
    }
    forall id | id in t.locks ensures id in t.committed && t.locks[id] == s.locks[id] && t.committed[id] == s.committed[id] {
    }
  }

  lemma AddingKeepsInv(s: System, id: nat, u: Upload)
    requires Inv(s) && id !in s.committed && Sound(u)
    ensures Inv(s.(committed := s.committed[id := u]))
  {
  }

  lemma LockKeepsInv(s: System, tx: nat, id: nat)
    requires Inv(s)
    ensures Inv(Next(s, Lock(tx, id)))
  {
  }

  lemma RollbackKeepsInv(s: System, tx: nat)
    requires Inv(s)
    ensures Inv(s.(locks := Released(s.locks, tx)))
  {
  }

  /** Only a commit changes a committed session. */
  lemma NextFollows(s: System, a: Action)
    requires Inv(s)
    ensures AllFollow(s, Next(s, a))
  {
    if a.Commit? {
      CommitFollows(s, a.tx);
    } else {
      forall id | id in s.committed ensures id in Next(s, a).committed && Next(s, a).committed[id] == s.committed[id] {
      }
    }
  }

  lemma NextKeepsInv(s: System, a: Action)
    requires Inv(s)
    ensures Inv(Next(s, a))
  {
    match a
    case Work(tx, id, op) =>
      if id in s.locks && s.locks[id].tx == tx {
        WorkKeepsInv(s, tx, id, op);
      }
    case Commit(tx) => CommitKeepsInv(s, tx);
    case Create(id, sizeBytes, chunkSize, checksum, now, expiresAt, maxSize, maxChunks) =>
      var plan := ComputeChunkPlan(sizeBytes, chunkSize, maxSize, maxChunks);
      if id !in s.committed && plan.Ok? {
        AddingKeepsInv(s, id, Created(sizeBytes, plan.value, checksum, now, expiresAt));
      }
    case Lock(tx, id) => LockKeepsInv(s, tx, id);
    case Rollback(tx) => RollbackKeepsInv(s, tx);
  }

  lemma {:induction false} RunKeepsInv(s: System, acts: seq<Action>)
    requires Inv(s)
    ensures Inv(Run(s, acts)) && AllFollow(s, Run(s, acts))
  {
    if acts != [] {
      var before := acts[..|acts| - 1];
      RunKeepsInv(s, before);
      var mid := Run(s, before);
      NextKeepsInv(mid, acts[|acts| - 1]);
      NextFollows(mid, acts[|acts| - 1]);
      var last := Next(mid, acts[|acts| - 1]);
      forall id | id in s.committed ensures id in last.committed && Follows(s.committed[id], last.committed[id]) {
        FollowsOn(s.committed[id], mid.committed[id], last.committed[id]);
      }
    }
  }

  /**
     In every interleaving, with crashes and rollbacks anywhere, every committed session has
     exactly the outbox rows its status calls for, and a complete one has exactly its chunks.
     */
  lemma CommittedSessionsAreConsistent(acts: seq<Action>, id: nat)
    ensures var s := Run(INITIAL, acts); id in s.committed ==> Consistent(s.committed[id])
  {
    RunKeepsInv(INITIAL, acts);
    var s := Run(INITIAL, acts);
    if id in s.committed {
      SoundIsConsistent(s.committed[id]);
    }
  }

  /** COMPLETE and ABORTED are final: later runs change neither the status, the chunks, the checksum nor the outbox. */
  lemma EndsAreFinal(acts: seq<Action>, more: seq<Action>, id: nat)
    ensures var s := Run(INITIAL, acts);
            var t := Run(s, more);
            id in s.committed && Terminal(s.committed[id]) ==>
              && id in t.committed
              && t.committed[id].status == s.committed[id].status
              && t.committed[id].chunks == s.committed[id].chunks
              && t.committed[id].checksum == s.committed[id].checksum
              && t.committed[id].outbox == s.committed[id].outbox
  {
    RunKeepsInv(INITIAL, acts);
    RunKeepsInv(Run(INITIAL, acts), more);
  }

  // ---- Where committed sessions come from --------------------------------------------------

  /** The call that created a session; its declared checksum stays until the session is complete, which it must then match. */
  predicate Opens(a: Action, id: nat, u: Upload) {
    && a.Create? && a.id == id && a.sizeBytes == u.sizeBytes && a.chunkSize == u.plan.chunkSize && a.expiresAt == u.expiresAt
    && (if u.status == Complete then a.checksum.None? || a.checksum == u.checksum else a.checksum == u.checksum)
  }

  /** The call that registered a chunk, in time, with the size that storage had. */
  predicate Registers(a: Action, id: nat, u: Upload, index: int) {
    && a.Work? && a.id == id && a.op.Register? && a.op.index == index && a.op.now <= u.expiresAt
    && index in u.chunks && a.op.stored == Some(u.chunks[index])
  }

  /** The call that completed a session, in time, with the digest that storage computed. */
  predicate Finishes(a: Action, id: nat, u: Upload) {
    && a.Work? && a.id == id && a.op.Finish? && a.op.now <= u.expiresAt
    && a.op.assembled.Some? && u.checksum == a.op.assembled
    && u.outbox == [ContentUploaded(u.sizeBytes, a.op.assembled.value, u.plan.totalChunks)]
  }

  /** The call that aborted a session: on request, or past its expiry. */
  predicate Ends(a: Action, id: nat, u: Upload) {
    && a.Work? && a.id == id
    && match a.op
       case Cancel(reason, _, _) => u.outbox == [UploadAborted(Requested(reason))]
       case Reap(now, _, _) => u.expiresAt < now && u.outbox == [UploadAborted(Expired)]
       case _ => false
  }

  /** Everything about a session was done by some call. */
  ghost predicate Explained(acts: seq<Action>, id: nat, u: Upload) {
    && (exists a :: a in acts && Opens(a, id, u))
    && (forall i :: i in u.chunks ==> exists a :: a in acts && Registers(a, id, u, i))
    && (u.status == Complete ==> exists a :: a in acts && Finishes(a, id, u))
    && (u.status == Aborted ==> exists a :: a in acts && Ends(a, id, u))
  }

  lemma ExplainedStays(fewer: seq<Action>, more: seq<Action>, id: nat, u: Upload)
    requires Explained(fewer, id, u) && forall a :: a in fewer ==> a in more
    ensures Explained(more, id, u)
  {
  }

  lemma ChunkStaysExplained(acts: seq<Action>, id: nat, u: Upload, v: Upload, i: int)
    requires Explained(acts, id, u) && i in u.chunks && i in v.chunks && v.chunks[i] == u.chunks[i] && v.expiresAt == u.expiresAt
    ensures exists a :: a in acts && Registers(a, id, v, i)
  {
    var a :| a in acts && Registers(a, id, u, i);
    assert Registers(a, id, v, i);
  }

  lemma PerformIsExplained(acts: seq<Action>, tx: nat, id: nat, u: Upload, op: Op)
    requires Explained(acts, id, u) && Sound(u) && Work(tx, id, op) in acts
    ensures Perform(u, op).Ok? ==> Explained(acts, id, Perform(u, op).value)
  {
    var r := Perform(u, op);
    if r.Ok? {
      var v, work := r.value, Work(tx, id, op);
      var c :| c in acts && Opens(c, id, u);
      assert Opens(c, id, v);
      forall i | i in v.chunks ensures exists a :: a in acts && Registers(a, id, v, i) {
        if i in u.chunks {
          ChunkStaysExplained(acts, id, u, v, i);
        } else {
          assert Registers(work, id, v, i);
        }
      }
      if v.status == u.status {
        assert v.status == Complete ==> v == u;
        if v.status == Aborted {
          var a :| a in acts && Ends(a, id, u);
          assert Ends(a, id, v);
        }
      } else {
        assert v.status == Complete ==> Finishes(work, id, v);
        assert v.status == Aborted ==> Ends(work, id, v);
      }
    }
  }

  ghost predicate AllExplained(s: System, acts: seq<Action>) {
    && (forall id :: id in s.committed ==> Explained(acts, id, s.committed[id]))
    && (forall id :: id in s.locks ==> Explained(acts, id, s.locks[id].row))
  }

  lemma NextIsExplained(s: System, acts: seq<Action>, a: Action)
    requires Inv(s) && AllExplained(s, acts) && a in acts
    ensures AllExplained(Next(s, a), acts)
  {
    match a
    case Create(_, _, _, _, _, _, _, _) => CreateIsExplained(s, acts, a);
    case Work(_, _, _) => WorkIsExplained(s, acts, a);
    case _ =>
  }

  lemma CreateIsExplained(s: System, acts: seq<Action>, a: Action)
    requires AllExplained(s, acts) && a in acts && a.Create?
    ensures AllExplained(Next(s, a), acts)
  {
    var plan := ComputeChunkPlan(a.sizeBytes, a.chunkSize, a.maxSize, a.maxChunks);
    if plan.Ok? {
      assert Opens(a, a.id, Created(a.sizeBytes, plan.value, a.checksum, a.now, a.expiresAt));
    }
  }

  lemma WorkIsExplained(s: System, acts: seq<Action>, a: Action)
    requires Inv(s) && AllExplained(s, acts) && a in acts && a.Work?
    ensures AllExplained(Next(s, a), acts)
  {
    if a.id in s.locks {
      PerformIsExplained(acts, a.tx, a.id, s.locks[a.id].row, a.op);
    }
  }

  lemma {:induction false} RunIsExplained(acts: seq<Action>)
    ensures AllExplained(Run(INITIAL, acts), acts)
  {
    if acts != [] {
      var before := acts[..|acts| - 1];
      var s := Run(INITIAL, before);
      RunIsExplained(before);
      RunKeepsInv(INITIAL, before);
      forall id, u | Explained(before, id, u) ensures Explained(acts, id, u) {
        ExplainedStays(before, acts, id, u);
      }
      NextIsExplained(s, acts, acts[|acts| - 1]);
    }
  }

  /**
   In every interleaving, a committed complete session holds and announces the digest that storage
   computed for the call that completed it, and one declared at creation was the same.
   */
  lemma CompleteIsVerified(acts: seq<Action>, id: nat)
    ensures var s := Run(INITIAL, acts);
            id in s.committed && s.committed[id].status == Complete ==>
              var u := s.committed[id];
              && (exists a :: a in acts && Finishes(a, id, u))
              && (exists a :: a in acts && a.Create? && a.id == id && (a.checksum.None? || a.checksum == u.checksum))
  {
    RunIsExplained(acts);
    var s := Run(INITIAL, acts);
    if id in s.committed {
      var c :| c in acts && Opens(c, id, s.committed[id]);
    }
  }

  /** In every interleaving, every committed chunk was registered in time, and every abort was asked for or came after expiry. */
  lemma EverythingWasAskedFor(acts: seq<Action>, id: nat)
    ensures var s := Run(INITIAL, acts);
            id in s.committed ==>
              var u := s.committed[id];
              && (forall i :: i in u.chunks ==> exists a :: a in acts && Registers(a, id, u, i))
              && (u.status == Aborted ==> exists a :: a in acts && Ends(a, id, u))
  {
    RunIsExplained(acts);
  }

  /** A transaction that nobody disturbs is the operation itself. */
  lemma UninterruptedTransaction(s: System, tx: nat, id: nat, op: Op)
    requires id in s.committed && id !in s.locks && forall j :: j in s.locks ==> s.locks[j].tx != tx
    ensures var r := Perform(s.committed[id], op);
            Run(s, [Lock(tx, id), Work(tx, id, op), Commit(tx)])
            == s.(committed := if r.Ok? then s.committed[id := r.value] else s.committed)
  {
    ThreeSteps(s, Lock(tx, id), Work(tx, id, op), Commit(tx));
    WorkedThenCommitted(s, tx, id, Perform(s.committed[id], op));
  }

  lemma WorkedThenCommitted(s: System, tx: nat, id: nat, r: Result<Upload, UploadError>)
    requires id in s.committed && id !in s.locks && forall j :: j in s.locks ==> s.locks[j].tx != tx
    ensures var locked := Next(s, Lock(tx, id));
            Next(Worked(locked, tx, id, r), Commit(tx))
            == s.(committed := if r.Ok? then s.committed[id := r.value] else s.committed)
  {
    var worked := Worked(Next(s, Lock(tx, id)), tx, id, r);
    assert Released(worked.locks, tx) == s.locks;
    assert Next(worked, Commit(tx)).committed == if r.Ok? then s.committed[id := r.value] else s.committed;
  }

  lemma ThreeSteps(s: System, a: Action, b: Action, c: Action)
    ensures Run(s, [a, b, c]) == Next(Next(Next(s, a), b), c)
  {
    assert [a, b, c][..2] == [a, b] && [a, b][..1] == [a] && [a][..0] == [];
    assert Run(s, [a]) == Next(s, a);
    assert Run(s, [a, b]) == Next(Run(s, [a]), b);
  }
}
