/**
 Bounded newest-tail retention of submit records (dashboard/src/data/submitRetention.ts) and the
 upsert that applies it (sessionCockpitStore.ts).
 */
module SubmitRetention {
  import opened Prelude
  import opened SubmitMachine

  const HISTORY_WINDOW: nat := 64
  const QUEUE_WINDOW: nat := 64

  predicate IsProtected(record: SubmitRecord) {
    record.phase in {Sending, QueuedPhase, Delivering, Ambiguous, Reconciling, Endgame, RouteErrorPhase, GenerationLostPhase}
  }

  /** Compaction may forget exactly the records that need no more attention: those with the phase of a
      definitive server word, those not found, and those released. */
  lemma ForgettableIff(record: SubmitRecord)
    ensures !IsProtected(record) <==>
            record.phase in {NotFoundPhase, Released} || exists state :: IsDefinitive(state) && record.phase == PhaseOf(state)
  {
    assert IsDefinitive(Delivered) && IsDefinitive(Withdrawn) && IsDefinitive(Rejected) && IsDefinitive(Unsupported);
    assert PhaseOf(Delivered) == Accepted && PhaseOf(Withdrawn) == WithdrawnPhase && PhaseOf(Rejected) == RejectedPhase;
    assert PhaseOf(Unsupported) == UnsupportedPhase;
  }

  function Ids(records: seq<SubmitRecord>): set<string> {
    set r | r in records :: r.requestId
  }

  function ProtectedIds(records: seq<SubmitRecord>): set<string> {
    set r | r in records && IsProtected(r) :: r.requestId
  }

  /** The records whose id lies in `ids`, in order. */
  function Keep(records: seq<SubmitRecord>, ids: set<string>): seq<SubmitRecord> {
    if records == [] then []
    else (if records[0].requestId in ids then [records[0]] else []) + Keep(records[1..], ids)
  }

  /** JavaScript's slice(-limit). */
  function Newest<T>(xs: seq<T>, limit: nat): seq<T> {
    if |xs| <= limit then xs else xs[|xs| - limit..]
  }

  function Compact(records: seq<SubmitRecord>): seq<SubmitRecord> {
    var protectedIds := ProtectedIds(records);
    var settledIds := Ids(Newest(Keep(records, Ids(records) - protectedIds), HISTORY_WINDOW));
    Keep(records, protectedIds + settledIds)
  }

  function CompactQueue<T>(entries: seq<T>): seq<T> {
    Newest(entries, QUEUE_WINDOW)
  }

  // ---------------------------------------------------------------- filtering by id

  lemma AppendAssoc<T>(a: seq<T>, b: seq<T>, c: seq<T>)
    ensures a + (b + c) == (a + b) + c
  {
  }

  lemma {:induction false} KeepAppend(a: seq<SubmitRecord>, b: seq<SubmitRecord>, ids: set<string>)
    ensures Keep(a + b, ids) == Keep(a, ids) + Keep(b, ids)
  {
    if a == [] {
      assert a + b == b;
    } else {
      var head := if a[0].requestId in ids then [a[0]] else [];
      KeepAppend(a[1..], b, ids);
      assert (a + b)[1..] == a[1..] + b && (a + b)[0] == a[0];
      AppendAssoc(head, Keep(a[1..], ids), Keep(b, ids));
    }
  }

  lemma {:induction false} KeepMembers(records: seq<SubmitRecord>, ids: set<string>)
    ensures forall r :: r in Keep(records, ids) <==> r in records && r.requestId in ids
  {
    if records != [] {
      KeepMembers(records[1..], ids);
    }
  }

  lemma {:induction false} KeepWithin(records: seq<SubmitRecord>, a: set<string>, b: set<string>)
    requires forall r :: r in records ==> (r.requestId in a <==> r.requestId in b)
    ensures Keep(records, a) == Keep(records, b)
  {
    if records != [] {
      assert records[0] in records;
      KeepWithin(records[1..], a, b);
    }
  }

  lemma {:induction false} KeepAll(records: seq<SubmitRecord>, ids: set<string>)
    requires forall r :: r in records ==> r.requestId in ids
    ensures Keep(records, ids) == records
  {
    if records != [] {
      assert records[0] in records;
      KeepAll(records[1..], ids);
    }
  }

  lemma {:induction false} KeepNone(records: seq<SubmitRecord>, ids: set<string>)
    requires forall r :: r in records ==> r.requestId !in ids
    ensures Keep(records, ids) == []
  {
    if records != [] {
      assert records[0] in records;
      KeepNone(records[1..], ids);
    }
  }

  lemma {:induction false} KeepTwice(records: seq<SubmitRecord>, a: set<string>, b: set<string>)
    ensures Keep(Keep(records, a), b) == Keep(records, a * b)
  {
    if records != [] {
      var head, rest := records[0], records[1..];
      KeepTwice(rest, a, b);
      if head.requestId in a {
        assert Keep(records, a) == [head] + Keep(rest, a);
        assert ([head] + Keep(rest, a))[1..] == Keep(rest, a);
      } else {
        assert Keep(records, a) == Keep(rest, a);
      }
    }
  }

  /** Selecting by the ids of a suffix leaves that suffix as the newest part. */
  lemma SuffixSurvives(records: seq<SubmitRecord>, limit: nat)
    ensures Newest(Keep(records, Ids(Newest(records, limit))), limit) == Newest(records, limit)
  {
    var newest := Newest(records, limit);
    var older := records[..|records| - |newest|];
    assert records == older + newest;
    KeepAppend(older, newest, Ids(newest));
    KeepAll(newest, Ids(newest));
    if |records| <= limit { assert older == []; }
  }

  // ---------------------------------------------------------------- compaction

  predicate DistinctIds(records: seq<SubmitRecord>) {
    forall i, j :: 0 <= i < j < |records| ==> records[i].requestId != records[j].requestId
  }

  /** The settled records, the ones compaction may evict. */
  function SettledRecords(records: seq<SubmitRecord>): seq<SubmitRecord> {
    Keep(records, Ids(records) - ProtectedIds(records))
  }

  lemma CompactMembers(records: seq<SubmitRecord>)
    ensures forall r :: r in Compact(records) ==> r in records
    ensures forall r :: r in records && IsProtected(r) ==> r in Compact(records)
  {
    KeepMembers(records, ProtectedIds(records) + Ids(Newest(SettledRecords(records), HISTORY_WINDOW)));
  }

  lemma CompactIds(records: seq<SubmitRecord>)
    ensures ProtectedIds(Compact(records)) == ProtectedIds(records)
    ensures Ids(Compact(records)) == ProtectedIds(records) + Ids(Newest(SettledRecords(records), HISTORY_WINDOW))
  {
    var settled := SettledRecords(records);
    var newest := Newest(settled, HISTORY_WINDOW);
    CompactMembers(records);
    KeepMembers(records, ProtectedIds(records) + Ids(newest));
    KeepMembers(records, Ids(records) - ProtectedIds(records));
    forall id | id in Ids(newest) ensures id in Ids(Compact(records)) {
      var r :| r in newest && r.requestId == id;
      assert r in settled && r in records && r in Compact(records);
    }
    forall id | id in ProtectedIds(records) ensures id in ProtectedIds(Compact(records)) && id in Ids(Compact(records)) {
      var r :| r in records && IsProtected(r) && r.requestId == id;
      assert r in Compact(records);
    }
  }

  lemma CompactSettled(records: seq<SubmitRecord>)
    ensures SettledRecords(Compact(records)) == Keep(SettledRecords(records), Ids(Newest(SettledRecords(records), HISTORY_WINDOW)))
  {
    var shielded, newest := ProtectedIds(records), Ids(Newest(SettledRecords(records), HISTORY_WINDOW));
    CompactIds(records);
    KeepTwice(records, shielded + newest, Ids(Compact(records)) - shielded);
    KeepTwice(records, Ids(records) - shielded, newest);
    var left := (shielded + newest) * (Ids(Compact(records)) - shielded);
    var right := (Ids(records) - shielded) * newest;
    forall r | r in records ensures r.requestId in left <==> r.requestId in right {
      assert r.requestId in Ids(records);
    }
    KeepWithin(records, left, right);
  }

  /** Compaction is idempotent, on every record list. */
  lemma CompactIdempotent(records: seq<SubmitRecord>)
    ensures Compact(Compact(records)) == Compact(records)
  {
    var once := Compact(records);
    CompactIds(records);
    CompactSettled(records);
    SuffixSurvives(SettledRecords(records), HISTORY_WINDOW);
    KeepAll(once, ProtectedIds(records) + Ids(Newest(SettledRecords(records), HISTORY_WINDOW)));
  }

  /** Filtering keeps every ordering between records that holds of the whole list. */
  lemma StampedTail(records: seq<SubmitRecord>, stamp: map<string, int>)
    requires records != [] && StampedInOrder(records, stamp)
    ensures StampedInOrder(records[1..], stamp) && StampedAfter(records[0], records[1..], stamp)
  {
  }

  lemma StampedCons(head: SubmitRecord, rest: seq<SubmitRecord>, stamp: map<string, int>)
    requires StampedInOrder(rest, stamp) && head.requestId in stamp && StampedAfter(head, rest, stamp)
    ensures StampedInOrder([head] + rest, stamp)
  {
  }

  lemma {:induction false} KeepOrdered(records: seq<SubmitRecord>, ids: set<string>, stamp: map<string, int>)
    requires StampedInOrder(records, stamp)
    ensures StampedInOrder(Keep(records, ids), stamp)
  {
    if records != [] {
      var rest := records[1..];
      StampedTail(records, stamp);
      KeepOrdered(rest, ids, stamp);
      KeepMembers(rest, ids);
      if records[0].requestId in ids { StampedCons(records[0], Keep(rest, ids), stamp); }
      else { assert Keep(records, ids) == Keep(rest, ids); }
    }
  }

  /** Every record is stamped, and the list is in strictly increasing stamp order. */
  predicate StampedInOrder(records: seq<SubmitRecord>, stamp: map<string, int>) {
    && (forall i :: 0 <= i < |records| ==> records[i].requestId in stamp)
    && (forall i, j :: 0 <= i < j < |records| ==> stamp[records[i].requestId] < stamp[records[j].requestId])
  }

  predicate StampedAfter(head: SubmitRecord, records: seq<SubmitRecord>, stamp: map<string, int>) {
    && head.requestId in stamp
    && forall r :: r in records ==> r.requestId in stamp && stamp[head.requestId] < stamp[r.requestId]
  }

  lemma StampedIsDistinct(records: seq<SubmitRecord>, stamp: map<string, int>)
    requires StampedInOrder(records, stamp)
    ensures DistinctIds(records)
  {
  }

  lemma {:induction false} KeepDistinct(records: seq<SubmitRecord>, ids: set<string>)
    requires DistinctIds(records)
    ensures DistinctIds(Keep(records, ids))
  {
    if records != [] {
      var rest := records[1..];
      KeepDistinct(rest, ids);
      KeepMembers(rest, ids);
      var kept := Keep(rest, ids);
      forall j | 0 <= j < |kept| ensures records[0].requestId != kept[j].requestId {
        assert kept[j] in rest;
      }
    }
  }

  /** A list that needs no eviction is untouched. */
  lemma CompactStable(records: seq<SubmitRecord>)
    requires |SettledRecords(records)| <= HISTORY_WINDOW
    ensures Compact(records) == records
  {
    KeepMembers(records, Ids(records) - ProtectedIds(records));
    var settled := SettledRecords(records);
    forall r | r in records ensures r.requestId in ProtectedIds(records) + Ids(settled) {
      if r.requestId !in ProtectedIds(records) { assert r.requestId in Ids(records); assert r in settled; }
    }
    KeepAll(records, ProtectedIds(records) + Ids(settled));
  }

  lemma {:induction false} SuffixByIds(records: seq<SubmitRecord>, cut: nat)
    requires DistinctIds(records) && cut <= |records|
    ensures Keep(records, Ids(records[cut..])) == records[cut..]
  {
    var ids := Ids(records[cut..]);
    assert records == records[..cut] + records[cut..];
    KeepAppend(records[..cut], records[cut..], ids);
    KeepAll(records[cut..], ids);
    forall r | r in records[..cut] ensures r.requestId !in ids {
      var i :| 0 <= i < cut && records[i] == r;
      assert forall j :: cut <= j < |records| ==> records[j].requestId != r.requestId;
    }
    KeepNone(records[..cut], ids);
  }

  /** With distinct ids, compaction keeps exactly the newest 64 settled records. */
  lemma CompactBound(records: seq<SubmitRecord>)
    requires DistinctIds(records)
    ensures SettledRecords(Compact(records)) == Newest(SettledRecords(records), HISTORY_WINDOW)
    ensures |SettledRecords(Compact(records))| <= HISTORY_WINDOW
  {
    var settled := SettledRecords(records);
    CompactSettled(records);
    KeepDistinct(records, Ids(records) - ProtectedIds(records));
    if |settled| <= HISTORY_WINDOW {
      KeepAll(settled, Ids(settled));
    } else {
      SuffixByIds(settled, |settled| - HISTORY_WINDOW);
    }
  }

  // ---------------------------------------------------------------- upsert

  /** findIndex by request id; |records| stands for the source's -1. */
  function IndexOf(records: seq<SubmitRecord>, id: string): (i: nat)
    ensures i <= |records|
    ensures i < |records| ==> records[i].requestId == id
    ensures forall j :: 0 <= j < i ==> records[j].requestId != id
  {
    if records == [] || records[0].requestId == id then 0 else 1 + IndexOf(records[1..], id)
  }

  function Written(records: seq<SubmitRecord>, record: SubmitRecord): seq<SubmitRecord> {
    var i := IndexOf(records, record.requestId);
    if i == |records| then records + [record] else records[i := record]
  }

  function Upsert(records: seq<SubmitRecord>, record: SubmitRecord): seq<SubmitRecord> {
    Compact(Written(records, record))
  }

  function Find(records: seq<SubmitRecord>, id: string): (found: Option<SubmitRecord>)
    ensures found.Some? ==> found.value in records && found.value.requestId == id
  {
    var i := IndexOf(records, id);
    if i == |records| then None else Some(records[i])
  }

  lemma RewriteKeepsIds(records: seq<SubmitRecord>, i: nat, record: SubmitRecord)
    requires i < |records| && records[i].requestId == record.requestId && IsProtected(records[i]) && IsProtected(record)
    ensures Ids(records[i := record]) == Ids(records) && ProtectedIds(records[i := record]) == ProtectedIds(records)
  {
    var next := records[i := record];
    forall r | r in records ensures exists t :: t in next && t.requestId == r.requestId && (IsProtected(t) <==> IsProtected(r)) {
      var k :| 0 <= k < |records| && records[k] == r;
      assert next[k] in next;
    }
    forall t | t in next ensures exists r :: r in records && t.requestId == r.requestId && (IsProtected(t) <==> IsProtected(r)) {
      var k :| 0 <= k < |next| && next[k] == t;
      assert records[k] in records;
    }
  }

  /** Rewriting a protected record as another protected one evicts nothing. */
  lemma RewriteProtected(records: seq<SubmitRecord>, i: nat, record: SubmitRecord)
    requires DistinctIds(records) && |SettledRecords(records)| <= HISTORY_WINDOW
    requires i < |records| && records[i].requestId == record.requestId
    requires IsProtected(records[i]) && IsProtected(record)
    ensures Upsert(records, record) == records[i := record]
    ensures DistinctIds(records[i := record]) && |SettledRecords(records[i := record])| <= HISTORY_WINDOW
  {
    assert IndexOf(records, record.requestId) == i;
    RewriteKeepsIds(records, i, record);
    KeepUnaffected(records, i, record, Ids(records) - ProtectedIds(records));
    CompactStable(records[i := record]);
  }

  lemma KeepUnaffected(records: seq<SubmitRecord>, i: nat, record: SubmitRecord, ids: set<string>)
    requires i < |records| && records[i].requestId == record.requestId && record.requestId !in ids
    ensures Keep(records[i := record], ids) == Keep(records, ids)
  {
    assert records == records[..i] + [records[i]] + records[i + 1..];
    assert records[i := record] == records[..i] + [record] + records[i + 1..];
    KeepAppend(records[..i] + [records[i]], records[i + 1..], ids);
    KeepAppend(records[..i] + [record], records[i + 1..], ids);
    KeepAppend(records[..i], [records[i]], ids);
    KeepAppend(records[..i], [record], ids);
  }

  /** The retained history after a run of upserts, with the moment of the insertion that put each id there; an
      evicted id that is written again is inserted anew. */
  datatype Ledger = Ledger(records: seq<SubmitRecord>, born: map<string, int>, clock: int)

  function Insert(ledger: Ledger, record: SubmitRecord): Ledger {
    var born := if IndexOf(ledger.records, record.requestId) == |ledger.records|
                then ledger.born[record.requestId := ledger.clock] else ledger.born;
    Ledger(Upsert(ledger.records, record), born, ledger.clock + 1)
  }

  function InsertAll(ledger: Ledger, writes: seq<SubmitRecord>): Ledger
    decreases |writes|
  {
    if writes == [] then ledger else InsertAll(Insert(ledger, writes[0]), writes[1..])
  }

  /** What every run of upserts maintains. */
  ghost predicate Retained(ledger: Ledger) {
    && StampedInOrder(ledger.records, ledger.born)
    && (forall id :: id in ledger.born ==> ledger.born[id] < ledger.clock)
    && |SettledRecords(ledger.records)| <= HISTORY_WINDOW
    && Compact(ledger.records) == ledger.records
  }

  lemma WrittenMembers(records: seq<SubmitRecord>, record: SubmitRecord)
    requires DistinctIds(records)
    ensures record in Written(records, record)
    ensures forall x :: x in Written(records, record) && x.requestId != record.requestId ==> x in records
  {
    assert Written(records, record)[IndexOf(records, record.requestId)] == record;
  }

  lemma WrittenDistinct(records: seq<SubmitRecord>, record: SubmitRecord)
    requires DistinctIds(records)
    ensures DistinctIds(Written(records, record))
  {
  }

  lemma AppendStamped(records: seq<SubmitRecord>, record: SubmitRecord, born: map<string, int>, clock: int)
    requires StampedInOrder(records, born) && (forall id :: id in born ==> born[id] < clock)
    requires forall i :: 0 <= i < |records| ==> records[i].requestId != record.requestId
    ensures StampedInOrder(records + [record], born[record.requestId := clock])
  {
  }

  lemma ReplaceStamped(records: seq<SubmitRecord>, i: nat, record: SubmitRecord, born: map<string, int>)
    requires StampedInOrder(records, born) && i < |records| && records[i].requestId == record.requestId
    ensures StampedInOrder(records[i := record], born)
  {
  }

  lemma WrittenOrdered(ledger: Ledger, record: SubmitRecord)
    requires Retained(ledger)
    ensures StampedInOrder(Written(ledger.records, record), Insert(ledger, record).born)
  {
    var i := IndexOf(ledger.records, record.requestId);
    if i == |ledger.records| { AppendStamped(ledger.records, record, ledger.born, ledger.clock); }
    else { ReplaceStamped(ledger.records, i, record, ledger.born); }
  }

  lemma InsertOrdered(ledger: Ledger, record: SubmitRecord)
    requires Retained(ledger)
    ensures StampedInOrder(Insert(ledger, record).records, Insert(ledger, record).born)
  {
    var born := Insert(ledger, record).born;
    var written := Written(ledger.records, record);
    WrittenOrdered(ledger, record);
    KeepOrdered(written, ProtectedIds(written) + Ids(Newest(SettledRecords(written), HISTORY_WINDOW)), born);
  }

  lemma InsertRetained(ledger: Ledger, record: SubmitRecord)
    requires Retained(ledger)
    ensures Retained(Insert(ledger, record))
  {
    var written := Written(ledger.records, record);
    StampedIsDistinct(ledger.records, ledger.born);
    WrittenDistinct(ledger.records, record);
    CompactBound(written);
    CompactIdempotent(written);
    InsertOrdered(ledger, record);
  }

  lemma UpsertProtected(records: seq<SubmitRecord>, record: SubmitRecord)
    ensures forall r :: r in records && IsProtected(r) && r.requestId != record.requestId ==> r in Upsert(records, record)
  {
    var written := Written(records, record);
    CompactMembers(written);
    forall r | r in records && IsProtected(r) && r.requestId != record.requestId ensures r in Upsert(records, record) {
      var k :| 0 <= k < |records| && records[k] == r;
      assert written[k] == r;
    }
  }

  /**
   Over every run of upserts the history holds distinct ids in the order of the insertions that put
   them there, keeps at most the newest 64 settled records, and is a fixed point of compaction.
   */
  lemma {:induction false} RetentionOverRuns(ledger: Ledger, writes: seq<SubmitRecord>)
    requires Retained(ledger)
    ensures Retained(InsertAll(ledger, writes))
    ensures DistinctIds(InsertAll(ledger, writes).records)
    decreases |writes|
  {
    if writes == [] {
      StampedIsDistinct(ledger.records, ledger.born);
    } else {
      InsertRetained(ledger, writes[0]);
      RetentionOverRuns(Insert(ledger, writes[0]), writes[1..]);
    }
  }

  /** No run of upserts drops a protected record that it does not itself rewrite. */
  lemma {:induction false} ProtectedSurvivesRuns(ledger: Ledger, writes: seq<SubmitRecord>, r: SubmitRecord)
    requires Retained(ledger) && r in ledger.records && IsProtected(r)
    requires forall w :: w in writes ==> w.requestId != r.requestId
    ensures r in InsertAll(ledger, writes).records
    decreases |writes|
  {
    if writes != [] {
      assert writes[0] in writes;
      InsertRetained(ledger, writes[0]);
      UpsertProtected(ledger.records, writes[0]);
      ProtectedSurvivesRuns(Insert(ledger, writes[0]), writes[1..], r);
    }
  }

  /** A history as every run of upserts leaves it. */
  predicate Retentive(history: seq<SubmitRecord>) {
    DistinctIds(history) && |SettledRecords(history)| <= HISTORY_WINDOW
  }

  lemma UpsertRetentive(records: seq<SubmitRecord>, record: SubmitRecord)
    requires DistinctIds(records)
    ensures Retentive(Upsert(records, record))
  {
    WrittenDistinct(records, record);
    CompactBound(Written(records, record));
    UpsertFrame(records, record, record.requestId);
  }

  // ---------------------------------------------------------------- lookups across an upsert

  /** An upsert may evict other records but never alters them. */
  lemma UpsertFrame(records: seq<SubmitRecord>, record: SubmitRecord, id: string)
    requires DistinctIds(records)
    ensures DistinctIds(Upsert(records, record))
    ensures id != record.requestId ==> Find(Upsert(records, record), id) in {None, Find(records, id)}
    ensures Find(Upsert(records, record), record.requestId) in {None, Some(record)}
    ensures IsProtected(record) ==> Find(Upsert(records, record), record.requestId) == Some(record)
  {
    var written, next := Written(records, record), Upsert(records, record);
    WrittenDistinct(records, record);
    WrittenMembers(records, record);
    KeepDistinct(written, ProtectedIds(written) + Ids(Newest(SettledRecords(written), HISTORY_WINDOW)));
    CompactMembers(written);
    FoundIffMember(next, record);
    if Find(next, id).Some? && id != record.requestId { FoundIffMember(records, Find(next, id).value); }
    if Find(next, record.requestId).Some? { SameRecord(written, Find(next, record.requestId).value, record); }
  }

  lemma SameRecord(records: seq<SubmitRecord>, a: SubmitRecord, b: SubmitRecord)
    requires DistinctIds(records) && a in records && b in records && a.requestId == b.requestId
    ensures a == b
  {
    var i :| 0 <= i < |records| && records[i] == a;
    var j :| 0 <= j < |records| && records[j] == b;
  }

  lemma FoundIffMember(records: seq<SubmitRecord>, record: SubmitRecord)
    requires DistinctIds(records)
    ensures Find(records, record.requestId) == Some(record) <==> record in records
  {
    var i := IndexOf(records, record.requestId);
    if record in records {
      var k :| 0 <= k < |records| && records[k] == record;
      assert i < |records|;
      SameRecord(records, records[i], record);
    }
  }

  /** A written record is stored exactly if it is protected or among the newest settled ones. */
  lemma UpsertStoresIff(records: seq<SubmitRecord>, record: SubmitRecord)
    requires DistinctIds(records)
    ensures Find(Upsert(records, record), record.requestId) == Some(record) <==>
            IsProtected(record) || record in Newest(SettledRecords(Written(records, record)), HISTORY_WINDOW)
  {
    var written := Written(records, record);
    var newest := Newest(SettledRecords(written), HISTORY_WINDOW);
    WrittenDistinct(records, record);
    assert written[IndexOf(records, record.requestId)] == record;
    KeepMembers(written, ProtectedIds(written) + Ids(newest));
    KeepMembers(written, Ids(written) - ProtectedIds(written));
    KeepDistinct(written, ProtectedIds(written) + Ids(newest));
    FoundIffMember(Upsert(records, record), record);
    if record.requestId in ProtectedIds(written) {
      var r :| r in written && IsProtected(r) && r.requestId == record.requestId;
      SameRecord(written, r, record);
    }
    if record.requestId in Ids(newest) {
      var r :| r in newest && r.requestId == record.requestId;
      SameRecord(written, r, record);
    }
  }

  /** So a record of a request not yet in the history is always stored. */
  lemma NewRecordStored(records: seq<SubmitRecord>, record: SubmitRecord)
    requires DistinctIds(records) && Find(records, record.requestId).None?
    ensures Find(Upsert(records, record), record.requestId) == Some(record)
  {
    UpsertStoresIff(records, record);
    var written := Written(records, record);
    WrittenDistinct(records, record);
    if !IsProtected(record) {
      var settled := Ids(written) - ProtectedIds(written);
      assert record in written;
      if record.requestId in ProtectedIds(written) {
        var r :| r in written && IsProtected(r) && r.requestId == record.requestId;
        SameRecord(written, r, record);
      }
      KeepAppend(records, [record], settled);
      assert Keep([record], settled) == [record] + Keep([record][1..], settled);
      assert written == records + [record];
      var all := SettledRecords(written);
      assert all == Keep(records, settled) + [record];
      var newest := Newest(all, HISTORY_WINDOW);
      assert newest[|newest| - 1] == record;
    }
  }

  /** And nothing is evicted while the settled records fit. */
  lemma NothingEvicted(records: seq<SubmitRecord>, record: SubmitRecord)
    requires |SettledRecords(Written(records, record))| <= HISTORY_WINDOW
    ensures Upsert(records, record) == Written(records, record)
  {
    CompactStable(Written(records, record));
  }
}
