/** Ingested event batches, the trace references made from them, and their later verification
    (agentloopgate/bridge/service.py, _events_ingest, _trace_sync, _trace_verify). */
module TraceSync {
  import opened Common

  datatype Event = Event(seqNo: int, data: string)

  datatype Mode = Mirror | Reference

  datatype Persistence = Persistence(kind: string)

  datatype StoredBatch = StoredBatch(
    id: string, persistence: Persistence, mode: Mode, policy: Option<string>, events: seq<Event>)

  type Cursor = map<int, string>

  /** The digests in an id are injective, so the id stands for what is digested. */
  datatype TraceId = TraceId(session: string, revision: string, cursor: Cursor, policy: string)

  datatype TraceRef = TraceRef(
    session: string, start: int, end: int, count: nat, revision: string, persistence: Persistence, mode: Mode,
    complete: bool, createdAt: int)

  /** The inbox holds the batches of a session; mirrors list the events of a cursor in order, for which
      the cursor itself stands. */
  datatype Bridge = Bridge(
    inbox: map<string, seq<StoredBatch>>, policies: map<TraceId, string>, mirrors: map<TraceId, Cursor>,
    refs: map<TraceId, TraceRef>)

  datatype Sync = Sync(session: string, revision: string, persistence: Persistence, mode: Mode)

  datatype Fault =
    | PayloadInvalid | BatchConflict | NoEvents | KindDiffers | ModeDiffers | PolicyInconsistent
    | EventConflict(seqNo: int) | ArtifactConflict | Died | UnknownTrace | PolicyMismatch | ContentMismatch

  // ---- Sets of events ----

  ghost function EventsOf(batches: seq<StoredBatch>): (r: set<Event>) {
    set b, e | b in batches && e in b.events :: e
  }

  ghost function Elements(events: seq<Event>): (r: set<Event>) {
    set e | e in events
  }

  /** Events within an inclusive range; without an upper end the range is open. */
  predicate InRange(e: Event, start: int, end: Option<int>) {
    start <= e.seqNo && (end.Some? ==> e.seqNo <= end.value)
  }

  ghost function Within(events: set<Event>, start: int, end: Option<int>): (r: set<Event>) {
    set e | e in events && InRange(e, start, end)
  }

  /** No two of the events share a sequence number. */
  ghost predicate Functional(events: set<Event>) {
    forall e, f | e in events && f in events && e.seqNo == f.seqNo :: e == f
  }

  /** The cursor lists exactly these events. */
  ghost predicate Lists(m: Cursor, events: set<Event>) {
    && (forall e | e in events :: e.seqNo in m && m[e.seqNo] == e.data)
    && (forall k | k in m :: Event(k, m[k]) in events)
  }

  lemma ListsUnique(m: Cursor, n: Cursor, events: set<Event>)
    requires Lists(m, events) && Lists(n, events)
    ensures m == n
  {
    forall k | k in m ensures k in n && n[k] == m[k] {
      assert Event(k, m[k]) in events;
    }
    forall k | k in n ensures k in m {
      assert Event(k, n[k]) in events;
    }
  }

  function MaxOf(keys: set<int>): (r: int)
    requires keys != {}
  {
    MaxExists(keys);
    var k :| k in keys && forall j | j in keys :: j <= k;
    k
  }

  lemma Member<T>(s: set<T>) returns (x: T)
    requires s != {}
    ensures x in s
  {
    x :| x in s;
  }

  lemma {:induction false} MaxExists(keys: set<int>)
    requires keys != {}
    ensures exists k :: k in keys && forall j | j in keys :: j <= k
    decreases |keys|
  {
    var x := Member(keys);
    if keys != {x} {
      MaxExists(keys - {x});
      var k :| k in keys - {x} && forall j | j in keys - {x} :: j <= k;
      var top := if x <= k then k else x;
      assert top in keys;
      forall j | j in keys ensures j <= top {
        assert j == x || j in keys - {x};
      }
    }
  }

  /** The sequence numbers are exactly those of the range. */
  predicate Fills(m: Cursor, start: int, end: int) {
    (forall k | k in m :: start <= k <= end) && forall k | start <= k <= end :: k in m
  }

  /** The sequence numbers are 0, 1, up to the last one. */
  predicate Contiguous(m: Cursor) {
    m != map[] && Fills(m, 0, MaxOf(m.Keys))
  }

  // ---- Merging batches ----

  method MergeEvents(m: Cursor, ghost known: set<Event>, events: seq<Event>, start: int, end: Option<int>)
    returns (r: Result<Cursor, Fault>)
    requires Lists(m, known)
    ensures r.Success? <==> Functional(known + Within(Elements(events), start, end))
    ensures r.Success? ==> Lists(r.value, known + Within(Elements(events), start, end))
    ensures r.Failure? ==> r.error.EventConflict?
  {
    var merged := m;
    ghost var all := known + Within(Elements(events), start, end);
    for k := 0 to |events|
      invariant Lists(merged, known + Within(Elements(events[..k]), start, end))
    {
      var e := events[k];
      assert Elements(events[..k + 1]) == Elements(events[..k]) + {e};
      assert e in events;
      if InRange(e, start, end) {
        if e.seqNo in merged && merged[e.seqNo] != e.data {
          ghost var other := Event(e.seqNo, merged[e.seqNo]);
          assert other in all && e in all;
          return Failure(EventConflict(e.seqNo));
        }
        merged := merged[e.seqNo := e.data];
      }
    }
    assert events[..|events|] == events;
    return Success(merged);
  }

  /** Merges batches into one cursor.  It succeeds exactly when no two events in range conflict, and
      what it gives depends on nothing but the set of those events. */
  method Merge(batches: seq<StoredBatch>, start: int, end: Option<int>) returns (r: Result<Cursor, Fault>)
    ensures r.Success? <==> Functional(Within(EventsOf(batches), start, end))
    ensures r.Success? ==> Lists(r.value, Within(EventsOf(batches), start, end))
    ensures r.Failure? ==> r.error.EventConflict?
  {
    var merged: Cursor := map[];
    for k := 0 to |batches|
      invariant Lists(merged, Within(EventsOf(batches[..k]), start, end))
    {
      ghost var known := Within(EventsOf(batches[..k]), start, end);
      assert batches[..k + 1] == batches[..k] + [batches[k]];
      assert Within(EventsOf(batches[..k + 1]), start, end)
          == known + Within(Elements(batches[k].events), start, end);
      r := MergeEvents(merged, known, batches[k].events, start, end);
      if r.Failure? {
        assert Within(EventsOf(batches[..k + 1]), start, end) <= Within(EventsOf(batches), start, end);
        return;
      }
      merged := r.value;
    }
    assert batches[..|batches|] == batches;
    return Success(merged);
  }

  // ---- The bridge ----

  function InboxOf(s: Bridge, session: string): (r: seq<StoredBatch>) {
    if session in s.inbox then s.inbox[session] else []
  }

  /** What is left on disk by a sync of a cursor: policy record, mirror, reference. */
  function RefOf(payload: Sync, m: Cursor, createdAt: int): (r: TraceRef)
    requires m != map[]
  {
    TraceRef(payload.session, 0, MaxOf(m.Keys), |m|, payload.revision, payload.persistence, payload.mode,
             Contiguous(m), createdAt)
  }

  ghost predicate Uniform(batches: seq<StoredBatch>, payload: Sync, policy: string) {
    batches != [] && forall b | b in batches ::
      b.persistence == payload.persistence && b.mode == payload.mode && b.policy == Some(policy)
  }

  class TraceBridge {
    var inbox: map<string, seq<StoredBatch>>
    var policies: map<TraceId, string>
    var mirrors: map<TraceId, Cursor>
    var refs: map<TraceId, TraceRef>

    constructor ()
      ensures Now() == EMPTY
    {
      inbox, policies, mirrors, refs := map[], map[], map[], map[];
    }

    function Now(): (r: Bridge)
      reads this
    {
      Bridge(inbox, policies, mirrors, refs)
    }

    /** Stores a batch under its id, at most once. */
    method Ingest(session: string, batch: StoredBatch) returns (fault: Option<Fault>)
      modifies this`inbox
      ensures fault.None? <==>
                && 1 <= |batch.events| <= 100 && (forall e | e in batch.events :: 0 <= e.seqNo)
                && (forall i, j | 0 <= i < j < |batch.events| :: batch.events[i].seqNo != batch.events[j].seqNo)
                && batch.policy.Some?
                && forall b | b in InboxOf(old(Now()), session) :: b.id == batch.id ==> b == batch
      ensures Now() == IngestOf(old(Now()), session, batch)
    {
      if !ValidEvents(batch.events) || batch.policy.None? {
        return Some(PayloadInvalid);
      }
      var stored := if session in inbox then inbox[session] else [];
      if exists b | b in stored :: b.id == batch.id && b != batch {
        return Some(BatchConflict);
      }
      if batch in stored {
        return None;
      }
      inbox := inbox[session := stored + [batch]];
      return None;
    }

    /** The policy that all batches of a session share, if they agree with the payload. */
    method CheckBatches(batches: seq<StoredBatch>, payload: Sync) returns (r: Result<string, Fault>)
      requires BatchesOk(batches)
      ensures r.Success? <==> exists policy :: Uniform(batches, payload, policy)
      ensures r.Success? ==> Uniform(batches, payload, r.value)
      ensures r.Failure? ==> r.error in {NoEvents, KindDiffers, ModeDiffers, PolicyInconsistent}
    {
      if batches == [] {
        return Failure(NoEvents);
      }
      if exists b | b in batches :: b.persistence != payload.persistence {
        return Failure(KindDiffers);
      }
      if exists b | b in batches :: b.mode != payload.mode {
        return Failure(ModeDiffers);
      }
      if batches[0].policy.None? || exists b | b in batches :: b.policy != batches[0].policy {
        assert batches[0] in batches;
        return Failure(PolicyInconsistent);
      }
      assert Uniform(batches, payload, batches[0].policy.value);
      return Success(batches[0].policy.value);
    }

    /** Writes the policy record, the mirror if any, and the reference, one after another and each at most
        once; the process dies at the write after the first `writes` ones. */
    method Record(mirror: bool, id: TraceId, ref: TraceRef, writes: nat) returns (end: Writing)
      modifies this`policies, this`mirrors, this`refs
      ensures (Now(), end) == RecordOf(old(Now()), mirror, id, ref, writes)
    {
      var left := writes;
      if id !in policies {
        if left == 0 {
          return Interrupted;
        }
        policies, left := policies[id := id.policy], left - 1;
      } else if policies[id] != id.policy {
        return Conflicts;
      }
      assert policies == old(policies)[id := id.policy];
      if mirror {
        if id !in mirrors {
          if left == 0 {
            return Interrupted;
          }
          mirrors, left := mirrors[id := id.cursor], left - 1;
        } else if mirrors[id] != id.cursor {
          return Conflicts;
        }
        assert mirrors == old(mirrors)[id := id.cursor];
      }
      if id !in refs {
        if left == 0 {
          return Interrupted;
        }
        refs := refs[id := ref];
      } else if refs[id] != ref {
        return Conflicts;
      }
      assert refs == old(refs)[id := ref];
      return AllWritten;
    }

    /** References what the session holds, under an id that its content, revision and policy determine. */
    method SyncTrace(payload: Sync, now: int, writes: nat) returns (r: Result<TraceId, Fault>)
      requires Inv(Now())
      modifies this`policies, this`mirrors, this`refs
      ensures r.Success? ==> Syncable(old(Now()), payload) && Synced(old(Now()), payload, now, r.value, Now())
      ensures Syncable(old(Now()), payload) <==> r.Success? || r.error == Died
      ensures r.Failure? && r.error != Died ==> Now() == old(Now())
      ensures r.Failure? && r.error == Died ==>
                writes < 3 && exists id :: CutShort(old(Now()), payload, now, id, writes, Now())
    {
      var batches := if payload.session in inbox then inbox[payload.session] else [];
      var policy := CheckBatches(batches, payload);
      if policy.Failure? {
        return Failure(policy.error);
      }
      WholeRange(EventsOf(batches));
      var merged := Merge(batches, 0, None);
      if merged.Failure? {
        return Failure(merged.error);
      }
      InboxListed(Now(), payload.session, merged.value);
      var id := TraceId(payload.session, payload.revision, merged.value, policy.value);
      ghost var before := Now();
      NeverConflicts(before, payload, id, now);
      var ref := NewRefOf(Now(), payload, id, now);
      RecordWrites(before, payload.mode == Mirror, id, ref, writes);
      var end := Record(payload.mode == Mirror, id, ref, writes);
      if end == Conflicts {
        return Failure(ArtifactConflict);
      }
      if end == Interrupted {
        assert CutShort(before, payload, now, id, writes, Now());
        return Failure(Died);
      }
      return Success(id);
    }

    /** Re-verifies a reference against what the store holds now; says whether it is complete. */
    method VerifyTrace(id: TraceId) returns (r: Result<bool, Fault>)
      requires Inv(Now())
      ensures r.Success? <==> Verifiable(Now(), id)
      ensures r.Success? ==> r.value == Contiguous(id.cursor)
    {
      if id !in refs {
        return Failure(UnknownTrace);
      }
      var ref := refs[id];
      assert RefOk(Now(), id);
      var m: Cursor;
      if ref.mode == Mirror {
        m := mirrors[id];
      } else {
        var batches := if ref.session in inbox then inbox[ref.session] else [];
        var merged := Merge(batches, ref.start, Some(ref.end));
        if merged.Failure? {
          return Failure(merged.error);
        }
        m := merged.value;
        if exists b | b in batches && Touches(b, ref.start, ref.end) :: b.policy != Some(policies[id]) {
          return Failure(PolicyMismatch);
        }
      }
      if TraceId(ref.session, ref.revision, m, policies[id]) != id {
        if ref.mode == Reference {
          NotListed(m, id.cursor, Within(EventsOf(InboxOf(Now(), id.session)), ref.start, Some(ref.end)));
        }
        return Failure(ContentMismatch);
      }
      return Success(|m| == ref.count && Fills(m, ref.start, ref.end));
    }
  }

  const EMPTY := Bridge(map[], map[], map[], map[])

  predicate ValidEvents(events: seq<Event>) {
    && 1 <= |events| <= 100 && (forall e | e in events :: e.seqNo >= 0)
    && forall i, j | 0 <= i < j < |events| :: events[i].seqNo != events[j].seqNo
  }

  /** The batch is well formed and its id is not taken by another one. */
  predicate Accepts(s: Bridge, session: string, batch: StoredBatch) {
    && ValidEvents(batch.events) && batch.policy.Some?
    && forall b | b in InboxOf(s, session) :: b.id == batch.id ==> b == batch
  }

  function IngestOf(s: Bridge, session: string, batch: StoredBatch): (r: Bridge) {
    if Accepts(s, session, batch) && batch !in InboxOf(s, session) then
      s.(inbox := s.inbox[session := InboxOf(s, session) + [batch]])
    else s
  }

  // ---- What syncing and verifying mean ----

  predicate Touches(b: StoredBatch, start: int, end: int) {
    exists e | e in b.events :: InRange(e, start, Some(end))
  }

  ghost predicate Syncable(s: Bridge, payload: Sync) {
    && (exists policy :: Uniform(InboxOf(s, payload.session), payload, policy))
    && Functional(EventsOf(InboxOf(s, payload.session)))
  }

  /** `id` is the id of what the session holds. */
  ghost predicate Identifies(s: Bridge, payload: Sync, id: TraceId) {
    && id.session == payload.session && id.revision == payload.revision && id.cursor != map[]
    && Uniform(InboxOf(s, payload.session), payload, id.policy)
    && Lists(id.cursor, EventsOf(InboxOf(s, payload.session)))
  }

  /** `t` is `s` after a sync under `payload` that gave `id`. */
  ghost predicate Synced(s: Bridge, payload: Sync, now: int, id: TraceId, t: Bridge) {
    Identifies(s, payload, id) && t == Recorded(s, payload.mode == Mirror, id, NewRefOf(s, payload, id, now))
  }

  /** `t` is `s` after a sync that died at the write after its first `writes` ones. */
  ghost predicate CutShort(s: Bridge, payload: Sync, now: int, id: TraceId, writes: nat, t: Bridge) {
    && Identifies(s, payload, id)
    && t == RecordOf(s, payload.mode == Mirror, id, NewRefOf(s, payload, id, now), writes).0
  }

  datatype Writing = AllWritten | Conflicts | Interrupted

  /** The three writes of a sync in turn. */
  function RecordOf(s: Bridge, mirror: bool, id: TraceId, ref: TraceRef, writes: nat): (r: (Bridge, Writing)) {
    if id in s.policies && s.policies[id] != id.policy then (s, Conflicts)
    else if id !in s.policies && writes == 0 then (s, Interrupted)
    else
      var left := if id in s.policies then writes else writes - 1;
      MirrorOf(s.(policies := s.policies[id := id.policy]), mirror, id, ref, left)
  }

  function MirrorOf(s: Bridge, mirror: bool, id: TraceId, ref: TraceRef, writes: nat): (r: (Bridge, Writing)) {
    if !mirror then RefWriteOf(s, id, ref, writes)
    else if id in s.mirrors && s.mirrors[id] != id.cursor then (s, Conflicts)
    else if id !in s.mirrors && writes == 0 then (s, Interrupted)
    else
      var left := if id in s.mirrors then writes else writes - 1;
      RefWriteOf(s.(mirrors := s.mirrors[id := id.cursor]), id, ref, left)
  }

  function RefWriteOf(s: Bridge, id: TraceId, ref: TraceRef, writes: nat): (r: (Bridge, Writing)) {
    if id in s.refs && s.refs[id] != ref then (s, Conflicts)
    else if id !in s.refs && writes == 0 then (s, Interrupted)
    else (s.(refs := s.refs[id := ref]), AllWritten)
  }

  /** The reference of `id` is not written yet, and the other two records may be. */
  ghost predicate PartWritten(s: Bridge, id: TraceId, t: Bridge) {
    && t.refs == s.refs && t.inbox == s.inbox
    && (t.policies == s.policies || t.policies == s.policies[id := id.policy])
    && (t.mirrors == s.mirrors || t.mirrors == s.mirrors[id := id.cursor])
  }

  /** Without a conflict the writes come to their end, or to where they were cut off: some of the records
      are there, and the reference is the last. */
  lemma RecordWrites(s: Bridge, mirror: bool, id: TraceId, ref: TraceRef, writes: nat)
    requires NoConflict(s, mirror, id, ref)
    ensures var (t, end) := RecordOf(s, mirror, id, ref, writes);
            && end != Conflicts && (end == AllWritten ==> t == Recorded(s, mirror, id, ref))
            && (writes >= 3 ==> end == AllWritten)
            && (end == Interrupted ==> PartWritten(s, id, t) && (!mirror ==> t.mirrors == s.mirrors))
  {
  }

  function Recorded(s: Bridge, mirror: bool, id: TraceId, ref: TraceRef): (r: Bridge) {
    s.(policies := s.policies[id := id.policy],
       mirrors := if mirror then s.mirrors[id := id.cursor] else s.mirrors,
       refs := s.refs[id := ref])
  }

  predicate NoConflict(s: Bridge, mirror: bool, id: TraceId, ref: TraceRef) {
    && (id in s.policies ==> s.policies[id] == id.policy)
    && (mirror && id in s.mirrors ==> s.mirrors[id] == id.cursor)
    && (id in s.refs ==> s.refs[id] == ref)
  }

  ghost predicate SamePolicy(batches: seq<StoredBatch>, start: int, end: int, policy: string) {
    forall b | b in batches && Touches(b, start, end) :: b.policy == Some(policy)
  }

  /** When verification succeeds: always in mirror mode; in reference mode when the events in the range
      of the reference are still exactly its cursor, under its own policy. */
  ghost predicate Verifiable(s: Bridge, id: TraceId) {
    id in s.refs &&
    var ref, batches := s.refs[id], InboxOf(s, id.session);
    ref.mode == Reference ==>
      && SamePolicy(batches, ref.start, ref.end, id.policy)
      && Lists(id.cursor, Within(EventsOf(batches), ref.start, Some(ref.end)))
  }

  /** Event by event: the reference verifies if and only if every event stored in its range lies in a batch
      under its policy and is the one that its cursor lists, and every event of the cursor is stored there. */
  lemma VerifiableByEvents(s: Bridge, id: TraceId)
    requires id in s.refs && s.refs[id].mode == Reference
    ensures var ref, batches := s.refs[id], InboxOf(s, id.session);
            Verifiable(s, id) <==>
              && (forall b, e | b in batches && e in b.events && ref.start <= e.seqNo <= ref.end ::
                    b.policy == Some(id.policy) && e.seqNo in id.cursor && id.cursor[e.seqNo] == e.data)
              && (forall k | k in id.cursor ::
                    ref.start <= k <= ref.end && exists b :: b in batches && Event(k, id.cursor[k]) in b.events)
  {
    var ref, batches := s.refs[id], InboxOf(s, id.session);
    forall b, e | b in batches && e in b.events && ref.start <= e.seqNo <= ref.end
      ensures Touches(b, ref.start, ref.end) && e in Within(EventsOf(batches), ref.start, Some(ref.end))
    {
      assert InRange(e, ref.start, Some(ref.end));
    }
  }

  /** What a caller reads as VERIFIED. */
  ghost predicate ReportsVerified(s: Bridge, id: TraceId) {
    Verifiable(s, id) && Contiguous(id.cursor)
  }

  // ---- The invariant of the store ----

  ghost predicate BatchesOk(batches: seq<StoredBatch>) {
    forall b | b in batches :: ValidEvents(b.events) && b.policy.Some?
  }

  /** What the id of a reference says about its fields. */
  ghost predicate RefShape(ref: TraceRef, id: TraceId) {
    && id.cursor != map[] && (forall k | k in id.cursor :: k >= 0)
    && ref == TraceRef(id.session, 0, MaxOf(id.cursor.Keys), |id.cursor|, id.revision, ref.persistence, ref.mode,
                       Contiguous(id.cursor), ref.createdAt)
  }

  /** The batches still hold the events that were referenced, in a batch of the same kind. */
  ghost predicate RefHeld(batches: seq<StoredBatch>, ref: TraceRef, id: TraceId) {
    HasKind(batches, ref) && forall k | k in id.cursor :: Event(k, id.cursor[k]) in EventsOf(batches)
  }

  ghost predicate RefOk(s: Bridge, id: TraceId)
    requires id in s.refs
  {
    && RefShape(s.refs[id], id) && RefHeld(InboxOf(s, id.session), s.refs[id], id)
    && id in s.policies && (s.refs[id].mode == Mirror ==> id in s.mirrors)
  }

  ghost predicate HasKind(batches: seq<StoredBatch>, ref: TraceRef) {
    exists b :: b in batches && b.persistence == ref.persistence && b.mode == ref.mode
  }

  ghost predicate InboxOk(inbox: map<string, seq<StoredBatch>>) {
    forall session | session in inbox :: BatchesOk(inbox[session])
  }

  ghost predicate FilesOk(s: Bridge) {
    && (forall id | id in s.policies :: s.policies[id] == id.policy)
    && (forall id | id in s.mirrors :: s.mirrors[id] == id.cursor)
  }

  ghost predicate RefsOk(s: Bridge) {
    forall id | id in s.refs :: RefOk(s, id)
  }

  ghost predicate Inv(s: Bridge) {
    InboxOk(s.inbox) && FilesOk(s) && RefsOk(s)
  }

  lemma WholeRange(events: set<Event>)
    requires forall e | e in events :: e.seqNo >= 0
    ensures Within(events, 0, None) == events
  {
  }

  lemma NotListed(m: Cursor, n: Cursor, events: set<Event>)
    requires Lists(m, events) && m != n
    ensures !Lists(n, events)
  {
    if Lists(n, events) {
      ListsUnique(m, n, events);
    }
  }

  lemma InboxListed(s: Bridge, session: string, m: Cursor)
    requires Inv(s) && InboxOf(s, session) != [] && Lists(m, EventsOf(InboxOf(s, session)))
    ensures m != map[] && forall k | k in m :: k >= 0
  {
    var batches := InboxOf(s, session);
    var b := batches[0];
    assert b in batches && b.events[0] in b.events;
    assert b.events[0] in EventsOf(batches);
    forall k | k in m ensures k >= 0 {
      assert Event(k, m[k]) in EventsOf(batches);
    }
  }

  /** The reference that a sync writes; a reference that is there keeps its creation time. */
  function NewRefOf(s: Bridge, payload: Sync, id: TraceId, now: int): (r: TraceRef)
    requires id.cursor != map[]
  {
    RefOf(payload, id.cursor, if id in s.refs then s.refs[id].createdAt else now)
  }

  /** A sync never conflicts with what earlier syncs wrote under the same id. */
  lemma NeverConflicts(s: Bridge, payload: Sync, id: TraceId, now: int)
    requires Inv(s) && id.session == payload.session && id.revision == payload.revision && id.cursor != map[]
    requires Uniform(InboxOf(s, id.session), payload, id.policy)
    ensures NoConflict(s, payload.mode == Mirror, id, NewRefOf(s, payload, id, now))
  {
  }

  // ---- Main results about one store ----

  /** Two sessions that hold the same events under one policy sync alike, however the events were split
      into batches, repeated in them or ordered. */
  lemma SyncForgetsBatching(s: Bridge, t: Bridge, payload: Sync, now: int, x: TraceId, s': Bridge, y: TraceId, t': Bridge)
    requires EventsOf(InboxOf(s, payload.session)) == EventsOf(InboxOf(t, payload.session))
    requires Synced(s, payload, now, x, s') && Synced(t, payload, now, y, t')
    ensures x.cursor == y.cursor
    ensures x.policy == y.policy ==> x == y
    ensures x == y && x !in s.refs && y !in t.refs ==> s'.refs[x] == t'.refs[y]
  {
    ListsUnique(x.cursor, y.cursor, EventsOf(InboxOf(s, payload.session)));
  }

  /** Syncing again changes nothing and gives the same id, whatever the clock says. */
  lemma SyncIsIdempotent(s: Bridge, payload: Sync, now: int, x: TraceId, t: Bridge, later: int, y: TraceId, u: Bridge)
    requires Synced(s, payload, now, x, t) && Synced(t, payload, later, y, u)
    ensures y == x && u == t
  {
    ListsUnique(x.cursor, y.cursor, EventsOf(InboxOf(s, payload.session)));
    var batches := InboxOf(s, payload.session);
    assert batches[0] in batches;
  }

  lemma ContiguousCount(m: Cursor)
    requires m != map[] && forall k | k in m :: k >= 0
    ensures |m| <= MaxOf(m.Keys) + 1
    ensures Contiguous(m) <==> |m| == MaxOf(m.Keys) + 1
  {
    var top := MaxOf(m.Keys);
    UpTo(m.Keys, top);
  }

  /** A set of numbers from 0 to `top` has at most `top + 1` members, and that many only if all. */
  lemma {:induction false} UpTo(keys: set<int>, top: int)
    requires top >= -1 && forall k | k in keys :: 0 <= k <= top
    ensures |keys| <= top + 1
    ensures |keys| == top + 1 <==> forall k | 0 <= k <= top :: k in keys
    decreases top
  {
    if top == -1 {
      if keys != {} {
        var k := Member(keys);
      }
    } else {
      var rest := keys - {top};
      UpTo(rest, top - 1);
      if top in keys {
        assert |rest| == |keys| - 1;
        forall k | 0 <= k <= top && |rest| == top ensures k in keys {
          assert k < top ==> k in rest;
        }
        forall k | 0 <= k <= top - 1 && (forall i | 0 <= i <= top :: i in keys) ensures k in rest {
          assert k in keys;
        }
      } else {
        assert rest == keys;
      }
    }
  }

  /** Every reference that a sync writes passes the validator of SourceTraceRef: a complete one counts
      its whole range, an incomplete one fewer. */
  lemma RefValidates(payload: Sync, m: Cursor, createdAt: int)
    requires m != map[] && forall k | k in m :: k >= 0
    ensures var ref := RefOf(payload, m, createdAt);
            && 0 <= ref.start <= ref.end && ref.count >= 1
            && (if ref.complete then ref.count == ref.end - ref.start + 1 else ref.count < ref.end - ref.start + 1)
  {
    ContiguousCount(m);
    assert MaxOf(m.Keys) in m.Keys;
    assert |m| != 0;
  }

  /** A sequence is 0, 1, up to the last if and only if no number below one of its own is missing. */
  lemma ContiguousIsClosed(m: Cursor)
    requires m != map[] && forall k | k in m :: k >= 0
    ensures Contiguous(m) <==> forall k, j | k in m && 0 <= j <= k :: j in m
  {
    assert MaxOf(m.Keys) in m.Keys;
  }

  /** Right after a sync verification succeeds, and it reports VERIFIED exactly when the sequence
      numbers are 0, 1, up to the last. */
  lemma SyncThenVerify(s: Bridge, payload: Sync, now: int, id: TraceId, t: Bridge)
    requires Inv(s) && Synced(s, payload, now, id, t)
    ensures Verifiable(t, id) && t.refs[id].complete == Contiguous(id.cursor)
    ensures t.refs[id].complete <==> forall k, j | k in id.cursor && 0 <= j <= k :: j in id.cursor
  {
    ContiguousIsClosed(id.cursor);
    var events := EventsOf(InboxOf(s, payload.session));
    forall e | e in events ensures InRange(e, 0, Some(MaxOf(id.cursor.Keys))) {
      assert e.seqNo in id.cursor.Keys;
    }
    assert Within(events, 0, Some(MaxOf(id.cursor.Keys))) == events;
  }

  /** A complete reference stays VERIFIED exactly as long as the events in its range do not conflict and
      their batches were stored under its policy. */
  lemma CompleteVerifiesExactly(batches: seq<StoredBatch>, ref: TraceRef, id: TraceId)
    requires RefShape(ref, id) && RefHeld(batches, ref, id) && ref.complete
    ensures Lists(id.cursor, Within(EventsOf(batches), ref.start, Some(ref.end)))
            <==> Functional(Within(EventsOf(batches), ref.start, Some(ref.end)))
  {
  }

  // ---- Main results about every run ----

  /** One request: a batch is ingested, a session is synced, a sync dies between two of its writes, or
      nothing changes on disk. */
  ghost predicate Step(s: Bridge, t: Bridge) {
    || s == t
    || (exists session, batch :: t == IngestOf(s, session, batch))
    || (exists payload, now, id :: Synced(s, payload, now, id, t))
    || (exists payload, now, id, writes :: CutShort(s, payload, now, id, writes, t))
  }

  ghost predicate Run(states: seq<Bridge>) {
    states != [] && states[0] == EMPTY && forall i | 0 <= i < |states| - 1 :: Step(states[i], states[i + 1])
  }

  /** What is never lost: references, policy records, mirrors, and the batches of every session. */
  ghost predicate Kept(s: Bridge, t: Bridge) {
    && (forall id | id in s.refs :: id in t.refs && t.refs[id] == s.refs[id])
    && (forall id | id in s.mirrors :: id in t.mirrors && t.mirrors[id] == s.mirrors[id])
    && (forall id | id in s.policies :: id in t.policies && t.policies[id] == s.policies[id])
    && (forall session, b | b in InboxOf(s, session) :: b in InboxOf(t, session))
  }

  lemma IngestKeepsRef(s: Bridge, session: string, batch: StoredBatch, id: TraceId)
    requires id in s.refs && RefOk(s, id)
    ensures RefOk(IngestOf(s, session, batch), id)
  {
  }

  lemma IngestKeepsRest(s: Bridge, session: string, batch: StoredBatch, t: Bridge)
    requires InboxOk(s.inbox) && FilesOk(s) && t == IngestOf(s, session, batch)
    ensures InboxOk(t.inbox) && FilesOk(t) && Kept(s, t) && t.refs == s.refs
  {
  }

  lemma IngestKeeps(s: Bridge, session: string, batch: StoredBatch, t: Bridge)
    requires Inv(s) && t == IngestOf(s, session, batch)
    ensures Inv(t) && Kept(s, t)
  {
    IngestKeepsRest(s, session, batch, t);
    forall id | id in t.refs ensures RefOk(t, id) {
      IngestKeepsRef(s, session, batch, id);
    }
  }

  lemma NewRef(s: Bridge, payload: Sync, now: int, id: TraceId, t: Bridge)
    requires Inv(s) && Synced(s, payload, now, id, t)
    ensures RefOk(t, id)
  {
    var batches := InboxOf(s, payload.session);
    assert batches[0] in batches;
    assert HasKind(batches, t.refs[id]);
    InboxListed(s, payload.session, id.cursor);
  }

  lemma OldRef(s: Bridge, payload: Sync, now: int, id: TraceId, t: Bridge, other: TraceId)
    requires Synced(s, payload, now, id, t) && other != id && other in s.refs && RefOk(s, other)
    ensures other in t.refs && t.refs[other] == s.refs[other] && RefOk(t, other)
  {
  }

  lemma SyncKeeps(s: Bridge, payload: Sync, now: int, id: TraceId, t: Bridge)
    requires Inv(s) && Synced(s, payload, now, id, t)
    ensures Inv(t) && Kept(s, t)
  {
    NeverConflicts(s, payload, id, now);
    RecordedKeeps(s, payload.mode == Mirror, id, NewRefOf(s, payload, id, now));
    NewRef(s, payload, now, id, t);
    forall other | other in t.refs ensures RefOk(t, other) {
      if other != id {
        OldRef(s, payload, now, id, t, other);
      }
    }
  }

  lemma RecordedKeeps(s: Bridge, mirror: bool, id: TraceId, ref: TraceRef)
    requires FilesOk(s) && NoConflict(s, mirror, id, ref)
    ensures Kept(s, Recorded(s, mirror, id, ref)) && FilesOk(Recorded(s, mirror, id, ref))
  {
    var t := Recorded(s, mirror, id, ref);
    assert t.inbox == s.inbox;
    assert FilesOk(t);
  }

  lemma CutKeeps(s: Bridge, payload: Sync, now: int, id: TraceId, writes: nat, t: Bridge)
    requires Inv(s) && CutShort(s, payload, now, id, writes, t)
    ensures Inv(t) && Kept(s, t)
  {
    var ref := NewRefOf(s, payload, id, now);
    NeverConflicts(s, payload, id, now);
    RecordWrites(s, payload.mode == Mirror, id, ref, writes);
    if RecordOf(s, payload.mode == Mirror, id, ref, writes).1 == AllWritten {
      SyncKeeps(s, payload, now, id, t);
    } else {
      PartKeeps(s, id, t);
    }
  }

  lemma RefStays(s: Bridge, t: Bridge, id: TraceId)
    requires id in s.refs && RefOk(s, id) && t.refs == s.refs && t.inbox == s.inbox
    requires s.policies.Keys <= t.policies.Keys && s.mirrors.Keys <= t.mirrors.Keys
    ensures RefOk(t, id)
  {
  }

  lemma PartFiles(s: Bridge, id: TraceId, t: Bridge)
    requires FilesOk(s) && PartWritten(s, id, t)
    ensures FilesOk(t) && s.policies.Keys <= t.policies.Keys && s.mirrors.Keys <= t.mirrors.Keys
    ensures Kept(s, t)
  {
  }

  lemma PartKeeps(s: Bridge, id: TraceId, t: Bridge)
    requires Inv(s) && PartWritten(s, id, t)
    ensures Inv(t) && Kept(s, t)
  {
    PartFiles(s, id, t);
    forall other | other in s.refs ensures RefOk(t, other) {
      RefStays(s, t, other);
    }
    assert RefsOk(t);
  }

  /** A sync that died leaves nothing in the way of the next one over the same session, which comes to the
      store that the dead one would have left. */
  lemma CutThenSync(s: Bridge, payload: Sync, id: TraceId, t: Bridge, later: int, u: Bridge)
    requires Identifies(s, payload, id) && PartWritten(s, id, t) && Synced(t, payload, later, id, u)
    requires payload.mode != Mirror ==> t.mirrors == s.mirrors
    ensures Synced(s, payload, later, id, u)
  {
  }

  lemma StepKeeps(s: Bridge, t: Bridge)
    requires Inv(s) && Step(s, t)
    ensures Inv(t) && Kept(s, t)
  {
    if session, batch :| t == IngestOf(s, session, batch) {
      IngestKeeps(s, session, batch, t);
    } else if payload, now, id :| Synced(s, payload, now, id, t) {
      SyncKeeps(s, payload, now, id, t);
    } else if payload, now, id, writes :| CutShort(s, payload, now, id, writes, t) {
      CutKeeps(s, payload, now, id, writes, t);
    }
  }

  lemma {:induction false} RunKeeps(states: seq<Bridge>, i: nat, j: nat)
    requires Run(states) && i <= j < |states|
    ensures Inv(states[j]) && Kept(states[i], states[j])
    decreases j
  {
    if j == 0 {
    } else {
      RunKeeps(states, if i < j then i else j - 1, j - 1);
      assert Step(states[j - 1], states[j]);
      StepKeeps(states[j - 1], states[j]);
    }
  }

  /** Over every run a complete reference stays VERIFIED after later ingests exactly when they brought
      no conflicting event and no other policy into its range; and an incomplete reference is never
      reported VERIFIED under its id, whatever is ingested later. */
  lemma LaterVerification(states: seq<Bridge>, i: nat, j: nat, id: TraceId)
    requires Run(states) && i <= j < |states| && id in states[i].refs
    ensures id in states[j].refs && states[j].refs[id] == states[i].refs[id]
    ensures !states[i].refs[id].complete ==> !ReportsVerified(states[j], id)
    ensures states[i].refs[id].complete && states[i].refs[id].mode == Reference ==>
              var ref, batches := states[i].refs[id], InboxOf(states[j], id.session);
              (ReportsVerified(states[j], id) <==>
                 Functional(Within(EventsOf(batches), ref.start, Some(ref.end)))
                 && PolicyOfEvents(batches, ref.start, ref.end, id.policy))
    ensures states[i].refs[id].mode == Mirror ==> (ReportsVerified(states[j], id) <==> states[i].refs[id].complete)
  {
    RunKeeps(states, i, i);
    RunKeeps(states, i, j);
    assert RefOk(states[i], id);
    if states[i].refs[id].complete && states[i].refs[id].mode == Reference {
      assert RefOk(states[j], id);
      CompleteReference(states[j], id);
    }
  }

  lemma CompleteReference(s: Bridge, id: TraceId)
    requires id in s.refs && RefOk(s, id) && s.refs[id].complete && s.refs[id].mode == Reference
    ensures var ref, batches := s.refs[id], InboxOf(s, id.session);
            ReportsVerified(s, id) <==>
              Functional(Within(EventsOf(batches), ref.start, Some(ref.end)))
              && PolicyOfEvents(batches, ref.start, ref.end, id.policy)
  {
    CompleteVerifiesExactly(InboxOf(s, id.session), s.refs[id], id);
    PolicyByEvents(InboxOf(s, id.session), s.refs[id].start, s.refs[id].end, id.policy);
  }

  /** Every event in the range lies in a batch under the policy. */
  ghost predicate PolicyOfEvents(batches: seq<StoredBatch>, start: int, end: int, policy: string) {
    forall b, e | b in batches && e in b.events && start <= e.seqNo <= end :: b.policy == Some(policy)
  }

  lemma PolicyByEvents(batches: seq<StoredBatch>, start: int, end: int, policy: string)
    ensures SamePolicy(batches, start, end, policy) <==> PolicyOfEvents(batches, start, end, policy)
  {
    forall b, e | b in batches && e in b.events && start <= e.seqNo <= end ensures Touches(b, start, end) {
      assert InRange(e, start, Some(end));
    }
  }

  /** Filling the gap of an incomplete reference makes its verification fail instead: once an event that
      its cursor lacks is stored within its range, the reference never verifies again. */
  lemma FilledGapFails(states: seq<Bridge>, i: nat, j: nat, id: TraceId, e: Event)
    requires Run(states) && i <= j < |states| && id in states[i].refs && states[i].refs[id].mode == Reference
    requires e in EventsOf(InboxOf(states[i], id.session)) && e.seqNo !in id.cursor
    requires InRange(e, states[i].refs[id].start, Some(states[i].refs[id].end))
    ensures !Verifiable(states[j], id)
  {
    RunKeeps(states, i, j);
    var b :| b in InboxOf(states[i], id.session) && e in b.events;
    assert b in InboxOf(states[j], id.session);
    assert e in EventsOf(InboxOf(states[j], id.session));
    assert e in Within(EventsOf(InboxOf(states[j], id.session)), states[i].refs[id].start, Some(states[i].refs[id].end));
  }
}
