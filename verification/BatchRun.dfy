/** Running one formal batch over crashes and resumes (agentloopgate/experiment/batch.py,
    FormalBatchRunner.run, DshFormalBatchExecutor.execute, the write-once files, and the cost file of
    agentloopgate/experiment/ledger.py). */
module BatchRun {
  import opened Common

  /** A file that a crash in the middle of its writing may have left torn. */
  datatype File = Whole(text: string) | Torn

  /** The files of one batch: the usage and attempt ledgers that the adapter appends to, the retained
      raw result, the evidence files that ingestion and linking write one by one, the cost accounting and
      the batch artifact; `paid` counts runs of the paid adapter. */
  datatype Disk = Disk(logs: seq<string>, raw: Option<File>, evidence: seq<File>, cost: Option<File>,
                       batch: Option<File>, paid: nat)

  const EMPTY := Disk([], None, [], None, None, 0)

  /** The deterministic tools of a run: the evidence files made from a raw result, in the order in which
      they are written, the evidence checks, the cost reconciliation, the artifact, and the check of a
      stored artifact. */
  datatype Tools = Tools(
    ingest: (string, seq<string>) -> Option<seq<string>>,
    accepts: seq<string> -> bool,
    reconcile: (string, seq<string>, seq<string>) -> Option<string>,
    seal: (seq<string>, string) -> string,
    verifies: (string, seq<string>, string) -> bool)

  /** A sealed artifact passes the check against the evidence that it was made from. */
  ghost predicate Sound(t: Tools) {
    forall evidence, cost :: t.verifies(t.seal(evidence, cost), evidence, cost)
  }

  datatype Fault =
    | RawUnavailable | Unready | AdapterFailed | RawCorrupt | EvidenceUnreadable | EvidenceRejected
    | CostUnavailable | CostConflict | BatchConflict | BatchCorrupt | VerifyFailed

  datatype End = Died | Failed(fault: Fault) | Finished(resumed: bool, cost: string, batch: string)

  /** One run.  Should it come to the paid adapter, that appends `growth` to the ledgers and returns
      `upstream`, if anything.  The process dies at the write after the first `writes` ones, which it
      may leave torn. */
  datatype Run = Run(
    existingOnly: bool, ready: bool, growth: seq<string>, upstream: Option<string>, writes: nat, tears: bool)

  // ---- What a run does ----

  datatype Put = Written | Differs | Lost

  /** The write-once rule for one file. */
  function PutOf(file: Option<File>, text: string, writes: nat, tears: bool): (r: (Option<File>, Put)) {
    if file.Some? then (file, if file.value == Whole(text) then Written else Differs)
    else if writes == 0 then (if tears then Some(Torn) else None, Lost)
    else (Some(Whole(text)), Written)
  }

  /** How many writes are left after a file that may have been there already. */
  function Left(file: Option<File>, writes: nat): (r: nat) {
    if file.Some? || writes == 0 then writes else writes - 1
  }

  /** The write-once rule for the evidence files from number `i` on, and the writes left behind them. */
  function PutAllOf(files: seq<File>, texts: seq<string>, i: nat, writes: nat, tears: bool): (r: (seq<File>, Put, nat))
    requires i <= |texts|
    decreases |texts| - i
  {
    if i == |texts| then (files, Written, writes)
    else if i < |files| then
      if files[i] == Whole(texts[i]) then PutAllOf(files, texts, i + 1, writes, tears) else (files, Differs, writes)
    else if writes == 0 then (if tears then files + [Torn] else files, Lost, 0)
    else PutAllOf(files + [Whole(texts[i])], texts, i + 1, writes - 1, tears)
  }

  predicate Readable(files: seq<File>) {
    forall f | f in files :: f.Whole?
  }

  function TextsOf(files: seq<File>): (r: seq<string>)
    requires Readable(files)
  {
    seq(|files|, i requires 0 <= i < |files| => files[i].text)
  }

  /** The evidence in the retained raw result, with its cost. */
  function CostOf(t: Tools, d: Disk): (r: Result<(seq<string>, string), Fault>) {
    if d.raw.None? then Failure(RawUnavailable)
    else if d.raw.value.Torn? then Failure(RawCorrupt)
    else
      var evidence := t.ingest(d.raw.value.text, d.logs);
      if evidence.None? then Failure(RawCorrupt)
      else if !t.accepts(evidence.value) then Failure(EvidenceRejected)
      else
        var cost := t.reconcile(d.raw.value.text, evidence.value, d.logs);
        if cost.None? then Failure(CostUnavailable) else Success((evidence.value, cost.value))
  }

  /** From the evidence and cost to the end: the cost file, the artifact, its check. */
  function SealOf(t: Tools, d: Disk, evidence: seq<string>, cost: string, writes: nat, tears: bool): (r: (Disk, End))
    requires d.batch.None?
  {
    var (costFile, put) := PutOf(d.cost, cost, writes, tears);
    var d1 := d.(cost := costFile);
    if put == Lost then (d1, Died)
    else if put == Differs then (d1, Failed(CostConflict))
    else
      var artifact := t.seal(evidence, cost);
      var (batchFile, sealed) := PutOf(None, artifact, Left(d.cost, writes), tears);
      var d2 := d1.(batch := batchFile);
      if sealed == Lost then (d2, Died)
      else if !t.verifies(artifact, evidence, cost) then (d2, Failed(VerifyFailed))
      else (d2, Finished(false, cost, artifact))
  }

  /** From the retained raw result to the end: ingestion, which writes the evidence files, and the rest. */
  function FromRawOf(t: Tools, d: Disk, writes: nat, tears: bool): (r: (Disk, End))
    requires d.batch.None?
  {
    if d.raw.None? then (d, Failed(RawUnavailable))
    else if d.raw.value.Torn? || t.ingest(d.raw.value.text, d.logs).None? then (d, Failed(RawCorrupt))
    else
      var (files, put, left) := PutAllOf(d.evidence, t.ingest(d.raw.value.text, d.logs).value, 0, writes, tears);
      var d1 := d.(evidence := files);
      if put == Lost then (d1, Died)
      else if put == Differs then (d1, Failed(EvidenceUnreadable))
      else
        var costed := CostOf(t, d1);
        if costed.Failure? then (d1, Failed(costed.error))
        else SealOf(t, d1, costed.value.0, costed.value.1, left, tears)
  }

  /** A stored artifact is checked against the stored evidence and the recomputed cost. */
  function FromBatchOf(t: Tools, d: Disk, writes: nat, tears: bool): (r: (Disk, End))
    requires d.batch.Some?
  {
    if d.batch.value.Torn? then (d, Failed(BatchCorrupt))
    else if !Readable(d.evidence) then (d, Failed(EvidenceUnreadable))
    else if d.raw.None? || d.raw.value.Torn? then (d, Failed(RawCorrupt))
    else
      var cost := t.reconcile(d.raw.value.text, TextsOf(d.evidence), d.logs);
      if cost.None? then (d, Failed(CostUnavailable))
      else
        var (costFile, put) := PutOf(d.cost, cost.value, writes, tears);
        var d1 := d.(cost := costFile);
        if put == Lost then (d1, Died)
        else if put == Differs then (d1, Failed(CostConflict))
        else if !t.verifies(d.batch.value.text, TextsOf(d.evidence), cost.value) then (d1, Failed(VerifyFailed))
        else (d1, Finished(true, cost.value, d.batch.value.text))
  }

  function RunOf(t: Tools, d: Disk, r: Run): (out: (Disk, End)) {
    if d.batch.Some? then FromBatchOf(t, d, r.writes, r.tears)
    else if d.raw.Some? then FromRawOf(t, d, r.writes, r.tears)
    else if r.existingOnly then (d, Failed(RawUnavailable))
    else if !r.ready then (d, Failed(Unready))
    else
      var d1 := d.(logs := d.logs + r.growth, paid := d.paid + 1);
      if r.upstream.None? then (d1, Failed(AdapterFailed))
      else
        var (rawFile, put) := PutOf(None, r.upstream.value, r.writes, r.tears);
        var d2 := d1.(raw := rawFile);
        if put == Lost then (d2, Died) else FromRawOf(t, d2, Left(None, r.writes), r.tears)
  }

  // ---- The runner ----

  class BatchFiles {
    var logs: seq<string>
    var raw: Option<File>
    var evidence: seq<File>
    var cost: Option<File>
    var batch: Option<File>
    var paid: nat

    constructor ()
      ensures Now() == EMPTY
    {
      logs, raw, evidence, cost, batch, paid := [], None, [], None, None, 0;
    }

    function Now(): (r: Disk)
      reads this
    {
      Disk(logs, raw, evidence, cost, batch, paid)
    }

    /** Finds the retained raw result, or runs the paid adapter once and copies its result. */
    method Execute(r: Run) returns (end: Option<End>, writes: nat)
      modifies this`logs, this`raw, this`paid
      ensures old(raw).Some? ==> Now() == old(Now()) && end.None? && writes == r.writes
      ensures old(raw).None? && (r.existingOnly || !r.ready) ==> Now() == old(Now()) && end.Some?
      ensures old(raw).None? && !r.existingOnly && r.ready ==>
                paid == old(paid) + 1 && logs == old(logs) + r.growth
                && raw == (if r.upstream.None? then None else PutOf(None, r.upstream.value, r.writes, r.tears).0)
      ensures end.None? ==> raw.Some? && writes == (if old(raw).Some? then r.writes else r.writes - 1)
      ensures end.Some? ==> end.value == (if r.existingOnly then Failed(RawUnavailable)
                                          else if !r.ready then Failed(Unready)
                                          else if r.upstream.None? then Failed(AdapterFailed) else Died)
      ensures old(raw).None? ==> (end.None? <==> !r.existingOnly && r.ready && r.upstream.Some? && r.writes > 0)
    {
      writes := r.writes;
      if raw.Some? {
        return None, writes;
      }
      if r.existingOnly {
        return Some(Failed(RawUnavailable)), writes;
      }
      if !r.ready {
        return Some(Failed(Unready)), writes;
      }
      logs, paid := logs + r.growth, paid + 1;
      if r.upstream.None? {
        return Some(Failed(AdapterFailed)), writes;
      }
      if writes == 0 {
        raw := if r.tears then Some(Torn) else None;
        return Some(Died), writes;
      }
      raw := Some(Whole(r.upstream.value));
      return None, writes - 1;
    }

    /** Ingestion: every evidence file is written once, or must be there as it would be written. */
    method SealEvidence(texts: seq<string>, writes: nat, tears: bool) returns (put: Put, left: nat)
      modifies this`evidence
      ensures (evidence, put, left) == PutAllOf(old(evidence), texts, 0, writes, tears)
    {
      left := writes;
      for i := 0 to |texts|
        invariant i <= |evidence| || evidence == old(evidence)
        invariant PutAllOf(old(evidence), texts, 0, writes, tears) == PutAllOf(evidence, texts, i, left, tears)
        invariant i <= |evidence|
      {
        if i < |evidence| {
          if evidence[i] != Whole(texts[i]) {
            return Differs, left;
          }
        } else {
          if left == 0 {
            evidence := if tears then evidence + [Torn] else evidence;
            return Lost, 0;
          }
          evidence, left := evidence + [Whole(texts[i])], left - 1;
        }
      }
      put := Written;
    }

    method SealCosts(text: string, writes: nat, tears: bool) returns (put: Put)
      modifies this`cost
      ensures (cost, put) == PutOf(old(cost), text, writes, tears)
    {
      if cost.Some? {
        return if cost.value == Whole(text) then Written else Differs;
      }
      if writes == 0 {
        cost := if tears then Some(Torn) else None;
        return Lost;
      }
      cost := Some(Whole(text));
      return Written;
    }

    /** Checks a stored artifact. */
    method Resume(t: Tools, writes: nat, tears: bool) returns (end: End)
      requires batch.Some?
      modifies this`cost
      ensures (Now(), end) == FromBatchOf(t, old(Now()), writes, tears)
    {
      if batch.value.Torn? {
        return Failed(BatchCorrupt);
      }
      if !Readable(evidence) {
        return Failed(EvidenceUnreadable);
      }
      if raw.None? || raw.value.Torn? {
        return Failed(RawCorrupt);
      }
      var text := t.reconcile(raw.value.text, TextsOf(evidence), logs);
      if text.None? {
        return Failed(CostUnavailable);
      }
      var put := SealCosts(text.value, writes, tears);
      if put == Lost {
        return Died;
      }
      if put == Differs {
        return Failed(CostConflict);
      }
      return if t.verifies(batch.value.text, TextsOf(evidence), text.value)
             then Finished(true, text.value, batch.value.text) else Failed(VerifyFailed);
    }

    /** Makes evidence, cost and artifact from the retained raw result. */
    method FromRaw(t: Tools, writes: nat, tears: bool) returns (end: End)
      requires batch.None?
      modifies this`evidence, this`cost, this`batch
      ensures (Now(), end) == FromRawOf(t, old(Now()), writes, tears)
    {
      if raw.None? {
        return Failed(RawUnavailable);
      }
      if raw.value.Torn? || t.ingest(raw.value.text, logs).None? {
        return Failed(RawCorrupt);
      }
      var put, left := SealEvidence(t.ingest(raw.value.text, logs).value, writes, tears);
      if put == Lost {
        return Died;
      }
      if put == Differs {
        return Failed(EvidenceUnreadable);
      }
      var costed := CostOf(t, Now());
      if costed.Failure? {
        return Failed(costed.error);
      }
      var (texts, text) := costed.value;
      var after := Left(cost, left);
      put := SealCosts(text, left, tears);
      if put == Lost {
        return Died;
      }
      if put == Differs {
        return Failed(CostConflict);
      }
      var artifact := t.seal(texts, text);
      if after == 0 {
        batch := if tears then Some(Torn) else None;
        return Died;
      }
      batch := Some(Whole(artifact));
      return if t.verifies(artifact, texts, text) then Finished(false, text, artifact) else Failed(VerifyFailed);
    }

    method RunBatch(t: Tools, r: Run) returns (end: End)
      modifies this
      ensures (Now(), end) == RunOf(t, old(Now()), r)
    {
      if batch.Some? {
        end := Resume(t, r.writes, r.tears);
        return;
      }
      var early, writes := Execute(r);
      if early.Some? {
        return early.value;
      }
      end := FromRaw(t, writes, r.tears);
    }
  }

  // ---- Histories ----

  function History(t: Tools, d: Disk, runs: seq<Run>): (r: (Disk, seq<End>)) {
    if runs == [] then (d, [])
    else
      var (before, ends) := History(t, d, runs[..|runs| - 1]);
      var (after, end) := RunOf(t, before, runs[|runs| - 1]);
      (after, ends + [end])
  }

  /** The evidence files that ingestion writes for what is retained. */
  function Expected(t: Tools, d: Disk): (r: seq<string>) {
    if d.raw.Some? && d.raw.value.Whole? && t.ingest(d.raw.value.text, d.logs).Some?
    then t.ingest(d.raw.value.text, d.logs).value else []
  }

  /** The files so far are the first of the expected ones, of which the last may be torn. */
  ghost predicate Begun(files: seq<File>, texts: seq<string>) {
    && |files| <= |texts|
    && forall i | 0 <= i < |files| :: files[i] == Whole(texts[i]) || (i == |files| - 1 && files[i] == Torn)
  }

  /** All of them are there. */
  ghost predicate Told(files: seq<File>, texts: seq<string>) {
    |files| == |texts| && forall i | 0 <= i < |files| :: files[i] == Whole(texts[i])
  }

  /** Every file but the raw result is made from the files before it. */
  ghost predicate Inv(t: Tools, d: Disk) {
    && Begun(d.evidence, Expected(t, d))
    && (d.cost.Some? ==> CostOf(t, d).Success? && Told(d.evidence, Expected(t, d)))
    && (d.cost.Some? && d.cost.value.Whole? ==> d.cost.value.text == CostOf(t, d).value.1)
    && (d.batch.Some? ==> d.cost.Some? && d.cost.value.Whole?)
    && (d.batch.Some? && d.batch.value.Whole? ==>
          d.batch.value.text == t.seal(CostOf(t, d).value.0, CostOf(t, d).value.1))
  }

  /** What is written stays, and once a raw result is retained the paid adapter is not run and the
      ledgers do not grow. */
  ghost predicate Kept(d: Disk, after: Disk) {
    && (d.raw.Some? ==> after.raw == d.raw && after.paid == d.paid && after.logs == d.logs)
    && d.evidence <= after.evidence
    && (d.cost.Some? ==> after.cost == d.cost)
    && (d.batch.Some? ==> after.batch == d.batch)
    && d.logs <= after.logs && d.paid <= after.paid
    && (after.logs != d.logs ==> after.paid > d.paid)
  }

  /** Writing the evidence files, cut off or not, takes nothing back and leaves the first of the expected
      ones; it is through exactly when no file was torn and the writes were enough. */
  lemma {:induction false} PutAllKeeps(files: seq<File>, texts: seq<string>, i: nat, writes: nat, tears: bool)
    requires i <= |texts| && Begun(files, texts) && i <= |files| && forall k | 0 <= k < i :: files[k].Whole?
    ensures var (after, put, left) := PutAllOf(files, texts, i, writes, tears);
            && files <= after && Begun(after, texts) && left <= writes
            && (put == Written <==> Told(after, texts)) && (put == Differs <==> !Readable(files))
            && (put == Written ==> left + |texts| == writes + |files|)
            && (Readable(files) && writes >= |texts| - |files| ==> put == Written)
    decreases |texts| - i
  {
    if i < |texts| {
      if i < |files| && files[i].Whole? {
        PutAllKeeps(files, texts, i + 1, writes, tears);
      } else if i == |files| && writes > 0 {
        PutAllKeeps(files + [Whole(texts[i])], texts, i + 1, writes - 1, tears);
      }
    }
  }

  lemma SealKeeps(t: Tools, d: Disk, writes: nat, tears: bool)
    requires Inv(t, d) && d.batch.None? && CostOf(t, d).Success? && Told(d.evidence, Expected(t, d))
    ensures var after := SealOf(t, d, CostOf(t, d).value.0, CostOf(t, d).value.1, writes, tears).0;
            Inv(t, after) && Kept(d, after)
  {
  }

  lemma FromRawKeeps(t: Tools, d: Disk, writes: nat, tears: bool)
    requires Inv(t, d) && d.batch.None?
    ensures Inv(t, FromRawOf(t, d, writes, tears).0) && Kept(d, FromRawOf(t, d, writes, tears).0)
  {
    var (files, put, left) := PutAllOf(d.evidence, Expected(t, d), 0, writes, tears);
    PutAllKeeps(d.evidence, Expected(t, d), 0, writes, tears);
    var told := d.(evidence := files);
    assert CostOf(t, told) == CostOf(t, d) && Expected(t, told) == Expected(t, d);
    if put == Written && CostOf(t, d).Success? {
      SealKeeps(t, told, left, tears);
    }
  }

  lemma TextsOfTold(files: seq<File>, texts: seq<string>)
    requires Told(files, texts)
    ensures Readable(files) && TextsOf(files) == texts
  {
  }

  lemma FromBatchKeeps(t: Tools, d: Disk, writes: nat, tears: bool)
    requires Inv(t, d) && d.batch.Some?
    ensures FromBatchOf(t, d, writes, tears).0 == d
  {
    TextsOfTold(d.evidence, Expected(t, d));
  }

  lemma RunKeeps(t: Tools, d: Disk, r: Run)
    requires Inv(t, d)
    ensures Inv(t, RunOf(t, d, r).0) && Kept(d, RunOf(t, d, r).0)
    ensures RunOf(t, d, r).0.paid <= d.paid + 1
  {
    if d.batch.Some? {
      FromBatchKeeps(t, d, r.writes, r.tears);
    } else if d.raw.Some? {
      FromRawKeeps(t, d, r.writes, r.tears);
    } else if !r.existingOnly && r.ready && r.upstream.Some? && r.writes > 0 {
      FromRawKeeps(t, Retained(d, r), r.writes - 1, r.tears);
    }
  }

  /** Over every sequence of runs, crashes and resumes nothing that is written ever changes, and after
      the raw result of a batch is retained, torn or not, its paid adapter is never run again. */
  lemma {:induction false} HistoryKeeps(t: Tools, d: Disk, runs: seq<Run>)
    requires Inv(t, d)
    ensures Inv(t, History(t, d, runs).0) && Kept(d, History(t, d, runs).0)
  {
    if runs == [] {
    } else {
      var rest := runs[..|runs| - 1];
      HistoryKeeps(t, d, rest);
      var before := History(t, d, rest).0;
      RunKeeps(t, before, runs[|runs| - 1]);
    }
  }

  /** No file of the batch is torn. */
  predicate Intact(d: Disk) {
    && (d.raw.Some? ==> d.raw.value.Whole?)
    && Readable(d.evidence)
    && (d.cost.Some? ==> d.cost.value.Whole?)
    && (d.batch.Some? ==> d.batch.value.Whole?)
  }

  /** What good evidence in a retained raw result is, and the cost that comes of it. */
  ghost predicate Good(t: Tools, d: Disk, evidence: seq<string>, cost: string) {
    && d.raw.Some? && d.raw.value.Whole?
    && t.ingest(d.raw.value.text, d.logs) == Some(evidence) && t.accepts(evidence)
    && t.reconcile(d.raw.value.text, evidence, d.logs) == Some(cost)
  }

  lemma CostOfIsGood(t: Tools, d: Disk)
    ensures CostOf(t, d).Success? <==> exists evidence, cost :: Good(t, d, evidence, cost)
    ensures CostOf(t, d).Success? ==> Good(t, d, CostOf(t, d).value.0, CostOf(t, d).value.1)
  {
    if CostOf(t, d).Success? {
      assert Good(t, d, CostOf(t, d).value.0, CostOf(t, d).value.1);
    }
  }

  function WholeAll(texts: seq<string>): (r: seq<File>) {
    seq(|texts|, i requires 0 <= i < |texts| => Whole(texts[i]))
  }

  /** All files of a finished batch. */
  function Sealed(t: Tools, d: Disk): (r: Disk)
    requires CostOf(t, d).Success?
  {
    var (evidence, cost) := CostOf(t, d).value;
    d.(evidence := WholeAll(evidence), cost := Some(Whole(cost)), batch := Some(Whole(t.seal(evidence, cost))))
  }

  lemma ToldIsWhole(files: seq<File>, texts: seq<string>)
    requires Told(files, texts)
    ensures files == WholeAll(texts)
  {
  }

  /** What a run has to write at most to get from the retained raw result to the end. */
  function Needed(t: Tools, d: Disk): (r: nat) {
    |Expected(t, d)| + 2
  }

  lemma ResumeFromRaw(t: Tools, d: Disk, writes: nat, tears: bool)
    requires Sound(t) && Inv(t, d) && d.raw.Some? && d.batch.None?
    ensures var (after, end) := FromRawOf(t, d, writes, tears);
            && (writes >= Needed(t, d) ==> end != Died)
            && (end != Died ==> (end.Finished? <==> Intact(d) && CostOf(t, d).Success?))
            && (end.Finished? ==>
                  after == Sealed(t, d) && end == Finished(false, CostOf(t, d).value.1, after.batch.value.text))
  {
    var (files, put, left) := PutAllOf(d.evidence, Expected(t, d), 0, writes, tears);
    PutAllKeeps(d.evidence, Expected(t, d), 0, writes, tears);
    if put == Written {
      ToldIsWhole(files, Expected(t, d));
    }
    if d.cost.Some? {
      TextsOfTold(d.evidence, Expected(t, d));
    }
  }

  lemma ResumeFromBatch(t: Tools, d: Disk, writes: nat, tears: bool)
    requires Sound(t) && Inv(t, d) && d.batch.Some?
    ensures var (after, end) := FromBatchOf(t, d, writes, tears);
            && end != Died && (end.Finished? <==> Intact(d) && CostOf(t, d).Success?)
            && (end.Finished? ==>
                  after == Sealed(t, d) && end == Finished(true, CostOf(t, d).value.1, after.batch.value.text))
  {
    TextsOfTold(d.evidence, Expected(t, d));
    ToldIsWhole(d.evidence, Expected(t, d));
  }

  /** With its raw result retained, a run that does not die finishes exactly when no file is torn, the
      evidence files included, and the evidence is good; it then holds the recomputed evidence, cost and
      artifact.  A run with writes enough does not die. */
  lemma ResumeFinishesExactlyWhenIntact(t: Tools, d: Disk, r: Run)
    requires Sound(t) && Inv(t, d) && d.raw.Some?
    ensures var (after, end) := RunOf(t, d, r);
            && (r.writes >= Needed(t, d) ==> end != Died)
            && (end != Died ==> (end.Finished? <==> Intact(d) && exists evidence, cost :: Good(t, d, evidence, cost)))
            && (end.Finished? ==>
                  exists evidence, cost ::
                    && Good(t, d, evidence, cost)
                    && end == Finished(d.batch.Some?, cost, t.seal(evidence, cost))
                    && after == d.(evidence := WholeAll(evidence), cost := Some(Whole(cost)),
                                   batch := Some(Whole(t.seal(evidence, cost)))))
  {
    CostOfIsGood(t, d);
    ResumesWhenIntact(t, d, r);
  }

  lemma ResumesWhenIntact(t: Tools, d: Disk, r: Run)
    requires Sound(t) && Inv(t, d) && d.raw.Some?
    ensures var (after, end) := RunOf(t, d, r);
            && (r.writes >= Needed(t, d) ==> end != Died)
            && (end != Died ==> (end.Finished? <==> Intact(d) && CostOf(t, d).Success?))
            && (end.Finished? ==>
                  after == Sealed(t, d) && end == Finished(d.batch.Some?, CostOf(t, d).value.1, after.batch.value.text))
  {
    if d.batch.Some? {
      ResumeFromBatch(t, d, r.writes, r.tears);
    } else {
      ResumeFromRaw(t, d, r.writes, r.tears);
    }
  }

  /** A run that is cut off without tearing a file tears none. */
  lemma CleanCut(t: Tools, d: Disk, r: Run)
    requires Inv(t, d) && Intact(d) && !r.tears
    ensures Intact(RunOf(t, d, r).0)
  {
    if d.batch.Some? {
      FromBatchKeeps(t, d, r.writes, r.tears);
    } else if d.raw.Some? {
      PutAllClean(d.evidence, Expected(t, d), 0, r.writes);
    } else if !r.existingOnly && r.ready && r.upstream.Some? && r.writes > 0 {
      PutAllClean(d.evidence, Expected(t, Retained(d, r)), 0, r.writes - 1);
    }
  }

  lemma {:induction false} PutAllClean(files: seq<File>, texts: seq<string>, i: nat, writes: nat)
    requires i <= |texts| && Readable(files)
    ensures Readable(PutAllOf(files, texts, i, writes, false).0)
    decreases |texts| - i
  {
    if i < |texts| {
      if i < |files| {
        PutAllClean(files, texts, i + 1, writes);
      } else if writes > 0 {
        PutAllClean(files + [Whole(texts[i])], texts, i + 1, writes - 1);
      }
    }
  }

  /** What a batch is made from does not depend on how far a run got behind its raw result. */
  lemma SameCost(t: Tools, d: Disk, after: Disk)
    requires d.raw.Some? && Kept(d, after)
    ensures CostOf(t, after) == CostOf(t, d) && Expected(t, after) == Expected(t, d)
    ensures CostOf(t, d).Success? ==> (Sealed(t, after) == Sealed(t, d))
  {
  }

  /** The files once the paid adapter has returned and its result is retained. */
  function Retained(d: Disk, r: Run): (after: Disk)
    requires r.upstream.Some?
  {
    d.(logs := d.logs + r.growth, paid := d.paid + 1, raw := Some(Whole(r.upstream.value)))
  }

  /** Two runs over one retained raw result that do not die come to the same files and values. */
  lemma SameFinish(t: Tools, d: Disk, dead: Disk, end: End, after: Disk, next: Run)
    requires Sound(t) && Inv(t, d) && Inv(t, dead) && d.raw.Some? && Kept(d, dead) && Intact(dead)
    requires CostOf(t, d).Success? && after == Sealed(t, d) && end.Finished?
    requires end.cost == CostOf(t, d).value.1 && after.batch.Some? && end.batch == after.batch.value.text
    requires RunOf(t, dead, next).1 != Died
    ensures var (again, final) := RunOf(t, dead, next);
            again == after && final.Finished? && final.cost == end.cost && final.batch == end.batch
  {
    SameCost(t, d, dead);
    ResumesWhenIntact(t, dead, next);
  }

  /** A run that dies between two writes leaves files from which the next one, unless it dies, finishes
      with the values that the dead run would have had. */
  lemma CrashThenResume(t: Tools, d: Disk, r: Run, cut: Run, next: Run, dead: Disk)
    requires Sound(t) && Inv(t, d) && Intact(d) && RunOf(t, d, r).1.Finished?
    requires cut == r.(writes := cut.writes, tears := false) && dead == RunOf(t, d, cut).0
    requires dead.raw.Some? && RunOf(t, dead, next).1 != Died
    ensures var (after, end) := RunOf(t, d, r);
            var (again, final) := RunOf(t, dead, next);
            again == after && final.Finished? && final.cost == end.cost && final.batch == end.batch
  {
    var (after, end) := RunOf(t, d, r);
    RunKeeps(t, d, cut);
    CleanCut(t, d, cut);
    if d.raw.Some? || d.batch.Some? {
      ResumesWhenIntact(t, d, r);
      SameFinish(t, d, dead, end, after, next);
    } else {
      FreshFinish(t, d, r, after, end);
      FromRawKeeps(t, Retained(d, r), cut.writes - 1, false);
      SameFinish(t, Retained(d, r), dead, end, after, next);
    }
  }

  lemma FreshFinish(t: Tools, d: Disk, r: Run, after: Disk, end: End)
    requires Sound(t) && Inv(t, d) && d.raw.None? && d.batch.None?
    requires (after, end) == RunOf(t, d, r) && end.Finished?
    ensures r.upstream.Some? && Inv(t, Retained(d, r)) && CostOf(t, Retained(d, r)).Success?
    ensures after == Sealed(t, Retained(d, r)) && end.cost == CostOf(t, Retained(d, r)).value.1
    ensures after.batch.Some? && end.batch == after.batch.value.text
  {
    ResumeFromRaw(t, Retained(d, r), r.writes - 1, r.tears);
  }

  lemma FinishedIsSealed(t: Tools, d: Disk, r: Run)
    requires Sound(t) && Inv(t, d) && RunOf(t, d, r).1.Finished?
    ensures var (after, end) := RunOf(t, d, r);
            after.cost == Some(Whole(end.cost)) && after.batch == Some(Whole(end.batch))
  {
    if d.batch.Some? || d.raw.Some? {
      ResumesWhenIntact(t, d, r);
    }
  }

  lemma {:induction false} LastFinish(t: Tools, runs: seq<Run>, i: nat)
    requires Sound(t) && i < |History(t, EMPTY, runs).1| && History(t, EMPTY, runs).1[i].Finished?
    ensures var (d, ends) := History(t, EMPTY, runs);
            d.cost == Some(Whole(ends[i].cost)) && d.batch == Some(Whole(ends[i].batch))
  {
    var rest, last := runs[..|runs| - 1], runs[|runs| - 1];
    var (before, ends) := History(t, EMPTY, rest);
    HistoryKeeps(t, EMPTY, rest);
    if i < |ends| {
      LastFinish(t, rest, i);
      RunKeeps(t, before, last);
    } else {
      FinishedIsSealed(t, before, last);
    }
  }

  /** All runs that ever finish agree on the cost and on the artifact. */
  lemma FinishedRunsAgree(t: Tools, runs: seq<Run>, i: nat, j: nat)
    requires Sound(t) && i < |History(t, EMPTY, runs).1| && j < |History(t, EMPTY, runs).1|
    requires History(t, EMPTY, runs).1[i].Finished? && History(t, EMPTY, runs).1[j].Finished?
    ensures var ends := History(t, EMPTY, runs).1;
            ends[i].cost == ends[j].cost && ends[i].batch == ends[j].batch
  {
    LastFinish(t, runs, i);
    LastFinish(t, runs, j);
  }

  lemma {:induction false} TornStays(t: Tools, d: Disk, runs: seq<Run>)
    requires Sound(t) && Inv(t, d) && d.raw.Some? && !Intact(d)
    ensures forall i | 0 <= i < |History(t, d, runs).1| :: !History(t, d, runs).1[i].Finished?
  {
    if runs == [] {
    } else {
      var rest, last := runs[..|runs| - 1], runs[|runs| - 1];
      TornStays(t, d, rest);
      HistoryKeeps(t, d, rest);
      TornFails(t, History(t, d, rest).0, last);
    }
  }

  lemma TornFails(t: Tools, d: Disk, r: Run)
    requires Sound(t) && Inv(t, d) && d.raw.Some? && !Intact(d)
    ensures !RunOf(t, d, r).1.Finished?
  {
    ResumesWhenIntact(t, d, r);
  }

  /** A crash that tears an evidence file: raw result and ledgers are whole, nothing is sealed, and yet no
      later run finishes. */
  lemma TornEvidenceBlocks(t: Tools, raw: string, logs: seq<string>, texts: seq<string>, runs: seq<Run>)
    requires Sound(t) && t.ingest(raw, logs) == Some(texts) && texts != []
    ensures var d := Disk(logs, Some(Whole(raw)), [], None, None, 1);
            var dead := FromRawOf(t, d, 0, true);
            && dead == (d.(evidence := [Torn]), Died)
            && forall i | 0 <= i < |History(t, dead.0, runs).1| :: !History(t, dead.0, runs).1[i].Finished?
  {
    var dead := Disk(logs, Some(Whole(raw)), [Torn], None, None, 1);
    assert [] + [Torn] == [Torn];
    assert !Readable([Torn]) by {
      assert Torn in [Torn];
    }
    TornStays(t, dead, runs);
  }
}
