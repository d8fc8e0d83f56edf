/** What the background jobs of src/web/app.py do to the store, as the sequence of
    writes each one performs: `update_job` calls on the job and `create_artifact` calls
    on its campaign. The collaborators a job calls (the pack builder, Graphviz, the map
    and PDF writers) are parameters that give a result or the text of the exception they
    raise. Ids of the artifacts a job creates are known in advance: the k-th create of a
    run that starts at serial s gets `IdOf(s + k)`. */
module JobPlan {
  import opened Wrappers
  import opened Text
  import opened PackSchema
  import opened StoreModel
  import opened Paths

  /** One store write made on behalf of a job. */
  datatype Op =
    | Update(status: string, message: Option<string>, result: Option<string>)
    | Create(draft: Draft)

  /** `update_job(status="running", message=m)`. */
  function Running(m: string): Op {
    Update("running", Some(m), None)
  }

  /** A progress update: the job is still running and names no result. */
  predicate Progress(op: Op) {
    op.Update? && op.status == "running" && op.result.None?
  }

  /** The `except Exception as e` branch: `update_job(status="error", message=str(e))`. */
  function Failed(e: string): Op {
    Update("error", Some(e), None)
  }

  /** `update_job(status="done", message="Done", result_artifact_id=id)`. */
  function Finished(id: string): Op {
    Update("done", Some("Done"), Some(id))
  }

  function Apply(t: Tables, jobId: string, campaignId: string, op: Op): Tables {
    match op
    case Update(s, m, r) => UpdateJob(t, jobId, s, m, r)
    case Create(d) => NewArtifact(t, campaignId, d).0
  }

  /** The tables after performing `ops` in order. */
  function ApplyAll(t: Tables, jobId: string, campaignId: string, ops: seq<Op>): Tables {
    ApplyFrom(t, jobId, campaignId, ops, 0)
  }

  /** The tables after performing `ops[i]`, `ops[i + 1]`, ... in order. */
  function ApplyFrom(t: Tables, jobId: string, campaignId: string, ops: seq<Op>, i: nat): Tables
    decreases |ops| - i
  {
    if i >= |ops| then t else ApplyFrom(Apply(t, jobId, campaignId, ops[i]), jobId, campaignId, ops, i + 1)
  }

  /** What one op creates and what it reports. */
  function Created(op: Op): seq<Draft> {
    if op.Create? then [op.draft] else []
  }

  function Reported(op: Op): seq<Op> {
    if op.Update? then [op] else []
  }

  /** The artifacts `ops` create, in order. */
  function Drafts(ops: seq<Op>): seq<Draft> {
    DraftsFrom(ops, 0)
  }

  function DraftsFrom(ops: seq<Op>, i: nat): seq<Draft>
    decreases |ops| - i
  {
    if i >= |ops| then [] else Created(ops[i]) + DraftsFrom(ops, i + 1)
  }

  /** The job updates among `ops`, in order. */
  function Updates(ops: seq<Op>): seq<Op> {
    UpdatesFrom(ops, 0)
  }

  function UpdatesFrom(ops: seq<Op>, i: nat): seq<Op>
    decreases |ops| - i
  {
    if i >= |ops| then [] else Reported(ops[i]) + UpdatesFrom(ops, i + 1)
  }

  /** Performing `ops` from position `i` is performing its tail from position `i - 1`. */
  lemma {:induction false} ApplyFromShift(t: Tables, jobId: string, campaignId: string, ops: seq<Op>, i: nat)
    requires 1 <= i <= |ops|
    ensures ApplyFrom(t, jobId, campaignId, ops, i) == ApplyFrom(t, jobId, campaignId, ops[1..], i - 1)
    decreases |ops| - i
  {
    if i < |ops| {
      assert ops[1..][i - 1] == ops[i];
      ApplyFromShift(Apply(t, jobId, campaignId, ops[i]), jobId, campaignId, ops, i + 1);
    }
  }

  /** The same for the drafts and the updates. */
  lemma {:induction false} WritesFromShift(ops: seq<Op>, i: nat)
    requires 1 <= i <= |ops|
    ensures DraftsFrom(ops, i) == DraftsFrom(ops[1..], i - 1)
    ensures UpdatesFrom(ops, i) == UpdatesFrom(ops[1..], i - 1)
    decreases |ops| - i
  {
    if i < |ops| {
      assert ops[1..][i - 1] == ops[i];
      WritesFromShift(ops, i + 1);
    }
  }

  /** The writes of short runs of ops, op by op. */
  lemma WritesOfOne(a: Op)
    ensures Drafts([a]) == Created(a) && Updates([a]) == Reported(a)
  {
    var l := [a];
    assert DraftsFrom(l, 1) == [] && UpdatesFrom(l, 1) == [];
    assert Created(a) + [] == Created(a) && Reported(a) + [] == Reported(a);
  }

  lemma WritesOfTwo(a: Op, b: Op)
    ensures Drafts([a, b]) == Created(a) + Created(b) && Updates([a, b]) == Reported(a) + Reported(b)
  {
    var l := [a, b];
    assert DraftsFrom(l, 2) == [] && UpdatesFrom(l, 2) == [];
    assert Created(b) + [] == Created(b) && Reported(b) + [] == Reported(b);
    assert DraftsFrom(l, 1) == Created(b) && UpdatesFrom(l, 1) == Reported(b);
  }

  lemma WritesOfThree(a: Op, b: Op, c: Op)
    ensures Drafts([a, b, c]) == Created(a) + (Created(b) + Created(c))
    ensures Updates([a, b, c]) == Reported(a) + (Reported(b) + Reported(c))
  {
    var l := [a, b, c];
    assert DraftsFrom(l, 3) == [] && UpdatesFrom(l, 3) == [];
    assert Created(c) + [] == Created(c) && Reported(c) + [] == Reported(c);
    assert DraftsFrom(l, 2) == Created(c) && UpdatesFrom(l, 2) == Reported(c);
    assert DraftsFrom(l, 1) == Created(b) + DraftsFrom(l, 2) && UpdatesFrom(l, 1) == Reported(b) + UpdatesFrom(l, 2);
  }

  lemma WritesOfFour(a: Op, b: Op, c: Op, d: Op)
    ensures Drafts([a, b, c, d]) == Created(a) + (Created(b) + (Created(c) + Created(d)))
    ensures Updates([a, b, c, d]) == Reported(a) + (Reported(b) + (Reported(c) + Reported(d)))
  {
    var l := [a, b, c, d];
    assert DraftsFrom(l, 4) == [] && UpdatesFrom(l, 4) == [];
    assert Created(d) + [] == Created(d) && Reported(d) + [] == Reported(d);
    assert DraftsFrom(l, 3) == Created(d) && UpdatesFrom(l, 3) == Reported(d);
    assert DraftsFrom(l, 2) == Created(c) + DraftsFrom(l, 3) && UpdatesFrom(l, 2) == Reported(c) + UpdatesFrom(l, 3);
    assert DraftsFrom(l, 1) == Created(b) + DraftsFrom(l, 2) && UpdatesFrom(l, 1) == Reported(b) + UpdatesFrom(l, 2);
  }

  /** The first op, then the rest. */
  lemma ApplyAllUnfold(t: Tables, jobId: string, campaignId: string, ops: seq<Op>)
    requires ops != []
    ensures ApplyAll(t, jobId, campaignId, ops) == ApplyAll(Apply(t, jobId, campaignId, ops[0]), jobId, campaignId, ops[1..])
  {
    ApplyFromShift(Apply(t, jobId, campaignId, ops[0]), jobId, campaignId, ops, 1);
  }

  lemma WritesUnfold(ops: seq<Op>)
    requires ops != []
    ensures Drafts(ops) == (if ops[0].Create? then [ops[0].draft] else []) + Drafts(ops[1..])
    ensures Updates(ops) == (if ops[0].Update? then [ops[0]] else []) + Updates(ops[1..])
  {
    WritesFromShift(ops, 1);
  }

  /** The kinds of a list of drafts. */
  function Kinds(ds: seq<Draft>): (r: seq<string>)
    ensures |r| == |ds| && forall k :: 0 <= k < |ds| ==> r[k] == ds[k].kind
  {
    seq(|ds|, k requires 0 <= k < |ds| => ds[k].kind)
  }

  lemma KindsAppend(a: seq<Draft>, b: seq<Draft>)
    ensures Kinds(a + b) == Kinds(a) + Kinds(b)
  {
    assert forall k :: 0 <= k < |a + b| ==> Kinds(a + b)[k] == (Kinds(a) + Kinds(b))[k];
  }

  /** How many drafts have the given kind. */
  function CountKind(ds: seq<Draft>, kind: string): nat {
    if ds == [] then 0 else (if ds[0].kind == kind then 1 else 0) + CountKind(ds[1..], kind)
  }

  /** Every op creates an artifact. */
  predicate AllCreates(ops: seq<Op>) {
    forall k :: 0 <= k < |ops| ==> ops[k].Create?
  }

  /** `a` is the artifact that `create_artifact` makes from `d` under id `id`. */
  predicate Made(a: Artifact, id: string, campaignId: string, d: Draft) {
    && a.id == id && a.campaignId == campaignId && a.kind == d.kind && a.title == d.title
    && a.textContent == d.textContent && a.filePath == d.filePath
    && a.meta == (if d.meta.Some? then d.meta.value else [])
  }

  ////////////////////////////////////////////////////////////////////////////
  // Sequencing.

  lemma {:induction false} ApplyAllAppend(t: Tables, jobId: string, campaignId: string, a: seq<Op>, b: seq<Op>)
    ensures ApplyAll(t, jobId, campaignId, a + b) == ApplyAll(ApplyAll(t, jobId, campaignId, a), jobId, campaignId, b)
    decreases |a|
  {
    if a == [] {
      assert a + b == b;
    } else {
      assert (a + b)[0] == a[0];
      assert (a + b)[1..] == a[1..] + b;
      ApplyAllUnfold(t, jobId, campaignId, a + b);
      ApplyAllUnfold(t, jobId, campaignId, a);
      ApplyAllAppend(Apply(t, jobId, campaignId, a[0]), jobId, campaignId, a[1..], b);
    }
  }

  lemma ApplyAllSnoc(t: Tables, jobId: string, campaignId: string, ops: seq<Op>, op: Op)
    ensures ApplyAll(t, jobId, campaignId, ops + [op]) == Apply(ApplyAll(t, jobId, campaignId, ops), jobId, campaignId, op)
  {
    ApplyAllAppend(t, jobId, campaignId, ops, [op]);
    ApplyAllUnfold(ApplyAll(t, jobId, campaignId, ops), jobId, campaignId, [op]);
    assert [op][1..] == [];
  }

  lemma {:induction false} DraftsAppend(a: seq<Op>, b: seq<Op>)
    ensures Drafts(a + b) == Drafts(a) + Drafts(b)
  {
    if a == [] {
      assert a + b == b;
    } else {
      assert (a + b)[0] == a[0];
      assert (a + b)[1..] == a[1..] + b;
      WritesUnfold(a + b);
      WritesUnfold(a);
      DraftsAppend(a[1..], b);
    }
  }

  lemma {:induction false} UpdatesAppend(a: seq<Op>, b: seq<Op>)
    ensures Updates(a + b) == Updates(a) + Updates(b)
  {
    if a == [] {
      assert a + b == b;
    } else {
      assert (a + b)[0] == a[0];
      assert (a + b)[1..] == a[1..] + b;
      WritesUnfold(a + b);
      WritesUnfold(a);
      UpdatesAppend(a[1..], b);
    }
  }

  /** Progress updates, then `last`. */
  predicate ProgressUntil(u: seq<Op>, last: Op) {
    |u| >= 1 && u[|u| - 1] == last && forall k :: 0 <= k < |u| - 1 ==> Progress(u[k])
  }

  lemma ProgressThen(u: seq<Op>, pre: seq<Op>, last: Op)
    requires u == pre + [last]
    requires forall k :: 0 <= k < |pre| ==> Progress(pre[k])
    ensures ProgressUntil(u, last)
  {
    assert forall k :: 0 <= k < |u| - 1 ==> u[k] == pre[k];
  }

  /** The writes of one op followed by others. */
  lemma Cons(op: Op, rest: seq<Op>)
    ensures Drafts([op] + rest) == (if op.Create? then [op.draft] else []) + Drafts(rest)
    ensures Updates([op] + rest) == (if op.Update? then [op] else []) + Updates(rest)
  {
    assert ([op] + rest)[1..] == rest;
    WritesUnfold([op] + rest);
  }

  /** Five runs of writes one after another, of which the third creates nothing and
      only it and the first post updates. */
  lemma Append5Parts(a: seq<Op>, b: seq<Op>, c: seq<Op>, d: seq<Op>, e: seq<Op>)
    requires Drafts(c) == [] && Updates(b) == [] && Updates(d) == []
    ensures Drafts(a + b + c + d + e) == Drafts(a) + Drafts(b) + Drafts(d) + Drafts(e)
    ensures Updates(a + b + c + d + e) == Updates(a) + Updates(c) + Updates(e)
  {
    var ab := a + b;
    var abc := ab + c;
    var abcd := abc + d;
    DraftsAppend(a, b);
    DraftsAppend(ab, c);
    assert Drafts(abc) == Drafts(ab);
    DraftsAppend(abc, d);
    DraftsAppend(abcd, e);
    UpdatesAppend(a, b);
    assert Updates(ab) == Updates(a);
    UpdatesAppend(ab, c);
    UpdatesAppend(abc, d);
    assert Updates(abcd) == Updates(abc);
    UpdatesAppend(abcd, e);
  }

  lemma {:induction false} CountKindAppend(a: seq<Draft>, b: seq<Draft>, kind: string)
    ensures CountKind(a + b, kind) == CountKind(a, kind) + CountKind(b, kind)
  {
    if a == [] {
      assert a + b == b;
    } else {
      assert (a + b)[0] == a[0];
      assert (a + b)[1..] == a[1..] + b;
      CountKindAppend(a[1..], b, kind);
    }
  }

  /** Only creates: the drafts are the ops themselves, and there is no update. */
  lemma {:induction false} CreatesOnly(ops: seq<Op>)
    requires AllCreates(ops)
    ensures |Drafts(ops)| == |ops| && forall k :: 0 <= k < |ops| ==> Drafts(ops)[k] == ops[k].draft
    ensures Updates(ops) == []
  {
    if ops != [] {
      assert AllCreates(ops[1..]) by {
        forall k | 0 <= k < |ops[1..]| ensures ops[1..][k].Create? {
          assert ops[1..][k] == ops[k + 1];
        }
      }
      CreatesOnly(ops[1..]);
      WritesUnfold(ops);
    }
  }

  /** The count of a kind is its multiplicity among the kinds. */
  lemma {:induction false} CountKindIsMultiplicity(ds: seq<Draft>, kind: string)
    ensures CountKind(ds, kind) == multiset(Kinds(ds))[kind]
  {
    if ds != [] {
      CountKindIsMultiplicity(ds[1..], kind);
      assert ds == [ds[0]] + ds[1..];
      KindsAppend([ds[0]], ds[1..]);
    }
  }

  /** No draft of the given kind. */
  lemma {:induction false} CountKindAbsent(ds: seq<Draft>, kind: string)
    requires forall k :: 0 <= k < |ds| ==> ds[k].kind != kind
    ensures CountKind(ds, kind) == 0
  {
    if ds != [] {
      CountKindAbsent(ds[1..], kind);
    }
  }

  /** Every draft of the given kind. */
  lemma {:induction false} CountKindAll(ds: seq<Draft>, kind: string)
    requires forall k :: 0 <= k < |ds| ==> ds[k].kind == kind
    ensures CountKind(ds, kind) == |ds|
  {
    if ds != [] {
      CountKindAll(ds[1..], kind);
    }
  }

  ////////////////////////////////////////////////////////////////////////////
  // What a run of writes does to the tables.

  /** The writes keep the tables valid. */
  lemma {:induction false} ApplyAllValid(t: Tables, jobId: string, campaignId: string, ops: seq<Op>)
    requires Valid(t)
    ensures Valid(ApplyAll(t, jobId, campaignId, ops))
    decreases |ops|
  {
    if ops != [] {
      match ops[0] {
        case Update(s, m, r) => UpdateJobValid(t, jobId, s, m, r);
        case Create(d) => NewArtifactFacts(t, campaignId, d);
      }
      ApplyAllValid(Apply(t, jobId, campaignId, ops[0]), jobId, campaignId, ops[1..]);
      ApplyAllUnfold(t, jobId, campaignId, ops);
    }
  }

  /** The artifacts already stored stay as they are, one artifact is added per draft and
      the serial advances with them; campaigns are untouched. */
  lemma {:induction false} ApplyAllGrows(t: Tables, jobId: string, campaignId: string, ops: seq<Op>)
    ensures var t' := ApplyAll(t, jobId, campaignId, ops);
      && |t'.artifacts| == |t.artifacts| + |Drafts(ops)|
      && t'.artifacts[..|t.artifacts|] == t.artifacts
      && t'.serial == t.serial + |Drafts(ops)|
      && t'.campaigns == t.campaigns
    decreases |ops|
  {
    if ops != [] {
      var t1 := Apply(t, jobId, campaignId, ops[0]);
      ApplyAllGrows(t1, jobId, campaignId, ops[1..]);
      ApplyAllUnfold(t, jobId, campaignId, ops);
      WritesUnfold(ops);
      var t' := ApplyAll(t1, jobId, campaignId, ops[1..]);
      assert t'.artifacts[..|t1.artifacts|] == t1.artifacts;
      assert |t.artifacts| <= |t1.artifacts|;
      assert t1.artifacts[..|t.artifacts|] == t.artifacts;
      assert t'.artifacts[..|t.artifacts|] == t1.artifacts[..|t.artifacts|];
    }
  }

  /** From position `base` on, `rows` holds the artifacts made from `ds` in order, with ids
      issued from `serial` on. */
  predicate MadeFrom(rows: seq<Artifact>, base: nat, serial: nat, campaignId: string, ds: seq<Draft>) {
    base + |ds| <= |rows| && forall k :: 0 <= k < |ds| ==> Made(rows[base + k], IdOf(serial + k), campaignId, ds[k])
  }

  lemma MadeFromCons(rows: seq<Artifact>, base: nat, serial: nat, campaignId: string, d: Draft, ds: seq<Draft>)
    requires base < |rows| && Made(rows[base], IdOf(serial), campaignId, d)
    requires MadeFrom(rows, base + 1, serial + 1, campaignId, ds)
    ensures MadeFrom(rows, base, serial, campaignId, [d] + ds)
  {
    forall k | 0 <= k < |[d] + ds| ensures Made(rows[base + k], IdOf(serial + k), campaignId, ([d] + ds)[k]) {
      if k > 0 {
        assert ([d] + ds)[k] == ds[k - 1];
        assert base + k == (base + 1) + (k - 1) && serial + k == (serial + 1) + (k - 1);
      }
    }
  }

  /** The k-th draft becomes the k-th new artifact, with id `IdOf(serial + k)`. */
  lemma {:induction false} ApplyAllArtifacts(t: Tables, jobId: string, campaignId: string, ops: seq<Op>)
    ensures var t' := ApplyAll(t, jobId, campaignId, ops);
      MadeFrom(t'.artifacts, |t.artifacts|, t.serial, campaignId, Drafts(ops))
    decreases |ops|
  {
    ApplyAllGrows(t, jobId, campaignId, ops);
    if ops != [] {
      var t1 := Apply(t, jobId, campaignId, ops[0]);
      ApplyAllArtifacts(t1, jobId, campaignId, ops[1..]);
      ApplyAllGrows(t1, jobId, campaignId, ops[1..]);
      ApplyAllUnfold(t, jobId, campaignId, ops);
      WritesUnfold(ops);
      var rows := ApplyAll(t1, jobId, campaignId, ops[1..]).artifacts;
      assert rows == ApplyAll(t, jobId, campaignId, ops).artifacts;
      if ops[0].Create? {
        var d := ops[0].draft;
        assert Drafts(ops) == [d] + Drafts(ops[1..]);
        assert |t1.artifacts| == |t.artifacts| + 1 && t1.serial == t.serial + 1;
        assert rows[|t.artifacts|] == t1.artifacts[|t.artifacts|];
        MadeFromCons(rows, |t.artifacts|, t.serial, campaignId, d, Drafts(ops[1..]));
      } else {
        assert Drafts(ops) == Drafts(ops[1..]);
      }
    }
  }

  /** The last update of `ops`, if any. */
  function FinalUpdate(ops: seq<Op>): (r: Option<Op>)
    ensures r.Some? ==> r.value.Update?
  {
    if ops == [] then None
    else if ops[|ops| - 1].Update? then Some(ops[|ops| - 1])
    else FinalUpdate(ops[..|ops| - 1])
  }

  /** The last update is the last of the updates. */
  lemma {:induction false} FinalIsLastUpdate(ops: seq<Op>)
    ensures var u := Updates(ops);
      FinalUpdate(ops) == if u == [] then None else Some(u[|u| - 1])
    decreases |ops|
  {
    if ops != [] {
      var init, last := ops[..|ops| - 1], ops[|ops| - 1];
      assert ops == init + [last];
      FinalIsLastUpdate(init);
      UpdatesAppend(init, [last]);
      Cons(last, []);
      assert [last] + [] == [last];
    }
  }

  /** The job ends with the status, message and result id of the last update; its id,
      campaign, kind and creation time stay; no other job changes. */
  lemma {:induction false} ApplyAllJob(t: Tables, jobId: string, campaignId: string, ops: seq<Op>)
    requires GetJob(t, jobId).Some?
    ensures var t' := ApplyAll(t, jobId, campaignId, ops); var j := GetJob(t, jobId).value;
      && GetJob(t', jobId).Some?
      && var j' := GetJob(t', jobId).value;
      && j'.id == j.id && j'.campaignId == j.campaignId && j'.kind == j.kind && j'.createdAt == j.createdAt
      && (match FinalUpdate(ops)
          case None => j' == j
          case Some(u) => j'.status == u.status && j'.message == u.message && j'.resultArtifactId == u.result)
      && (forall other :: other != jobId ==> GetJob(t', other) == GetJob(t, other))
    decreases |ops|
  {
    if ops != [] {
      var init, last := ops[..|ops| - 1], ops[|ops| - 1];
      assert ops == init + [last];
      ApplyAllJob(t, jobId, campaignId, init);
      var t0 := ApplyAll(t, jobId, campaignId, init);
      ApplyAllSnoc(t, jobId, campaignId, init, last);
      match last
      case Update(s, m, r) =>
        UpdateJobFacts(t0, jobId, s, m, r);
      case Create(d) =>
        assert ApplyAll(t, jobId, campaignId, ops).jobs == t0.jobs;
    }
  }

  /** Ids are unique in a valid table, so an artifact is found by its own id. */
  lemma {:induction false} FoundById(rows: seq<Artifact>, clock: nat, serial: nat, i: nat)
    requires i < |rows|
    requires ValidArtifacts(rows, clock, serial)
    ensures ArtifactById(rows, rows[i].id) == Some(rows[i])
  {
    if i > 0 {
      assert rows[0].id != rows[i].id;
      assert rows[1..][i - 1] == rows[i];
      assert ValidArtifacts(rows[1..], clock, serial) by {
        forall p, q | 0 <= p < q < |rows[1..]| ensures rows[1..][p].id != rows[1..][q].id && rows[1..][p].createdAt < rows[1..][q].createdAt {
          assert rows[1..][p] == rows[p + 1] && rows[1..][q] == rows[q + 1];
        }
        forall p | 0 <= p < |rows[1..]| ensures Issued(rows[1..][p].id, serial) && rows[1..][p].createdAt <= clock {
          assert rows[1..][p] == rows[p + 1];
        }
      }
      FoundById(rows[1..], clock, serial, i - 1);
    }
  }

  /** After the writes, the k-th draft is found under its predicted id. */
  lemma CreatedIsFound(t: Tables, jobId: string, campaignId: string, ops: seq<Op>, k: nat)
    requires Valid(t)
    requires k < |Drafts(ops)|
    ensures var t' := ApplyAll(t, jobId, campaignId, ops);
      && GetArtifact(t', IdOf(t.serial + k)).Some?
      && Made(GetArtifact(t', IdOf(t.serial + k)).value, IdOf(t.serial + k), campaignId, Drafts(ops)[k])
  {
    ApplyAllArtifacts(t, jobId, campaignId, ops);
    ApplyAllValid(t, jobId, campaignId, ops);
    var t' := ApplyAll(t, jobId, campaignId, ops);
    assert ValidArtifacts(t'.artifacts, t'.clock, t'.serial);
    FoundById(t'.artifacts, t'.clock, t'.serial, |t.artifacts| + k);
    assert Made(t'.artifacts[|t.artifacts| + k], IdOf(t.serial + k), campaignId, Drafts(ops)[k]);
  }

  /** A run whose updates end with `last` leaves the job with `last`'s status, message and result. */
  lemma EndsAt(t: Tables, jobId: string, campaignId: string, ops: seq<Op>, last: Op)
    requires GetJob(t, jobId).Some?
    requires last.Update? && ProgressUntil(Updates(ops), last)
    ensures EndedIn(ApplyAll(t, jobId, campaignId, ops), jobId, last)
    ensures var j := GetJob(ApplyAll(t, jobId, campaignId, ops), jobId);
      j.Some? && j.value.campaignId == GetJob(t, jobId).value.campaignId && j.value.kind == GetJob(t, jobId).value.kind
  {
    FinalIsLastUpdate(ops);
    assert FinalUpdate(ops) == Some(last);
    ApplyAllJob(t, jobId, campaignId, ops);
  }

  /** A run that creates nothing leaves the artifacts, the campaigns and the serial as they were. */
  lemma NothingCreated(t: Tables, jobId: string, campaignId: string, ops: seq<Op>)
    requires Drafts(ops) == []
    ensures var t' := ApplyAll(t, jobId, campaignId, ops);
      t'.artifacts == t.artifacts && t'.campaigns == t.campaigns && t'.serial == t.serial
  {
    ApplyAllGrows(t, jobId, campaignId, ops);
  }

  /** After a run on valid tables, the draft at index `k` is stored under `IdOf(serial + k)`
      with the given kind, in the job's campaign. */
  lemma StoredAs(t: Tables, jobId: string, campaignId: string, ops: seq<Op>, k: nat, kind: string)
    requires Valid(t)
    requires k < |Drafts(ops)| && Drafts(ops)[k].kind == kind
    ensures var a := GetArtifact(ApplyAll(t, jobId, campaignId, ops), IdOf(t.serial + k));
      a.Some? && a.value.kind == kind && a.value.campaignId == campaignId
  {
    CreatedIsFound(t, jobId, campaignId, ops, k);
  }

  /** The job's row carries the status, message and result of the update `last`. */
  predicate EndedIn(t: Tables, jobId: string, last: Op)
    requires last.Update?
  {
    && GetJob(t, jobId).Some?
    && GetJob(t, jobId).value.status == last.status && GetJob(t, jobId).value.message == last.message
    && GetJob(t, jobId).value.resultArtifactId == last.result
  }

  /** The job ended `done`, naming an artifact of the given kind stored in its campaign. */
  predicate EndedDone(t: Tables, jobId: string, artifactId: string, kind: string, campaignId: string) {
    && GetJob(t, jobId).Some?
    && GetJob(t, jobId).value.status == "done" && GetJob(t, jobId).value.message == Some("Done")
    && GetJob(t, jobId).value.resultArtifactId == Some(artifactId)
    && GetArtifact(t, artifactId).Some?
    && GetArtifact(t, artifactId).value.kind == kind
    && GetArtifact(t, artifactId).value.campaignId == campaignId
  }

  /** A run whose last update names its k-th artifact ends `done` with that artifact stored. */
  lemma EndsDone(t: Tables, jobId: string, campaignId: string, ops: seq<Op>, k: nat, kind: string, id: string)
    requires Valid(t) && GetJob(t, jobId).Some?
    requires id == IdOf(t.serial + k)
    requires ProgressUntil(Updates(ops), Finished(id))
    requires k < |Drafts(ops)| && Drafts(ops)[k].kind == kind
    ensures EndedDone(ApplyAll(t, jobId, campaignId, ops), jobId, id, kind, campaignId)
  {
    EndsAt(t, jobId, campaignId, ops, Finished(id));
    StoredAs(t, jobId, campaignId, ops, k, kind);
  }

  /** The artifact `from` records, under `key`, the id of a stored artifact of the given kind. */
  predicate Links(t: Tables, from: string, key: string, kind: string) {
    && GetArtifact(t, from).Some?
    && var v := MetaGet(GetArtifact(t, from).value.meta, key);
    && v.Some? && v.value.MStr?
    && GetArtifact(t, v.value.s).Some? && GetArtifact(t, v.value.s).value.kind == kind
  }

  /** A draft that records the predicted id of another draft links to it once both are stored. */
  lemma LinkStored(t: Tables, jobId: string, campaignId: string, ops: seq<Op>, p: nat, key: string, q: nat, kind: string)
    requires Valid(t)
    requires p < |Drafts(ops)| && q < |Drafts(ops)|
    requires Drafts(ops)[p].meta.Some? && MetaGet(Drafts(ops)[p].meta.value, key) == Some(MStr(IdOf(t.serial + q)))
    requires Drafts(ops)[q].kind == kind
    ensures Links(ApplyAll(t, jobId, campaignId, ops), IdOf(t.serial + p), key, kind)
  {
    CreatedIsFound(t, jobId, campaignId, ops, p);
    CreatedIsFound(t, jobId, campaignId, ops, q);
  }

  /** The artifact under `id` is the one `create_artifact` made from `d`. */
  predicate StoredAt(t: Tables, id: string, campaignId: string, d: Draft) {
    GetArtifact(t, id).Some? && Made(GetArtifact(t, id).value, id, campaignId, d)
  }

  /** The `k`-th draft of a run is stored under `id`, the id it was predicted to get. */
  lemma StoredUnder(t: Tables, jobId: string, campaignId: string, ops: seq<Op>, k: nat, id: string)
    requires Valid(t) && k < |Drafts(ops)| && id == IdOf(t.serial + k)
    ensures StoredAt(ApplyAll(t, jobId, campaignId, ops), id, campaignId, Drafts(ops)[k])
  {
    CreatedIsFound(t, jobId, campaignId, ops, k);
  }

  /** Every draft is stored under its predicted id. */
  predicate AllStored(t: Tables, serial: nat, campaignId: string, ds: seq<Draft>) {
    forall k :: 0 <= k < |ds| ==> StoredAt(t, IdOf(serial + k), campaignId, ds[k])
  }

  lemma StoredAll(t: Tables, jobId: string, campaignId: string, ops: seq<Op>)
    requires Valid(t)
    ensures AllStored(ApplyAll(t, jobId, campaignId, ops), t.serial, campaignId, Drafts(ops))
  {
    forall k | 0 <= k < |Drafts(ops)|
      ensures StoredAt(ApplyAll(t, jobId, campaignId, ops), IdOf(t.serial + k), campaignId, Drafts(ops)[k])
    {
      CreatedIsFound(t, jobId, campaignId, ops, k);
    }
  }
}
