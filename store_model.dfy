/** The three tables of src/web/db.py (campaign, artifact, job) as values, with the
    transition each write performs and the answer each query gives. Rows are kept in
    insertion (rowid) order. `_utcnow_iso` becomes a logical clock that each stamping write
    advances by one, and `uuid.uuid4().hex` becomes the decimal numeral of a serial
    counter that each create advances by one, so that freshly issued ids never repeat. */
module StoreModel {
  import opened Wrappers
  import opened Text

  /** A JSON value stored in an artifact's `meta` object. */
  datatype MetaValue = MNull | MBool(b: bool) | MInt(i: int) | MStr(s: string)

  /** A JSON object as its members in the order `json.dumps` writes them. */
  type Meta = seq<(string, MetaValue)>

  /** `meta.get(key)`: the value of the last member with that key, as `json.loads` keeps it. */
  function MetaGet(m: Meta, key: string): (r: Option<MetaValue>)
    ensures r.Some? ==> (key, r.value) in m
    ensures r.None? <==> forall k :: 0 <= k < |m| ==> m[k].0 != key
  {
    if m == [] then None
    else if m[|m| - 1].0 == key then Some(m[|m| - 1].1)
    else MetaGet(m[..|m| - 1], key)
  }

  /** Looking up a key after appending a member: that member when the key matches, the
      earlier members otherwise. */
  lemma MetaGetSnoc(m: Meta, k: string, v: MetaValue, key: string)
    ensures MetaGet(m + [(k, v)], key) == if k == key then Some(v) else MetaGet(m, key)
  {
    assert (m + [(k, v)])[..|m|] == m;
  }

  datatype Campaign = Campaign(id: string, name: string, createdAt: nat)

  datatype Artifact = Artifact(
    id: string,
    campaignId: string,
    kind: string,
    title: string,
    textContent: Option<string>,
    filePath: Option<string>,
    meta: Meta,
    createdAt: nat)

  datatype Job = Job(
    id: string,
    campaignId: string,
    kind: string,
    status: string,
    message: Option<string>,
    resultArtifactId: Option<string>,
    createdAt: nat,
    updatedAt: nat)

  /** The keyword arguments of one `create_artifact` call, apart from the campaign id. */
  datatype Draft = Draft(kind: string, title: string, textContent: Option<string>, filePath: Option<string>, meta: Option<Meta>)

  /** The database: the three tables, the clock's last reading and the ids issued so far. */
  datatype Tables = Tables(campaigns: seq<Campaign>, artifacts: seq<Artifact>, jobs: seq<Job>, clock: nat, serial: nat)

  const Empty: Tables := Tables([], [], [], 0, 0)

  /** The id issued by the n-th create. */
  function IdOf(n: nat): (id: string)
    ensures AllDigits(id) && DigitsValue(id) == n
  {
    NatToDecimal(n)
  }

  /** `id` is one of the first `serial` ids issued. */
  predicate Issued(id: string, serial: nat) {
    AllDigits(id) && DigitsValue(id) < serial
  }

  /** The next id to be issued differs from every id issued before it. */
  lemma NextIdIsFresh(id: string, serial: nat)
    requires Issued(id, serial)
    ensures IdOf(serial) != id
  {
  }

  predicate ValidCampaigns(rows: seq<Campaign>, clock: nat, serial: nat) {
    && (forall i :: 0 <= i < |rows| ==> Issued(rows[i].id, serial) && rows[i].createdAt <= clock)
    && (forall i, j :: 0 <= i < j < |rows| ==> rows[i].id != rows[j].id && rows[i].createdAt < rows[j].createdAt)
  }

  predicate ValidArtifacts(rows: seq<Artifact>, clock: nat, serial: nat) {
    && (forall i :: 0 <= i < |rows| ==> Issued(rows[i].id, serial) && rows[i].createdAt <= clock)
    && (forall i, j :: 0 <= i < j < |rows| ==> rows[i].id != rows[j].id && rows[i].createdAt < rows[j].createdAt)
  }

  predicate ValidJobs(rows: seq<Job>, clock: nat, serial: nat) {
    && (forall i :: 0 <= i < |rows| ==>
          Issued(rows[i].id, serial) && rows[i].createdAt <= rows[i].updatedAt <= clock)
    && (forall i, j :: 0 <= i < j < |rows| ==> rows[i].id != rows[j].id && rows[i].createdAt < rows[j].createdAt)
    && (forall i, j :: 0 <= i < |rows| && 0 <= j < |rows| && i != j ==> rows[i].updatedAt != rows[j].updatedAt)
  }

  /** What the tables keep: ids are issued ones and unique per table, rows are in
      creation order, and no two stamps of the clock are equal. */
  predicate Valid(t: Tables) {
    && ValidCampaigns(t.campaigns, t.clock, t.serial)
    && ValidArtifacts(t.artifacts, t.clock, t.serial)
    && ValidJobs(t.jobs, t.clock, t.serial)
  }

  lemma EmptyIsValid()
    ensures Valid(Empty)
  {
  }

  /** `create_campaign(name)`: the new record and the tables with it inserted. */
  function NewCampaign(t: Tables, name: string): (r: (Tables, Campaign))
    ensures r.0.campaigns == t.campaigns + [r.1] && r.0.artifacts == t.artifacts && r.0.jobs == t.jobs
    ensures r.1.id == IdOf(t.serial) && r.1.name == name && r.1.createdAt == r.0.clock == t.clock + 1
    ensures r.0.serial == t.serial + 1
  {
    var c := Campaign(IdOf(t.serial), name, t.clock + 1);
    (t.(campaigns := t.campaigns + [c], clock := t.clock + 1, serial := t.serial + 1), c)
  }

  /** `create_artifact(campaign_id=..., **draft)`: a missing `meta` is stored as `{}`.
      The campaign id is not checked against the campaign table. */
  function NewArtifact(t: Tables, campaignId: string, d: Draft): (r: (Tables, Artifact))
    ensures r.0.artifacts == t.artifacts + [r.1] && r.0.campaigns == t.campaigns && r.0.jobs == t.jobs
    ensures r.1.id == IdOf(t.serial) && r.1.campaignId == campaignId && r.1.createdAt == r.0.clock == t.clock + 1
    ensures r.1.kind == d.kind && r.1.title == d.title && r.1.textContent == d.textContent && r.1.filePath == d.filePath
    ensures r.1.meta == (if d.meta.Some? then d.meta.value else [])
    ensures r.0.serial == t.serial + 1
  {
    var a := Artifact(IdOf(t.serial), campaignId, d.kind, d.title, d.textContent, d.filePath, d.meta.GetOr([]), t.clock + 1);
    (t.(artifacts := t.artifacts + [a], clock := t.clock + 1, serial := t.serial + 1), a)
  }

  /** `create_job(...)`: no result artifact yet, and one stamp for both times. */
  function NewJob(t: Tables, campaignId: string, kind: string, status: string, message: Option<string>): (r: (Tables, Job))
    ensures r.0.jobs == t.jobs + [r.1] && r.0.campaigns == t.campaigns && r.0.artifacts == t.artifacts
    ensures r.1.id == IdOf(t.serial) && r.1.campaignId == campaignId && r.1.kind == kind
    ensures r.1.status == status && r.1.message == message && r.1.resultArtifactId.None?
    ensures r.1.createdAt == r.1.updatedAt == r.0.clock == t.clock + 1
    ensures r.0.serial == t.serial + 1
  {
    var j := Job(IdOf(t.serial), campaignId, kind, status, message, None, t.clock + 1, t.clock + 1);
    (t.(jobs := t.jobs + [j], clock := t.clock + 1, serial := t.serial + 1), j)
  }

  /** One row after `UPDATE job SET status, message, result_artifact_id, updated_at WHERE id`. */
  function UpdatedJob(j: Job, id: string, status: string, message: Option<string>, result: Option<string>, now: nat): (r: Job)
    ensures j.id != id ==> r == j
    ensures j.id == id ==> r == j.(status := status, message := message, resultArtifactId := result, updatedAt := now)
  {
    if j.id == id then j.(status := status, message := message, resultArtifactId := result, updatedAt := now) else j
  }

  function UpdatedJobs(rows: seq<Job>, id: string, status: string, message: Option<string>, result: Option<string>, now: nat): (r: seq<Job>)
    ensures |r| == |rows|
    ensures forall i :: 0 <= i < |rows| ==> r[i] == UpdatedJob(rows[i], id, status, message, result, now)
  {
    seq(|rows|, i requires 0 <= i < |rows| => UpdatedJob(rows[i], id, status, message, result, now))
  }

  /** `update_job(...)`: every argument overwrites its column, so leaving out
      `result_artifact_id` clears it. The clock advances even when no row has that id. */
  function UpdateJob(t: Tables, id: string, status: string, message: Option<string>, result: Option<string>): (r: Tables)
    ensures r.campaigns == t.campaigns && r.artifacts == t.artifacts && r.serial == t.serial
    ensures r.clock == t.clock + 1
  {
    t.(jobs := UpdatedJobs(t.jobs, id, status, message, result, t.clock + 1), clock := t.clock + 1)
  }

  /** The row with the given id, if any (`SELECT ... WHERE id = ?`). */
  function CampaignById(rows: seq<Campaign>, id: string): (r: Option<Campaign>)
    ensures r.Some? ==> r.value in rows && r.value.id == id
    ensures r.None? <==> forall i :: 0 <= i < |rows| ==> rows[i].id != id
  {
    if rows == [] then None
    else if rows[0].id == id then Some(rows[0])
    else CampaignById(rows[1..], id)
  }

  function ArtifactById(rows: seq<Artifact>, id: string): (r: Option<Artifact>)
    ensures r.Some? ==> r.value in rows && r.value.id == id
    ensures r.None? <==> forall i :: 0 <= i < |rows| ==> rows[i].id != id
  {
    if rows == [] then None
    else if rows[0].id == id then Some(rows[0])
    else ArtifactById(rows[1..], id)
  }

  function JobById(rows: seq<Job>, id: string): (r: Option<Job>)
    ensures r.Some? ==> r.value in rows && r.value.id == id
    ensures r.None? <==> forall i :: 0 <= i < |rows| ==> rows[i].id != id
  {
    if rows == [] then None
    else if rows[0].id == id then Some(rows[0])
    else JobById(rows[1..], id)
  }

  /** `get_campaign`, `get_artifact`, `get_job`. */
  function GetCampaign(t: Tables, id: string): Option<Campaign> {
    CampaignById(t.campaigns, id)
  }

  function GetArtifact(t: Tables, id: string): Option<Artifact> {
    ArtifactById(t.artifacts, id)
  }

  function GetJob(t: Tables, id: string): Option<Job> {
    JobById(t.jobs, id)
  }

  /** `list_campaigns()`: all campaigns, newest first. */
  function ListCampaigns(rows: seq<Campaign>): (r: seq<Campaign>)
    ensures |r| == |rows|
    ensures forall i :: 0 <= i < |r| ==> r[i] == rows[|rows| - 1 - i]
  {
    if rows == [] then [] else [rows[|rows| - 1]] + ListCampaigns(rows[..|rows| - 1])
  }

  /** `list_artifacts(campaign_id)`: the campaign's artifacts, newest first. */
  function ListArtifacts(rows: seq<Artifact>, campaignId: string): seq<Artifact>
  {
    if rows == [] then []
    else
      var last := rows[|rows| - 1];
      (if last.campaignId == campaignId then [last] else []) + ListArtifacts(rows[..|rows| - 1], campaignId)
  }

  /** The first i rows give the i-th row's pick, then the picks of the rows before it. */
  lemma ListArtifactsUnfold(rows: seq<Artifact>, i: nat, campaignId: string)
    requires 0 < i <= |rows|
    ensures ListArtifacts(rows[..i], campaignId)
      == (if rows[i - 1].campaignId == campaignId then [rows[i - 1]] else []) + ListArtifacts(rows[..i - 1], campaignId)
  {
    assert rows[..i][..i - 1] == rows[..i - 1];
  }

  /** `list_artifacts` gives exactly the campaign's artifacts. */
  lemma {:induction false} ListArtifactsMembers(rows: seq<Artifact>, campaignId: string)
    ensures forall a :: a in ListArtifacts(rows, campaignId) <==> a in rows && a.campaignId == campaignId
  {
    if rows != [] {
      var last := rows[|rows| - 1];
      ListArtifactsMembers(rows[..|rows| - 1], campaignId);
      assert rows == rows[..|rows| - 1] + [last];
    }
  }

  /** The campaign's jobs in table order. */
  function JobsOf(rows: seq<Job>, campaignId: string): (r: seq<Job>)
    ensures forall j :: j in r <==> j in rows && j.campaignId == campaignId
  {
    if rows == [] then []
    else
      var last := rows[|rows| - 1];
      assert forall j :: j in rows[..|rows| - 1] ==> j in rows;
      assert forall j :: j in rows ==> j == last || j in rows[..|rows| - 1] by {
        assert rows == rows[..|rows| - 1] + [last];
      }
      JobsOf(rows[..|rows| - 1], campaignId) + (if last.campaignId == campaignId then [last] else [])
  }

  /** Most recently updated first. */
  predicate ByRecency(s: seq<Job>) {
    forall i, j :: 0 <= i < j < |s| ==> s[i].updatedAt >= s[j].updatedAt
  }

  /** Insert a job into a list ordered by recency, before the first job updated earlier. */
  function Insert(s: seq<Job>, j: Job): (r: seq<Job>)
    ensures multiset(r) == multiset(s) + multiset{j}
    ensures forall k :: 0 <= k < |r| ==> r[k] == j || r[k] in s
  {
    if s == [] then [j]
    else if j.updatedAt >= s[0].updatedAt then [j] + s
    else
      assert s == [s[0]] + s[1..];
      var rest := Insert(s[1..], j);
      assert forall k :: 0 <= k < |rest| ==> rest[k] == j || rest[k] in s;
      [s[0]] + rest
  }

  /** Every job of `s` is updated no later than `bound`. */
  predicate UpdatedBy(s: seq<Job>, bound: nat) {
    forall k :: 0 <= k < |s| ==> s[k].updatedAt <= bound
  }

  lemma {:induction false} InsertByRecency(s: seq<Job>, j: Job)
    requires ByRecency(s)
    ensures ByRecency(Insert(s, j))
  {
    if s != [] {
      var r := Insert(s, j);
      assert UpdatedBy(s[1..], s[0].updatedAt);
      if j.updatedAt < s[0].updatedAt {
        var rest := Insert(s[1..], j);
        InsertByRecency(s[1..], j);
        assert UpdatedBy(rest, s[0].updatedAt) by {
          forall k | 0 <= k < |rest| ensures rest[k].updatedAt <= s[0].updatedAt {
            if rest[k] != j {
              var m :| 0 <= m < |s[1..]| && s[1..][m] == rest[k];
            }
          }
        }
        assert r == [s[0]] + rest;
      } else {
        assert r == [j] + s;
        assert UpdatedBy(s, j.updatedAt);
      }
    }
  }

  /** The campaign's jobs sorted by recency (the `ORDER BY updated_at DESC`). */
  function RecencyOrder(rows: seq<Job>, campaignId: string): (r: seq<Job>)
    ensures multiset(r) == multiset(JobsOf(rows, campaignId))
    ensures ByRecency(r)
  {
    if rows == [] then []
    else
      var last := rows[|rows| - 1];
      var rest := RecencyOrder(rows[..|rows| - 1], campaignId);
      if last.campaignId == campaignId then
        InsertByRecency(rest, last);
        Insert(rest, last)
      else rest
  }

  /** SQLite's `LIMIT n`: a negative n puts no bound on the rows. */
  function Limit(s: seq<Job>, limit: int): (r: seq<Job>)
    ensures |r| == (if 0 <= limit < |s| then limit else |s|)
    ensures r == s[..|r|]
  {
    if 0 <= limit < |s| then s[..limit] else s
  }

  /** `list_jobs(campaign_id, limit)` (the default limit is 10). */
  function ListJobs(rows: seq<Job>, campaignId: string, limit: int): seq<Job> {
    Limit(RecencyOrder(rows, campaignId), limit)
  }

  ////////////////////////////////////////////////////////////////////////////
  // What the writes keep and what the queries then answer.

    /** A later clock and more ids issued keep every table valid. */
  lemma ValidLater(t: Tables, clock: nat, serial: nat)
    requires Valid(t) && t.clock <= clock && t.serial <= serial
    ensures ValidCampaigns(t.campaigns, clock, serial)
    ensures ValidArtifacts(t.artifacts, clock, serial)
  {
  }

  lemma JobsLater(rows: seq<Job>, clock: nat, serial: nat, clock': nat, serial': nat)
    requires ValidJobs(rows, clock, serial) && clock <= clock' && serial <= serial'
    ensures ValidJobs(rows, clock', serial')
  {
  }

  /** A campaign row with the next id and the next stamp keeps the table valid. */
  lemma CampaignsSnoc(rows: seq<Campaign>, c: Campaign, clock: nat, serial: nat)
    requires ValidCampaigns(rows, clock, serial) && c.id == IdOf(serial) && c.createdAt == clock + 1
    ensures ValidCampaigns(rows + [c], clock + 1, serial + 1)
  {
    var u := rows + [c];
    forall i, j | 0 <= i < j < |u| ensures u[i].id != u[j].id && u[i].createdAt < u[j].createdAt {
      if j == |rows| {
        NextIdIsFresh(rows[i].id, serial);
      }
    }
  }

  /** An artifact row with the next id and the next stamp keeps the table valid. */
  lemma ArtifactsSnoc(rows: seq<Artifact>, a: Artifact, clock: nat, serial: nat)
    requires ValidArtifacts(rows, clock, serial) && a.id == IdOf(serial) && a.createdAt == clock + 1
    ensures ValidArtifacts(rows + [a], clock + 1, serial + 1)
  {
    var u := rows + [a];
    forall i, j | 0 <= i < j < |u| ensures u[i].id != u[j].id && u[i].createdAt < u[j].createdAt {
      if j == |rows| {
        NextIdIsFresh(rows[i].id, serial);
      }
    }
  }

  /** A job row with the next id and the next stamp for both times keeps the table valid. */
  lemma JobsSnoc(rows: seq<Job>, job: Job, clock: nat, serial: nat)
    requires ValidJobs(rows, clock, serial) && job.id == IdOf(serial) && job.createdAt == job.updatedAt == clock + 1
    ensures ValidJobs(rows + [job], clock + 1, serial + 1)
  {
    var u := rows + [job];
    forall i, j | 0 <= i < j < |u| ensures u[i].id != u[j].id && u[i].createdAt < u[j].createdAt {
      if j == |rows| {
        NextIdIsFresh(rows[i].id, serial);
      }
    }
    forall i, j | 0 <= i < |u| && 0 <= j < |u| && i != j ensures u[i].updatedAt != u[j].updatedAt {
      if i < |rows| && j < |rows| {
        assert u[i] == rows[i] && u[j] == rows[j];
      }
    }
  }

/** A new campaign gets a fresh id, is found by that id, and is listed first. */
  lemma NewCampaignFacts(t: Tables, name: string)
    requires Valid(t)
    ensures var (t', c) := NewCampaign(t, name);
      && Valid(t')
      && GetCampaign(t, c.id).None?
      && GetCampaign(t', c.id) == Some(c)
      && ListCampaigns(t'.campaigns)[0] == c
  {
    var (t', c) := NewCampaign(t, name);
    ValidLater(t, t.clock + 1, t.serial + 1);
    JobsLater(t.jobs, t.clock, t.serial, t.clock + 1, t.serial + 1);
    CampaignsSnoc(t.campaigns, c, t.clock, t.serial);
    forall i | 0 <= i < |t.campaigns| ensures t.campaigns[i].id != c.id {
      NextIdIsFresh(t.campaigns[i].id, t.serial);
    }
    FoundLastCampaign(t.campaigns, c);
  }

  lemma {:induction false} FoundLastCampaign(rows: seq<Campaign>, c: Campaign)
    requires forall i :: 0 <= i < |rows| ==> rows[i].id != c.id
    ensures CampaignById(rows + [c], c.id) == Some(c)
  {
    if rows != [] {
      assert (rows + [c])[1..] == rows[1..] + [c];
      FoundLastCampaign(rows[1..], c);
    }
  }

  /** A new artifact gets a fresh id and is found by it; the artifacts already there stay. */
  lemma NewArtifactFacts(t: Tables, campaignId: string, d: Draft)
    requires Valid(t)
    ensures var (t', a) := NewArtifact(t, campaignId, d);
      && Valid(t')
      && GetArtifact(t, a.id).None?
      && GetArtifact(t', a.id) == Some(a)
      && (forall id :: GetArtifact(t, id).Some? ==> GetArtifact(t', id) == GetArtifact(t, id))
  {
    var (t', a) := NewArtifact(t, campaignId, d);
    ValidLater(t, t.clock + 1, t.serial + 1);
    JobsLater(t.jobs, t.clock, t.serial, t.clock + 1, t.serial + 1);
    ArtifactsSnoc(t.artifacts, a, t.clock, t.serial);
    forall i | 0 <= i < |t.artifacts| ensures t.artifacts[i].id != a.id {
      NextIdIsFresh(t.artifacts[i].id, t.serial);
    }
    FoundLastArtifact(t.artifacts, a);
    forall id | GetArtifact(t, id).Some? ensures GetArtifact(t', id) == GetArtifact(t, id) {
      ArtifactKept(t.artifacts, [a], id);
    }
  }

  lemma {:induction false} FoundLastArtifact(rows: seq<Artifact>, a: Artifact)
    requires forall i :: 0 <= i < |rows| ==> rows[i].id != a.id
    ensures ArtifactById(rows + [a], a.id) == Some(a)
  {
    if rows != [] {
      assert (rows + [a])[1..] == rows[1..] + [a];
      FoundLastArtifact(rows[1..], a);
    }
  }

  /** Appending rows never changes the answer for an id already present. */
  lemma {:induction false} ArtifactKept(rows: seq<Artifact>, more: seq<Artifact>, id: string)
    requires ArtifactById(rows, id).Some?
    ensures ArtifactById(rows + more, id) == ArtifactById(rows, id)
  {
    if rows[0].id != id {
      assert (rows + more)[1..] == rows[1..] + more;
      ArtifactKept(rows[1..], more, id);
    }
  }

  /** A new job gets a fresh id, has no result yet, and one stamp for both times. */
  lemma NewJobFacts(t: Tables, campaignId: string, kind: string, status: string, message: Option<string>)
    requires Valid(t)
    ensures var (t', j) := NewJob(t, campaignId, kind, status, message);
      && Valid(t')
      && GetJob(t, j.id).None?
      && GetJob(t', j.id) == Some(j)
      && j.resultArtifactId.None? && j.createdAt == j.updatedAt
  {
    var (t', j) := NewJob(t, campaignId, kind, status, message);
    ValidLater(t, t.clock + 1, t.serial + 1);
    JobsSnoc(t.jobs, j, t.clock, t.serial);
    forall i | 0 <= i < |t.jobs| ensures t.jobs[i].id != j.id {
      NextIdIsFresh(t.jobs[i].id, t.serial);
    }
    FoundLastJob(t.jobs, j);
  }

  lemma {:induction false} FoundLastJob(rows: seq<Job>, j: Job)
    requires forall i :: 0 <= i < |rows| ==> rows[i].id != j.id
    ensures JobById(rows + [j], j.id) == Some(j)
  {
    if rows != [] {
      assert (rows + [j])[1..] == rows[1..] + [j];
      FoundLastJob(rows[1..], j);
    }
  }

  /** `update_job` keeps the tables valid: the new stamp is later than every other. */
  lemma UpdateJobValid(t: Tables, id: string, status: string, message: Option<string>, result: Option<string>)
    requires Valid(t)
    ensures Valid(UpdateJob(t, id, status, message, result))
  {
    var t' := UpdateJob(t, id, status, message, result);
    ValidLater(t, t'.clock, t'.serial);
    JobsUpdated(t.jobs, id, status, message, result, t.clock, t.serial);
    assert t' == Tables(t.campaigns, t.artifacts, UpdatedJobs(t.jobs, id, status, message, result, t.clock + 1), t.clock + 1, t.serial);
  }

  /** Stamping the row with the given id with a later time keeps the job table valid. */
  lemma JobsUpdated(rows: seq<Job>, id: string, status: string, message: Option<string>, result: Option<string>, clock: nat, serial: nat)
    requires ValidJobs(rows, clock, serial)
    ensures ValidJobs(UpdatedJobs(rows, id, status, message, result, clock + 1), clock + 1, serial)
  {
    var u := UpdatedJobs(rows, id, status, message, result, clock + 1);
    forall i | 0 <= i < |u| ensures Issued(u[i].id, serial) && u[i].createdAt <= u[i].updatedAt <= clock + 1 {
      assert u[i].id == rows[i].id && u[i].createdAt == rows[i].createdAt;
    }
    forall i, j | 0 <= i < j < |u| ensures u[i].id != u[j].id && u[i].createdAt < u[j].createdAt {
      assert u[i].id == rows[i].id && u[j].id == rows[j].id;
    }
    forall i, j | 0 <= i < |u| && 0 <= j < |u| && i != j ensures u[i].updatedAt != u[j].updatedAt {
      assert rows[i].id != rows[j].id by {
        if i < j {} else {}
      }
    }
  }

  /** `update_job` on a known id overwrites status, message, result id and update time
      and keeps id, campaign, kind and creation time; on an unknown id it changes no row.
      No other job changes either way. */
  lemma UpdateJobFacts(t: Tables, id: string, status: string, message: Option<string>, result: Option<string>)
    ensures var t' := UpdateJob(t, id, status, message, result);
      && (GetJob(t, id).None? ==> t'.jobs == t.jobs)
      && (GetJob(t, id).Some? ==> GetJob(t', id) == Some(GetJob(t, id).value.(
            status := status, message := message, resultArtifactId := result, updatedAt := t'.clock)))
      && (forall other :: other != id ==> GetJob(t', other) == GetJob(t, other))
  {
    var t' := UpdateJob(t, id, status, message, result);
    var now := t.clock + 1;
    if GetJob(t, id).None? {
      assert t'.jobs == t.jobs;
    } else {
      UpdatedLookup(t.jobs, id, status, message, result, now, id);
    }
    forall other | other != id ensures GetJob(t', other) == GetJob(t, other) {
      UpdatedLookup(t.jobs, id, status, message, result, now, other);
    }
  }

  /** Looking an id up after the update finds the updated version of what it found before. */
  lemma {:induction false} UpdatedLookup(rows: seq<Job>, id: string, status: string, message: Option<string>, result: Option<string>, now: nat, key: string)
    ensures var r := JobById(UpdatedJobs(rows, id, status, message, result, now), key);
      match JobById(rows, key)
      case None => r.None?
      case Some(j) => r == Some(UpdatedJob(j, id, status, message, result, now))
  {
    if rows != [] {
      var u := UpdatedJobs(rows, id, status, message, result, now);
      assert u[1..] == UpdatedJobs(rows[1..], id, status, message, result, now);
      assert u[0].id == rows[0].id;
      UpdatedLookup(rows[1..], id, status, message, result, now, key);
    }
  }

  /** `list_campaigns` is newest first. */
  lemma ListCampaignsNewestFirst(t: Tables)
    requires Valid(t)
    ensures var r := ListCampaigns(t.campaigns);
      && (forall i, j :: 0 <= i < j < |r| ==> r[i].createdAt > r[j].createdAt)
      && (forall c :: c in r <==> c in t.campaigns)
  {
    var r := ListCampaigns(t.campaigns);
    var n := |t.campaigns|;
    forall c | c in t.campaigns ensures c in r {
      var i :| 0 <= i < n && t.campaigns[i] == c;
      assert r[n - 1 - i] == c;
    }
  }

  /** Artifacts strictly newest first. */
  predicate NewestFirst(s: seq<Artifact>) {
    forall i, j :: 0 <= i < j < |s| ==> s[i].createdAt > s[j].createdAt
  }

  /** `list_artifacts` is newest first. */
  lemma {:induction false} ListArtifactsNewestFirst(rows: seq<Artifact>, campaignId: string)
    requires forall i, j :: 0 <= i < j < |rows| ==> rows[i].createdAt < rows[j].createdAt
    ensures NewestFirst(ListArtifacts(rows, campaignId))
  {
    if rows != [] {
      var init := rows[..|rows| - 1];
      var last := rows[|rows| - 1];
      ListArtifactsNewestFirst(init, campaignId);
      var rest := ListArtifacts(init, campaignId);
      ListArtifactsMembers(init, campaignId);
      assert NewestFirst(rest);
      forall a | a in rest ensures a.createdAt < last.createdAt {
        var k :| 0 <= k < |init| && init[k] == a;
      }
      var r := ListArtifacts(rows, campaignId);
      if last.campaignId == campaignId {
        assert r == [last] + rest;
        forall i, j | 0 <= i < j < |r| ensures r[i].createdAt > r[j].createdAt {
          assert r[j] == rest[j - 1];
          assert rest[j - 1] in rest;
          if i > 0 {
            assert r[i] == rest[i - 1];
          }
        }
      } else {
        assert r == rest;
      }
    }
  }

  /** The sorted list holds exactly the campaign's jobs. */
  lemma RecencyOrderMembers(rows: seq<Job>, campaignId: string)
    ensures var all := RecencyOrder(rows, campaignId);
      && |all| == |JobsOf(rows, campaignId)|
      && forall j :: j in all <==> j in rows && j.campaignId == campaignId
  {
    var all := RecencyOrder(rows, campaignId);
    var js := JobsOf(rows, campaignId);
    assert |multiset(all)| == |multiset(js)|;
    forall j ensures j in all <==> j in js {
      assert j in all <==> j in multiset(all);
      assert j in js <==> j in multiset(js);
    }
  }

  /** `list_jobs` gives at most `limit` of the campaign's jobs, most recently updated
      first, and leaves out none that is more recent than one it gives. */
  lemma ListJobsIsTop(rows: seq<Job>, campaignId: string, limit: int)
    ensures var r := ListJobs(rows, campaignId, limit); var n := |JobsOf(rows, campaignId)|;
      && ByRecency(r)
      && (forall j :: j in r ==> j in rows && j.campaignId == campaignId)
      && |r| == (if 0 <= limit < n then limit else n)
      && (forall j, k :: j in rows && j.campaignId == campaignId && j !in r && k in r ==> j.updatedAt <= k.updatedAt)
  {
    var all := RecencyOrder(rows, campaignId);
    RecencyOrderMembers(rows, campaignId);
    PrefixIsTop(all, ListJobs(rows, campaignId, limit));
  }

  /** A prefix of a list ordered by recency is ordered, and holds the most recent of it. */
  lemma PrefixIsTop(all: seq<Job>, r: seq<Job>)
    requires ByRecency(all) && |r| <= |all| && r == all[..|r|]
    ensures ByRecency(r)
    ensures forall j :: j in r ==> j in all
    ensures forall j, k :: j in all && j !in r && k in r ==> j.updatedAt <= k.updatedAt
  {
    forall j | j in r ensures j in all {
      var p :| 0 <= p < |r| && r[p] == j;
      assert all[p] == j;
    }
    forall j, k | j in all && j !in r && k in r ensures j.updatedAt <= k.updatedAt {
      var m :| 0 <= m < |all| && all[m] == j;
      var p :| 0 <= p < |r| && r[p] == k;
      assert all[p] == k;
    }
  }
}
