/** The request handlers of src/web/app.py around the jobs: the three `generate/...`
    endpoints that queue a job, `get_artifact`, and `upload_files`. Rendering a template
    is left abstract: a response names the page it renders. */
module Handlers {
  import opened Wrappers
  import opened Text
  import opened StoreModel
  import opened Paths
  import Db

  /** What a handler answers. */
  datatype Response =
    | NotFound(detail: string)        // `HTTPException(status_code=404, detail=...)`
    | JobList(campaignId: string)     // `_render_job_list(request, campaign_id)`
    | FileBody(path: string)          // `FileResponse(path)`
    | Html(body: string)              // `HTMLResponse(...)`
    | ServerError(error: string)      // an exception the handler does not catch

  /** The background task a handler schedules, with the arguments it passes. */
  datatype Task =
    | PackTask(jobId: string, campaignId: string, storyPrompt: string)
    | MapTask(jobId: string, campaignId: string, width: int, height: int)
    | PortraitsTask(jobId: string, campaignId: string, columns: int, rows: int)
  {
    function JobId(): string {
      match this
      case PackTask(j, _, _) => j
      case MapTask(j, _, _, _) => j
      case PortraitsTask(j, _, _, _) => j
    }
  }

  const CampaignMissing: string := "Campaign not found"

  ////////////////////////////////////////////////////////////////////////////
  // Queueing a job.

  /** The three handlers share one shape: 404 when the campaign is unknown, otherwise a new
      `queued` job of the given kind; the id of that job is what the task receives. */
  function Enqueue(t: Tables, campaignId: string, kind: string): (r: (Tables, Response, Option<Job>))
  {
    if GetCampaign(t, campaignId).None? then (t, NotFound(CampaignMissing), None)
    else
      var (t', j) := NewJob(t, campaignId, kind, "queued", Some("Queued"));
      (t', JobList(campaignId), Some(j))
  }

  /** An unknown campaign gets a 404 and the store stays as it was; a known one gets a new
      job, found by its id, of the given kind, `queued` with message `Queued` and no
      result, and no artifact or campaign changes. */
  lemma EnqueueFacts(t: Tables, campaignId: string, kind: string)
    requires Valid(t)
    ensures var (t', r, j) := Enqueue(t, campaignId, kind);
      && Valid(t')
      && (j.None? <==> GetCampaign(t, campaignId).None?)
      && (j.None? ==> t' == t && r == NotFound(CampaignMissing))
      && (j.Some? ==>
            && r == JobList(campaignId)
            && GetJob(t, j.value.id).None?
            && GetJob(t', j.value.id) == Some(j.value)
            && j.value.campaignId == campaignId && j.value.kind == kind
            && j.value.status == "queued" && j.value.message == Some("Queued") && j.value.resultArtifactId.None?
            && t'.artifacts == t.artifacts && t'.campaigns == t.campaigns)
  {
    if GetCampaign(t, campaignId).Some? {
      NewJobFacts(t, campaignId, kind, "queued", Some("Queued"));
    }
  }

  /** The lookup and the create of the three handlers, on the store object. */
  method QueueJob(store: Db.Store, campaignId: string, kind: string) returns (r: Response, job: Option<Job>)
    requires store.Valid()
    modifies store
    ensures store.Valid()
    ensures (store.State(), r, job) == Enqueue(old(store.State()), campaignId, kind)
  {
    var campaign := store.GetCampaign(campaignId);
    if campaign.None? {
      return NotFound(CampaignMissing), None;
    }
    var j := store.CreateJob(campaignId, kind, "queued", Some("Queued"));
    return JobList(campaignId), Some(j);
  }

  /** `generate_campaign_pack`. */
  method GenerateCampaignPack(store: Db.Store, campaignId: string, storyPrompt: string) returns (r: Response, task: Option<Task>)
    requires store.Valid()
    modifies store
    ensures store.Valid()
    ensures var (t', r', j) := Enqueue(old(store.State()), campaignId, "campaign_pack");
      && store.State() == t' && r == r'
      && task == if j.Some? then Some(PackTask(j.value.id, campaignId, storyPrompt)) else None
  {
    var job;
    r, job := QueueJob(store, campaignId, "campaign_pack");
    task := if job.Some? then Some(PackTask(job.value.id, campaignId, storyPrompt)) else None;
  }

  /** The form's default for an absent field. */
  function FormInt(field: Option<int>, default: int): int {
    if field.Some? then field.value else default
  }

  /** `generate_map`: `width` and `height` default to 20. */
  method GenerateMap(store: Db.Store, campaignId: string, width: Option<int>, height: Option<int>) returns (r: Response, task: Option<Task>)
    requires store.Valid()
    modifies store
    ensures store.Valid()
    ensures var (t', r', j) := Enqueue(old(store.State()), campaignId, "map");
      && store.State() == t' && r == r'
      && task == if j.Some? then Some(MapTask(j.value.id, campaignId, FormInt(width, 20), FormInt(height, 20))) else None
  {
    var job;
    r, job := QueueJob(store, campaignId, "map");
    task := if job.Some? then Some(MapTask(job.value.id, campaignId, FormInt(width, 20), FormInt(height, 20))) else None;
  }

  /** `generate_portraits_pdf`: `columns` defaults to 2 and `rows` to 3. */
  method GeneratePortraitsPdf(store: Db.Store, campaignId: string, columns: Option<int>, rows: Option<int>) returns (r: Response, task: Option<Task>)
    requires store.Valid()
    modifies store
    ensures store.Valid()
    ensures var (t', r', j) := Enqueue(old(store.State()), campaignId, "portraits_pdf");
      && store.State() == t' && r == r'
      && task == if j.Some? then Some(PortraitsTask(j.value.id, campaignId, FormInt(columns, 2), FormInt(rows, 3))) else None
  {
    var job;
    r, job := QueueJob(store, campaignId, "portraits_pdf");
    task := if job.Some? then Some(PortraitsTask(job.value.id, campaignId, FormInt(columns, 2), FormInt(rows, 3))) else None;
  }

  /** A queued task names a job that exists, is `queued` and belongs to the campaign. */
  lemma TaskNamesQueuedJob(t: Tables, campaignId: string, kind: string)
    requires Valid(t) && GetCampaign(t, campaignId).Some?
    ensures var (t', _, j) := Enqueue(t, campaignId, kind);
      && j.Some?
      && GetJob(t', j.value.id).Some?
      && GetJob(t', j.value.id).value.status == "queued"
      && GetJob(t', j.value.id).value.campaignId == campaignId
  {
    EnqueueFacts(t, campaignId, kind);
  }

  ////////////////////////////////////////////////////////////////////////////
  // Serving an artifact.

  /** The text of a text artifact as the handler writes it into the page: each `<` becomes
      `&lt;`, and nothing else is escaped. */
  function Escape(text: string): string {
    Replace(text, '<', "&lt;")
  }

  /** What a browser shows for `&lt;`: reading the page back turns each `&lt;` into `<`. */
  function Unescape(html: string): string
    decreases |html|
  {
    if html == [] then []
    else if |html| >= 4 && html[..4] == "&lt;" then ['<'] + Unescape(html[4..])
    else [html[0]] + Unescape(html[1..])
  }

  /** No `<` is left in the escaped text, so the text cannot open a tag. */
  lemma EscapeHasNoTag(text: string)
    ensures '<' !in Escape(text)
  {
    ReplaceChars(text, '<', "&lt;", '<');
  }

  /** Without `&` in it, a text reads back as written. */
  lemma {:induction false} EscapeRoundTrip(text: string)
    requires '&' !in text
    ensures Unescape(Escape(text)) == text
    decreases |text|
  {
    if text != [] {
      var rest := Escape(text[1..]);
      assert '&' !in text[1..];
      EscapeRoundTrip(text[1..]);
      if text[0] == '<' {
        var e := "&lt;" + rest;
        assert e[..4] == "&lt;" && e[4..] == rest;
      } else {
        var e := [text[0]] + rest;
        assert e[0] == text[0] && e[1..] == rest;
      }
    }
  }

  /** Because `&` is not escaped, a text that already holds `&lt;` reads back as `<`: the
      two artifacts texts `<` and `&lt;` are served as the same page. */
  lemma AmpersandNotEscaped()
    ensures Escape("<") == Escape("&lt;") == "&lt;"
    ensures "<" != "&lt;"
  {
    assert "&lt;"[1..] == "lt;" && "lt;"[1..] == "t;" && "t;"[1..] == ";";
  }

  /** `artifact.file_path` is truthy. */
  predicate HasFile(a: Artifact) {
    a.filePath.Some? && a.filePath.value != []
  }

  /** `get_artifact`: `onDisk` is `Path(p).exists()`. */
  function ArtifactResponse(t: Tables, artifactId: string, onDisk: string -> bool): (r: Response)
  {
    match GetArtifact(t, artifactId)
    case None => NotFound("Artifact not found")
    case Some(a) =>
      if HasFile(a) then
        if onDisk(a.filePath.value) then FileBody(a.filePath.value) else NotFound("File missing on disk")
      else Html("<pre>" + Escape(a.textContent.GetOr("")) + "</pre>")
  }

  /** A file artifact is served from disk, or 404 when the file is gone; any other artifact
      is served as its text inside one `<pre>` element whose content opens no tag and reads
      back as the text when the text has no `&`; an unknown id is a 404. */
  lemma ArtifactResponseFacts(t: Tables, artifactId: string, onDisk: string -> bool)
    ensures var r := ArtifactResponse(t, artifactId, onDisk);
      var a := GetArtifact(t, artifactId);
      && (a.None? <==> r == NotFound("Artifact not found"))
      && (r.FileBody? <==> a.Some? && HasFile(a.value) && onDisk(a.value.filePath.value))
      && (r.FileBody? ==> r.path == a.value.filePath.value)
      && (r.Html? <==> a.Some? && !HasFile(a.value))
      && (r.Html? ==> exists body :: (r.body == "<pre>" + body + "</pre>" && '<' !in body
            && ('&' !in a.value.textContent.GetOr("") ==> Unescape(body) == a.value.textContent.GetOr(""))))
  {
    var a := GetArtifact(t, artifactId);
    if a.Some? && !HasFile(a.value) {
      var text := a.value.textContent.GetOr("");
      EscapeHasNoTag(text);
      if '&' !in text {
        EscapeRoundTrip(text);
      }
      assert ArtifactResponse(t, artifactId, onDisk).body == "<pre>" + Escape(text) + "</pre>";
    }
  }

  /** `get_artifact` on the store object. */
  method GetArtifactPage(store: Db.Store, artifactId: string, onDisk: string -> bool) returns (r: Response)
    ensures r == ArtifactResponse(store.State(), artifactId, onDisk)
  {
    var artifact := store.GetArtifact(artifactId);
    if artifact.None? {
      return NotFound("Artifact not found");
    }
    var a := artifact.value;
    if a.filePath.Some? && a.filePath.value != [] {
      if !onDisk(a.filePath.value) {
        return NotFound("File missing on disk");
      }
      return FileBody(a.filePath.value);
    }
    var text := if a.textContent.Some? then a.textContent.value else "";
    r := Html("<pre>" + Replace(text, '<', "&lt;") + "</pre>");
  }

  ////////////////////////////////////////////////////////////////////////////
  // Uploads.

  /** One part of the multipart form: the client's file name, if any, and the bytes. */
  datatype Upload = Upload(filename: Option<string>, content: seq<bv8>)

  /** The segments of a POSIX path between its `/` separators. */
  function Segments(p: string): (r: seq<string>)
    ensures |r| >= 1
  {
    if p == [] then [[]]
    else
      var rest := Segments(p[1..]);
      if p[0] == '/' then [[]] + rest else [[p[0]] + rest[0]] + rest[1..]
  }

  /** `PurePosixPath(p).parts` apart from the root: empty and `.` segments are dropped. */
  function Components(segments: seq<string>): (r: seq<string>)
  {
    if segments == [] then []
    else (if segments[0] == [] || segments[0] == "." then [] else [segments[0]]) + Components(segments[1..])
  }

  /** `Path(p).name`: the last component, or the empty string when there is none. */
  function BaseName(p: string): string {
    var c := Components(Segments(p));
    if c == [] then [] else c[|c| - 1]
  }

  lemma {:induction false} SegmentsHaveNoSlash(p: string)
    ensures forall k :: 0 <= k < |Segments(p)| ==> '/' !in Segments(p)[k]
  {
    if p != [] {
      SegmentsHaveNoSlash(p[1..]);
      var rest := Segments(p[1..]);
      if p[0] != '/' {
        forall k | 0 <= k < |Segments(p)| ensures '/' !in Segments(p)[k] {
          if k > 0 {
            assert Segments(p)[k] == rest[k];
          }
        }
      }
    }
  }

  lemma {:induction false} ComponentsKeep(segments: seq<string>)
    ensures forall k :: 0 <= k < |Components(segments)| ==>
      Components(segments)[k] in segments && Components(segments)[k] != [] && Components(segments)[k] != "."
  {
    if segments != [] {
      ComponentsKeep(segments[1..]);
    }
  }

  /** The name a file is saved under has no `/`, and is neither `.` nor a name of the
      directory itself: the only ways out of the uploads directory are `..` and the empty
      name, and both name a directory. */
  lemma BaseNameIsOneComponent(p: string)
    ensures '/' !in BaseName(p) && BaseName(p) != "."
  {
    SegmentsHaveNoSlash(p);
    ComponentsKeep(Segments(p));
  }

  /** What the loop has done so far: the uploads directory's files, the count of saved
      files, and the exception that stopped it, if any. */
  datatype Saving = Saving(files: map<string, seq<bv8>>, saved: nat, failed: Option<string>)

  /** The exception `open` raises on a directory; the model keeps only its class. */
  const IsADirectory: string := "IsADirectoryError"

  /** The destination `Path(f.filename).name` in the uploads directory: a file name, or
      the directory itself (`""`) or its parent (`".."`), which cannot be opened for writing. */
  predicate Writable(name: string) {
    name != [] && name != ".."
  }

  /** The loop of `upload_files` over the first parts, from a directory holding `dir`:
      parts without a file name are skipped, and opening a destination that is a directory
      raises `IsADirectoryError` and ends the loop. */
  function SaveAll(uploads: seq<Upload>, dir: map<string, seq<bv8>>): (r: Saving)
    decreases |uploads|
  {
    if uploads == [] then Saving(dir, 0, None)
    else
      var before := SaveAll(uploads[..|uploads| - 1], dir);
      var f := uploads[|uploads| - 1];
      if before.failed.Some? || f.filename.None? || f.filename.value == [] then before
      else
        var name := BaseName(f.filename.value);
        if Writable(name) then Saving(before.files[name := f.content], before.saved + 1, None)
        else before.(failed := Some(IsADirectory))
  }

  /** The parts `if not f.filename: continue` keeps. */
  function Named(uploads: seq<Upload>): (r: seq<Upload>)
    ensures |r| <= |uploads|
    ensures forall k :: 0 <= k < |r| ==> r[k].filename.Some? && r[k].filename.value != [] && r[k] in uploads
    decreases |uploads|
  {
    if uploads == [] then []
    else
      var rest := Named(uploads[..|uploads| - 1]);
      var f := uploads[|uploads| - 1];
      if f.filename.Some? && f.filename.value != [] then rest + [f] else rest
  }

  /** The count `saved` is the number of parts with a file name, when none of them raised. */
  lemma {:induction false} SavedCount(uploads: seq<Upload>, dir: map<string, seq<bv8>>)
    ensures SaveAll(uploads, dir).failed.None? ==> SaveAll(uploads, dir).saved == |Named(uploads)|
    decreases |uploads|
  {
    if uploads != [] {
      SavedCount(uploads[..|uploads| - 1], dir);
    }
  }

  /** Every part with a file name is in the directory under its base name, when none raised. */
  lemma {:induction false} SavedNames(uploads: seq<Upload>, dir: map<string, seq<bv8>>)
    ensures var r := SaveAll(uploads, dir);
      r.failed.None? ==> forall k :: 0 <= k < |Named(uploads)| ==> BaseName(Named(uploads)[k].filename.value) in r.files
    decreases |uploads|
  {
    if uploads != [] {
      var init := uploads[..|uploads| - 1];
      SavedNames(init, dir);
      var f := uploads[|uploads| - 1];
      var r := SaveAll(uploads, dir);
      if r.failed.None? && f.filename.Some? && f.filename.value != [] {
        assert Named(uploads) == Named(init) + [f];
      }
    }
  }

  /** The last part with a file name is saved with its own bytes: a later part under the
      same base name replaces an earlier one, though both were counted. */
  lemma LastWins(uploads: seq<Upload>, dir: map<string, seq<bv8>>, f: Upload)
    requires f.filename.Some? && f.filename.value != []
    requires SaveAll(uploads + [f], dir).failed.None?
    ensures SaveAll(uploads + [f], dir).files[BaseName(f.filename.value)] == f.content
    ensures SaveAll(uploads + [f], dir).saved == SaveAll(uploads, dir).saved + 1
  {
    assert (uploads + [f])[..|uploads|] == uploads;
  }

  /** Files the directory already held stay there (with new bytes if a part had their name). */
  lemma {:induction false} KeepsOld(uploads: seq<Upload>, dir: map<string, seq<bv8>>)
    ensures forall name :: name in dir ==> name in SaveAll(uploads, dir).files
    decreases |uploads|
  {
    if uploads != [] {
      KeepsOld(uploads[..|uploads| - 1], dir);
    }
  }

  /** A name that is empty or `..` stops the loop, with nothing more saved after it. */
  lemma UnwritableStops(uploads: seq<Upload>, dir: map<string, seq<bv8>>)
    requires |uploads| > 0
    requires var f := uploads[|uploads| - 1];
      f.filename.Some? && f.filename.value != [] && !Writable(BaseName(f.filename.value))
    ensures SaveAll(uploads, dir).failed.Some?
    ensures SaveAll(uploads, dir).files == SaveAll(uploads[..|uploads| - 1], dir).files
  {
  }

  /** The page `upload_files` answers with. */
  function UploadResponse(t: Tables, root: Path, campaignId: string, uploads: seq<Upload>, dir: map<string, seq<bv8>>): Response {
    if GetCampaign(t, campaignId).None? then NotFound(CampaignMissing)
    else
      var r := SaveAll(uploads, dir);
      if r.failed.Some? then ServerError(r.failed.value)
      else Html("Uploaded " + IntToString(r.saved) + " file(s) to " + PathString(UploadsDir(root, campaignId)))
  }

  /** `upload_files`: `dir` is what the uploads directory holds before; the result is the
      response and what it holds after. */
  method UploadFiles(store: Db.Store, root: Path, campaignId: string, uploads: seq<Upload>, dir: map<string, seq<bv8>>)
    returns (r: Response, files: map<string, seq<bv8>>)
    ensures r == UploadResponse(store.State(), root, campaignId, uploads, dir)
    ensures files == if GetCampaign(store.State(), campaignId).None? then dir else SaveAll(uploads, dir).files
  {
    var campaign := store.GetCampaign(campaignId);
    if campaign.None? {
      return NotFound(CampaignMissing), dir;
    }
    var saving := SaveParts(uploads, dir);
    files := saving.files;
    if saving.failed.Some? {
      return ServerError(saving.failed.value), files;
    }
    r := Html("Uploaded " + IntToString(saving.saved) + " file(s) to " + PathString(UploadsDir(root, campaignId)));
  }

  /** The loop of `upload_files` over the parts, writing into a directory holding `dir`. */
  method SaveParts(uploads: seq<Upload>, dir: map<string, seq<bv8>>) returns (r: Saving)
    ensures r == SaveAll(uploads, dir)
  {
    var files := dir;
    var saved := 0;
    var i := 0;
    while i < |uploads|
      invariant 0 <= i <= |uploads|
      invariant SaveAll(uploads[..i], dir) == Saving(files, saved, None)
    {
      var f := uploads[i];
      assert uploads[..i + 1][..i] == uploads[..i];
      if f.filename.None? || f.filename.value == [] {
        i := i + 1;
        continue;
      }
      var name := BaseName(f.filename.value);
      if !Writable(name) {
        StoppedStays(uploads, i + 1, dir);
        return Saving(files, saved, Some(IsADirectory));
      }
      files := files[name := f.content];
      saved := saved + 1;
      i := i + 1;
    }
    assert uploads[..i] == uploads;
    r := Saving(files, saved, None);
  }

  /** Once a part has raised, later parts change nothing. */
  lemma {:induction false} StoppedStays(uploads: seq<Upload>, i: nat, dir: map<string, seq<bv8>>)
    requires i <= |uploads| && SaveAll(uploads[..i], dir).failed.Some?
    ensures SaveAll(uploads, dir) == SaveAll(uploads[..i], dir)
    decreases |uploads| - i
  {
    if i < |uploads| {
      assert uploads[..i + 1][..i] == uploads[..i];
      StoppedStays(uploads, i + 1, dir);
    } else {
      assert uploads[..i] == uploads;
    }
  }
}
