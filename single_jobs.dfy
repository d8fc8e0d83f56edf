/** The two one-stage jobs of src/web/app.py, `_job_generate_map` and
    `_job_generate_portraits_pdf`: a progress update, then either one artifact and
    `done` naming it, or `error` with the exception's text. */
module SingleJobs {
  import opened Wrappers
  import opened Text
  import opened StoreModel
  import opened Paths
  import opened JobPlan
  import PackJob
  import PortraitPdf

  /** A job of one stage: `running` with `message`, then the artifact the stage makes and
      `done` naming it, or the stage's exception. */
  function OneStage(s: nat, message: string, outcome: Result<Draft, string>): seq<Op> {
    [Running(message)]
    + match outcome
      case Ok(d) => [Create(d), Finished(IdOf(s))]
      case Err(e) => [Failed(e)]
  }

  lemma OneStageParts(s: nat, message: string, outcome: Result<Draft, string>)
    ensures Drafts(OneStage(s, message, outcome)) == (if outcome.Ok? then [outcome.value] else [])
    ensures ProgressUntil(Updates(OneStage(s, message, outcome)), if outcome.Ok? then Finished(IdOf(s)) else Failed(outcome.error))
  {
    var last := if outcome.Ok? then Finished(IdOf(s)) else Failed(outcome.error);
    match outcome
    case Ok(d) =>
      Cons(Finished(IdOf(s)), []);
      assert [Finished(IdOf(s))] + [] == [Finished(IdOf(s))];
      Cons(Create(d), [Finished(IdOf(s))]);
      Cons(Running(message), [Create(d), Finished(IdOf(s))]);
      assert [Create(d)] + [Finished(IdOf(s))] == [Create(d), Finished(IdOf(s))];
      assert Updates(OneStage(s, message, outcome)) == [Running(message)] + [last];
      ProgressThen(Updates(OneStage(s, message, outcome)), [Running(message)], last);
    case Err(e) =>
      Cons(Failed(e), []);
      Cons(Running(message), [Failed(e)]);
      assert [Failed(e)] + [] == [Failed(e)];
      assert Updates(OneStage(s, message, outcome)) == [Running(message)] + [last];
      ProgressThen(Updates(OneStage(s, message, outcome)), [Running(message)], last);
  }

  /** A stage that succeeds stores its artifact and the job ends `done` naming it. */
  lemma OneStageDone(t: Tables, jobId: string, campaignId: string, message: string, d: Draft)
    requires Valid(t) && GetJob(t, jobId).Some?
    ensures EndedDone(ApplyAll(t, jobId, campaignId, OneStage(t.serial, message, Ok(d))), jobId, IdOf(t.serial), d.kind, campaignId)
    ensures StoredAt(ApplyAll(t, jobId, campaignId, OneStage(t.serial, message, Ok(d))), IdOf(t.serial), campaignId, d)
  {
    var ops := OneStage(t.serial, message, Ok(d));
    OneStageParts(t.serial, message, Ok(d));
    assert Drafts(ops) == [d];
    EndsDone(t, jobId, campaignId, ops, 0, d.kind, IdOf(t.serial));
    StoredUnder(t, jobId, campaignId, ops, 0, IdOf(t.serial));
  }

  /** A stage that raises stores nothing and the job ends `error` with the exception's text. */
  lemma OneStageFails(t: Tables, jobId: string, campaignId: string, message: string, e: string)
    requires GetJob(t, jobId).Some?
    ensures var t' := ApplyAll(t, jobId, campaignId, OneStage(t.serial, message, Err(e)));
      t'.artifacts == t.artifacts && t'.campaigns == t.campaigns && EndedIn(t', jobId, Failed(e))
  {
    var ops := OneStage(t.serial, message, Err(e));
    OneStageParts(t.serial, message, Err(e));
    NothingCreated(t, jobId, campaignId, ops);
    EndsAt(t, jobId, campaignId, ops, Failed(e));
  }

  ////////////////////////////////////////////////////////////////////////////
  // `_job_generate_map`.

  /** `f"map_{width}x{height}_{job_id}.png"` in the campaign's artifacts directory. */
  function MapJobPath(dir: Path, jobId: string, width: int, height: int): string {
    PackJob.FileIn(dir, "map_" + IntToString(width) + "x" + IntToString(height) + "_" + jobId + ".png")
  }

  function MapJobDraft(dir: Path, jobId: string, width: int, height: int): Draft {
    Draft(PackJob.MapKind, "Map " + IntToString(width) + "×" + IntToString(height), None,
      Some(MapJobPath(dir, jobId, width, height)), Some([("width", MInt(width)), ("height", MInt(height))]))
  }

  /** The stage: `generate_simple_map` (`drawMap`, None when it returns), then the artifact. */
  function MapOutcome(dir: Path, jobId: string, width: int, height: int, drawMap: (int, int, string) -> Option<string>): (r: Result<Draft, string>)
    ensures r.Ok? <==> drawMap(width, height, MapJobPath(dir, jobId, width, height)).None?
    ensures r.Ok? ==> r.value == MapJobDraft(dir, jobId, width, height)
    ensures r.Err? ==> r.error == drawMap(width, height, MapJobPath(dir, jobId, width, height)).value
  {
    match drawMap(width, height, MapJobPath(dir, jobId, width, height))
    case Some(e) => Err(e)
    case None => Ok(MapJobDraft(dir, jobId, width, height))
  }

  function MapJobPlan(s: nat, dir: Path, jobId: string, width: int, height: int, drawMap: (int, int, string) -> Option<string>): seq<Op> {
    OneStage(s, "Generating map", MapOutcome(dir, jobId, width, height, drawMap))
  }

  /** A drawn map is stored as `file.map_png` with its size and the job ends `done` naming it. */
  lemma MapJobDone(t: Tables, jobId: string, campaignId: string, dir: Path, width: int, height: int,
                   drawMap: (int, int, string) -> Option<string>)
    requires Valid(t) && GetJob(t, jobId).Some?
    requires drawMap(width, height, MapJobPath(dir, jobId, width, height)).None?
    ensures var t' := ApplyAll(t, jobId, campaignId, MapJobPlan(t.serial, dir, jobId, width, height, drawMap));
      && EndedDone(t', jobId, IdOf(t.serial), PackJob.MapKind, campaignId)
      && StoredAt(t', IdOf(t.serial), campaignId, MapJobDraft(dir, jobId, width, height))
  {
    OneStageDone(t, jobId, campaignId, "Generating map", MapJobDraft(dir, jobId, width, height));
  }

  /** A map writer that raises leaves the artifacts as they were and ends the job in `error`. */
  lemma MapJobFails(t: Tables, jobId: string, campaignId: string, dir: Path, width: int, height: int,
                    drawMap: (int, int, string) -> Option<string>)
    requires GetJob(t, jobId).Some?
    requires drawMap(width, height, MapJobPath(dir, jobId, width, height)).Some?
    ensures var t' := ApplyAll(t, jobId, campaignId, MapJobPlan(t.serial, dir, jobId, width, height, drawMap));
      && t'.artifacts == t.artifacts
      && EndedIn(t', jobId, Failed(drawMap(width, height, MapJobPath(dir, jobId, width, height)).value))
  {
    OneStageFails(t, jobId, campaignId, "Generating map", drawMap(width, height, MapJobPath(dir, jobId, width, height)).value);
  }

  ////////////////////////////////////////////////////////////////////////////
  // `_job_generate_portraits_pdf`.

  const PortraitsKind: string := "file.portraits_pdf"

  /** `f"portraits_{columns}x{rows}_{job_id}.pdf"` in the campaign's artifacts directory. */
  function PortraitsPath(dir: Path, jobId: string, columns: int, rows: int): string {
    PackJob.FileIn(dir, "portraits_" + IntToString(columns) + "x" + IntToString(rows) + "_" + jobId + ".pdf")
  }

  function PortraitsDraft(dir: Path, jobId: string, columns: int, rows: int): Draft {
    Draft(PortraitsKind, "Portraits PDF (" + IntToString(columns) + "×" + IntToString(rows) + ")", None,
      Some(PortraitsPath(dir, jobId, columns, rows)), Some([("columns", MInt(columns)), ("rows", MInt(rows))]))
  }

  const NoUploads: string := "No uploads directory; upload images first"

  /** The stage: the uploads directory must exist (`present`; `isDir` says whether it is a
      directory and `entries` lists it), `generate_pdf_from_dir` must lay the images out,
      and writing the file (`writePdf`, None when `pdf.output` returns) must succeed. */
  function PortraitsOutcome(dir: Path, uploads: Path, jobId: string, columns: int, rows: int,
                            present: bool, isDir: bool, entries: seq<string>, opens: string -> Option<string>,
                            writePdf: Option<string>): (r: Result<Draft, string>)
    ensures r.Ok? <==> present && PortraitPdf.Generate(isDir, PathString(uploads), entries, columns, rows, opens).Ok? && writePdf.None?
    ensures r.Ok? ==> r.value == PortraitsDraft(dir, jobId, columns, rows)
    ensures !present ==> r == Err(NoUploads)
    ensures present && isDir && PortraitPdf.ImageFiles(entries) == [] ==> r == Err("No images found in " + PathString(uploads))
  {
    if !present then Err(NoUploads)
    else
      match PortraitPdf.Generate(isDir, PathString(uploads), entries, columns, rows, opens)
      case Err(e) => Err(e)
      case Ok(_) =>
        if writePdf.Some? then Err(writePdf.value) else Ok(PortraitsDraft(dir, jobId, columns, rows))
  }

  function PortraitsJobPlan(s: nat, dir: Path, uploads: Path, jobId: string, columns: int, rows: int,
                            present: bool, isDir: bool, entries: seq<string>, opens: string -> Option<string>,
                            writePdf: Option<string>): seq<Op> {
    OneStage(s, "Generating PDF", PortraitsOutcome(dir, uploads, jobId, columns, rows, present, isDir, entries, opens, writePdf))
  }

  /** With uploads holding at least one image, every image opening and a grid of at
      least one cell, the PDF is stored as `file.portraits_pdf` and the job ends `done`
      naming it. */
  lemma PortraitsJobDone(t: Tables, jobId: string, campaignId: string, dir: Path, uploads: Path, columns: int, rows: int,
                         entries: seq<string>, opens: string -> Option<string>)
    requires Valid(t) && GetJob(t, jobId).Some?
    requires PortraitPdf.ImageFiles(entries) != [] && columns != 0 && rows != 0
    requires forall e :: e in PortraitPdf.ImageFiles(entries) ==> opens(e).None?
    ensures var t' := ApplyAll(t, jobId, campaignId, PortraitsJobPlan(t.serial, dir, uploads, jobId, columns, rows, true, true, entries, opens, None));
      && EndedDone(t', jobId, IdOf(t.serial), PortraitsKind, campaignId)
      && StoredAt(t', IdOf(t.serial), campaignId, PortraitsDraft(dir, jobId, columns, rows))
  {
    var images := PortraitPdf.ImageFiles(entries);
    assert forall i :: 0 <= i < |images| ==> opens(images[i]).None? by {
      forall i | 0 <= i < |images| ensures opens(images[i]).None? {
        assert images[i] in images;
      }
    }
    OneStageDone(t, jobId, campaignId, "Generating PDF", PortraitsDraft(dir, jobId, columns, rows));
  }

  /** Without an uploads directory the job stores nothing and ends with `NoUploads`. */
  lemma PortraitsWithoutUploads(t: Tables, jobId: string, campaignId: string, dir: Path, uploads: Path, columns: int, rows: int,
                                isDir: bool, entries: seq<string>, opens: string -> Option<string>, writePdf: Option<string>)
    requires GetJob(t, jobId).Some?
    ensures var t' := ApplyAll(t, jobId, campaignId, PortraitsJobPlan(t.serial, dir, uploads, jobId, columns, rows, false, isDir, entries, opens, writePdf));
      t'.artifacts == t.artifacts && EndedIn(t', jobId, Failed(NoUploads))
  {
    OneStageFails(t, jobId, campaignId, "Generating PDF", NoUploads);
  }

  /** An uploads directory without images: nothing is stored and the job ends with the
      `ValueError` of `generate_pdf_from_dir`. */
  lemma PortraitsWithoutImages(t: Tables, jobId: string, campaignId: string, dir: Path, uploads: Path, columns: int, rows: int,
                               entries: seq<string>, opens: string -> Option<string>, writePdf: Option<string>)
    requires GetJob(t, jobId).Some?
    requires PortraitPdf.ImageFiles(entries) == []
    ensures var t' := ApplyAll(t, jobId, campaignId, PortraitsJobPlan(t.serial, dir, uploads, jobId, columns, rows, true, true, entries, opens, writePdf));
      t'.artifacts == t.artifacts && EndedIn(t', jobId, Failed("No images found in " + PathString(uploads)))
  {
    OneStageFails(t, jobId, campaignId, "Generating PDF", "No images found in " + PathString(uploads));
  }

  /** An image-suffixed upload that does not open as an image (say, a text file named
      `a.jpg`) fails the job with the exception of the first such image, and nothing is
      stored, however the PDF write would have gone. */
  lemma PortraitsUnreadableImage(t: Tables, jobId: string, campaignId: string, dir: Path, uploads: Path, columns: int, rows: int,
                                 entries: seq<string>, opens: string -> Option<string>, writePdf: Option<string>, k: nat)
    requires GetJob(t, jobId).Some?
    requires columns != 0 && rows != 0
    requires k < |PortraitPdf.ImageFiles(entries)| && opens(PortraitPdf.ImageFiles(entries)[k]).Some?
    requires forall j :: 0 <= j < k ==> opens(PortraitPdf.ImageFiles(entries)[j]).None?
    ensures var t' := ApplyAll(t, jobId, campaignId, PortraitsJobPlan(t.serial, dir, uploads, jobId, columns, rows, true, true, entries, opens, writePdf));
      t'.artifacts == t.artifacts && EndedIn(t', jobId, Failed(opens(PortraitPdf.ImageFiles(entries)[k]).value))
  {
    var images := PortraitPdf.ImageFiles(entries);
    PortraitPdf.OpenFailureFirst(images, k, opens);
    OneStageFails(t, jobId, campaignId, "Generating PDF", opens(images[k]).value);
  }
}
