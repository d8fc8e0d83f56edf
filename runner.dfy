/** The background jobs of src/web/app.py as methods that write to the store object,
    stage by stage, in the order the source does. Each is proved to perform exactly the
    writes of its plan in JobPlan, PackJob or SingleJobs, where what those writes leave
    in the store is proved. */
module Runner {
  import opened Wrappers
  import opened PackSchema
  import opened StoreModel
  import opened Paths
  import opened JobPlan
  import opened PackJob
  import opened SingleJobs
  import PortraitPdf
  import Db

  ////////////////////////////////////////////////////////////////////////////
  // Consecutive writes.

  lemma ChainOne(t0: Tables, t1: Tables, jobId: string, campaignId: string, a: Op)
    requires t1 == Apply(t0, jobId, campaignId, a)
    ensures t1 == ApplyAll(t0, jobId, campaignId, [a])
  {
    ApplyAllUnfold(t0, jobId, campaignId, [a]);
    assert [a][1..] == [];
  }

  lemma ChainTwo(t0: Tables, t1: Tables, t2: Tables, jobId: string, campaignId: string, a: Op, b: Op)
    requires t1 == Apply(t0, jobId, campaignId, a) && t2 == Apply(t1, jobId, campaignId, b)
    ensures t2 == ApplyAll(t0, jobId, campaignId, [a, b])
  {
    ChainOne(t1, t2, jobId, campaignId, b);
    ApplyAllUnfold(t0, jobId, campaignId, [a, b]);
    assert [a, b][1..] == [b];
  }

  lemma ChainThree(t0: Tables, t1: Tables, t2: Tables, t3: Tables, jobId: string, campaignId: string, a: Op, b: Op, c: Op)
    requires t1 == Apply(t0, jobId, campaignId, a) && t2 == Apply(t1, jobId, campaignId, b) && t3 == Apply(t2, jobId, campaignId, c)
    ensures t3 == ApplyAll(t0, jobId, campaignId, [a, b, c])
  {
    ChainTwo(t1, t2, t3, jobId, campaignId, b, c);
    ApplyAllUnfold(t0, jobId, campaignId, [a, b, c]);
    assert [a, b, c][1..] == [b, c];
  }

  lemma ChainFour(t0: Tables, t1: Tables, t2: Tables, t3: Tables, t4: Tables, jobId: string, campaignId: string,
                  a: Op, b: Op, c: Op, d: Op)
    requires t1 == Apply(t0, jobId, campaignId, a) && t2 == Apply(t1, jobId, campaignId, b)
    requires t3 == Apply(t2, jobId, campaignId, c) && t4 == Apply(t3, jobId, campaignId, d)
    ensures t4 == ApplyAll(t0, jobId, campaignId, [a, b, c, d])
  {
    ChainThree(t1, t2, t3, t4, jobId, campaignId, b, c, d);
    ApplyAllUnfold(t0, jobId, campaignId, [a, b, c, d]);
    assert [a, b, c, d][1..] == [b, c, d];
  }

  lemma ChainCons(t0: Tables, t1: Tables, t2: Tables, jobId: string, campaignId: string, a: Op, rest: seq<Op>)
    requires t1 == Apply(t0, jobId, campaignId, a) && t2 == ApplyAll(t1, jobId, campaignId, rest)
    ensures t2 == ApplyAll(t0, jobId, campaignId, [a] + rest)
  {
    ApplyAllUnfold(t0, jobId, campaignId, [a] + rest);
    assert ([a] + rest)[1..] == rest;
  }

  ////////////////////////////////////////////////////////////////////////////
  // `_job_generate_campaign_pack`, one stage per method.

  /** The JSON artifact, `Writing flowchart`, then the Mermaid and DOT artifacts. */
  method WriteSources(store: Db.Store, jobId: string, campaignId: string, dir: Path, pack: Pack)
    returns (jsonId: string, mermaidId: string, dotId: string)
    requires store.Valid()
    modifies store
    ensures store.Valid()
    ensures store.State() == ApplyAll(old(store.State()), jobId, campaignId, SourceOps(dir, jobId, pack))
    ensures jsonId == IdOf(old(store.serial)) && mermaidId == IdOf(old(store.serial) + 1) && dotId == IdOf(old(store.serial) + 2)
    ensures store.serial == old(store.serial) + 3
  {
    ghost var t0 := store.State();
    var json := store.CreateArtifact(campaignId, JsonDraft(dir, jobId, pack));
    ghost var t1 := store.State();
    store.UpdateJob(jobId, "running", Some("Writing flowchart"), None);
    ghost var t2 := store.State();
    var mermaid := store.CreateArtifact(campaignId, MermaidDraft(dir, jobId));
    ghost var t3 := store.State();
    var dot := store.CreateArtifact(campaignId, DotDraft(dir, jobId));
    ChainFour(t0, t1, t2, t3, store.State(), jobId, campaignId,
      Create(JsonDraft(dir, jobId, pack)), Running("Writing flowchart"), Create(MermaidDraft(dir, jobId)), Create(DotDraft(dir, jobId)));
    jsonId, mermaidId, dotId := json.id, mermaid.id, dot.id;
  }

  /** The optional render: PNG and PDF when Graphviz rendered, nothing when `dot` is not
      installed, a warning when it raised; `rendered` is what the premise records. */
  method RenderFlowchart(store: Db.Store, jobId: string, campaignId: string, dir: Path, gv: Render)
    returns (rendered: bool)
    requires store.Valid()
    modifies store
    ensures store.Valid()
    ensures store.State() == ApplyAll(old(store.State()), jobId, campaignId, RenderOps(dir, jobId, gv))
    ensures rendered == gv.Rendered?
    ensures store.serial == old(store.serial) + |RenderOps(dir, jobId, gv)|
  {
    ghost var t0 := store.State();
    var ops := RenderOps(dir, jobId, gv);
    rendered := false;
    match gv
    case Rendered =>
      rendered := true;
      var png := store.CreateArtifact(campaignId, ops[0].draft);
      ghost var t1 := store.State();
      var pdf := store.CreateArtifact(campaignId, ops[1].draft);
      ChainTwo(t0, t1, store.State(), jobId, campaignId, ops[0], ops[1]);
    case Unavailable =>
    case Raised(e) =>
      var warning := store.CreateArtifact(campaignId, WarningDraft(e));
      ChainOne(t0, store.State(), jobId, campaignId, Create(WarningDraft(e)));
  }

  /** Once an item has raised, the loop's outcome no longer changes. */
  lemma {:induction false} StepsStuck<X>(xs: seq<X>, i: nat, j: nat, step: X -> Result<Op, string>)
    requires i <= j <= |xs| && Steps(xs[..i], step).1.Some?
    ensures Steps(xs[..j], step) == Steps(xs[..i], step)
    decreases j
  {
    if j > i {
      StepsStuck(xs, i, j - 1, step);
      assert xs[..j][..j - 1] == xs[..j - 1];
    }
  }

  /** One more item of the loop, when none before it raised: its step is taken and recorded,
      or it raises and the loop's outcome is final. */
  lemma {:induction false} StepsNext<X>(xs: seq<X>, i: nat, step: X -> Result<Op, string>)
    requires i < |xs| && Steps(xs[..i], step).1.None? && |Steps(xs[..i], step).0| == i
    ensures step(xs[i]).Ok? ==> Steps(xs[..i + 1], step) == (Steps(xs[..i], step).0 + [step(xs[i]).value], None)
    ensures step(xs[i]).Err? ==> Steps(xs, step) == (Steps(xs[..i], step).0, Some(step(xs[i]).error))
  {
    assert xs[..i + 1][..i] == xs[..i];
    if step(xs[i]).Err? {
      StepsStuck(xs, i + 1, |xs|, step);
      assert xs[..|xs|] == xs;
    }
  }

  /** What one location's step is, case by case as the loop body computes it. */
  lemma MapOpCases(loc: Location, dir: Path, jobId: string, drawMap: (int, int, string) -> Option<string>)
    ensures var w := MapDimension(loc.mapSize.width);
      var h := MapDimension(loc.mapSize.height);
      && (w.Err? ==> MapOp(loc, dir, jobId, drawMap) == Err(w.error))
      && (w.Ok? && h.Err? ==> MapOp(loc, dir, jobId, drawMap) == Err(h.error))
      && (w.Ok? && h.Ok? ==>
           var d := MapDraft(dir, jobId, LocationName(loc.name), w.value, h.value);
           MapOp(loc, dir, jobId, drawMap) == if drawMap(w.value, h.value, d.filePath.value).Some?
             then Err(drawMap(w.value, h.value, d.filePath.value).value) else Ok(Create(d)))
  {
  }

  /** The loop over the first six locations: one map artifact per location until the first
      exception, which is returned for the caller to record. */
  method GenerateMaps(store: Db.Store, jobId: string, campaignId: string, dir: Path, locs: seq<Location>,
                      drawMap: (int, int, string) -> Option<string>)
    returns (failure: Option<string>)
    requires store.Valid()
    modifies store
    ensures store.Valid()
    ensures store.State() == ApplyAll(old(store.State()), jobId, campaignId, MapOps(locs, dir, jobId, drawMap).0)
    ensures failure == MapOps(locs, dir, jobId, drawMap).1
    ensures store.serial == old(store.serial) + |MapOps(locs, dir, jobId, drawMap).0|
  {
    ghost var t0 := store.State();
    ghost var step := loc => MapOp(loc, dir, jobId, drawMap);
    var i := 0;
    while i < |locs|
      invariant 0 <= i <= |locs| && store.Valid()
      invariant Steps(locs[..i], step).1.None? && |Steps(locs[..i], step).0| == i
      invariant store.State() == ApplyAll(t0, jobId, campaignId, Steps(locs[..i], step).0)
      invariant store.serial == t0.serial + i
    {
      var loc := locs[i];
      MapOpCases(loc, dir, jobId, drawMap);
      StepsNext(locs, i, step);
      var name := LocationName(loc.name);
      var width := MapDimension(loc.mapSize.width);
      if width.Err? {
        return Some(width.error);
      }
      var height := MapDimension(loc.mapSize.height);
      if height.Err? {
        return Some(height.error);
      }
      var d := MapDraft(dir, jobId, name, width.value, height.value);
      var drawn := drawMap(width.value, height.value, d.filePath.value);
      if drawn.Some? {
        return drawn;
      }
      var mapArtifact := store.CreateArtifact(campaignId, d);
      ApplyAllSnoc(t0, jobId, campaignId, Steps(locs[..i], step).0, Create(d));
      i := i + 1;
    }
    assert locs[..i] == locs;
    failure := None;
  }

  /** The last stage: `Writing printable PDF`, then the PDF and the premise and `done`, or
      the exception of the PDF writer; `s` is the serial the run started at and `made` the
      number of artifacts it stored before this stage. */
  method WritePrintable(store: Db.Store, jobId: string, campaignId: string, dir: Path, pack: Pack,
                        jsonId: string, mermaidId: string, dotId: string, rendered: bool, writePdf: Option<string>,
                        ghost s: nat, ghost made: nat)
    requires store.Valid()
    requires jsonId == IdOf(s) && mermaidId == IdOf(s + 1) && dotId == IdOf(s + 2) && store.serial == s + made
    modifies store
    ensures store.Valid()
    ensures store.State() == ApplyAll(old(store.State()), jobId, campaignId, FinishOps(s, made, dir, jobId, pack, rendered, writePdf))
  {
    ghost var t0 := store.State();
    store.UpdateJob(jobId, "running", Some("Writing printable PDF"), None);
    ghost var t1 := store.State();
    if writePdf.Some? {
      store.UpdateJob(jobId, "error", Some(writePdf.value), None);
      FinishApplied(t0, t1, t1, t1, store.State(), jobId, campaignId, s, made, dir, pack, jsonId, mermaidId, dotId, IdOf(s + made), rendered, writePdf);
      return;
    }
    var pdf := store.CreateArtifact(campaignId, PdfDraft(dir, jobId, pack));
    ghost var t2 := store.State();
    assert pdf.id == IdOf(s + made);
    var premise := store.CreateArtifact(campaignId, PremiseDraft(pack, jsonId, mermaidId, dotId, rendered, pdf.id));
    ghost var t3 := store.State();
    store.UpdateJob(jobId, "done", Some("Done"), Some(pdf.id));
    FinishApplied(t0, t1, t2, t3, store.State(), jobId, campaignId, s, made, dir, pack, jsonId, mermaidId, dotId, pdf.id, rendered, writePdf);
  }

  /** The last stage performed in order makes up the writes of `FinishOps`. */
  lemma FinishApplied(t0: Tables, t1: Tables, t2: Tables, t3: Tables, t4: Tables, jobId: string, campaignId: string,
                      s: nat, made: nat, dir: Path, pack: Pack, jsonId: string, mermaidId: string, dotId: string, pdfId: string,
                      rendered: bool, writePdf: Option<string>)
    requires jsonId == IdOf(s) && mermaidId == IdOf(s + 1) && dotId == IdOf(s + 2) && pdfId == IdOf(s + made)
    requires t1 == Apply(t0, jobId, campaignId, Running("Writing printable PDF"))
    requires writePdf.Some? ==> t4 == Apply(t1, jobId, campaignId, Failed(writePdf.value))
    requires writePdf.None? ==> t2 == Apply(t1, jobId, campaignId, Create(PdfDraft(dir, jobId, pack)))
    requires writePdf.None? ==>
      t3 == Apply(t2, jobId, campaignId, Create(PremiseDraft(pack, jsonId, mermaidId, dotId, rendered, pdfId)))
    requires writePdf.None? ==> t4 == Apply(t3, jobId, campaignId, Update("done", Some("Done"), Some(pdfId)))
    ensures t4 == ApplyAll(t0, jobId, campaignId, FinishOps(s, made, dir, jobId, pack, rendered, writePdf))
  {
    var u := Running("Writing printable PDF");
    if writePdf.Some? {
      ChainTwo(t0, t1, t4, jobId, campaignId, u, Failed(writePdf.value));
      assert FinishOps(s, made, dir, jobId, pack, rendered, writePdf) == [u, Failed(writePdf.value)];
    } else {
      var pdf := Create(PdfDraft(dir, jobId, pack));
      var premise := Create(PremiseDraft(pack, IdOf(s), IdOf(s + 1), IdOf(s + 2), rendered, IdOf(s + made)));
      ChainFour(t0, t1, t2, t3, t4, jobId, campaignId, u, pdf, premise, Finished(IdOf(s + made)));
      assert FinishOps(s, made, dir, jobId, pack, rendered, writePdf) == [u, pdf, premise, Finished(IdOf(s + made))];
    }
  }

  /** The stages in order make up the writes of `PackStages`. */
  lemma StagesApplied(t0: Tables, t1: Tables, t2: Tables, t3: Tables, t4: Tables, t5: Tables, jobId: string, campaignId: string,
                      s: nat, dir: Path, pack: Pack, gv: Render, drawMap: (int, int, string) -> Option<string>, writePdf: Option<string>)
    requires t0.serial == s
    requires t1 == ApplyAll(t0, jobId, campaignId, SourceOps(dir, jobId, pack))
    requires t2 == ApplyAll(t1, jobId, campaignId, RenderOps(dir, jobId, gv))
    requires t3 == Apply(t2, jobId, campaignId, Running("Generating maps"))
    requires t4 == ApplyAll(t3, jobId, campaignId, MapOps(FirstLocations(pack.locations), dir, jobId, drawMap).0)
    requires var maps := MapOps(FirstLocations(pack.locations), dir, jobId, drawMap);
      t5 == ApplyAll(t4, jobId, campaignId, if maps.1.Some? then [Failed(maps.1.value)]
        else FinishOps(s, PdfIndex(dir, jobId, pack, gv, drawMap), dir, jobId, pack, gv.Rendered?, writePdf))
    ensures t5 == ApplyAll(t0, jobId, campaignId, PackStages(s, dir, jobId, pack, gv, drawMap, writePdf))
  {
    var src, render := SourceOps(dir, jobId, pack), RenderOps(dir, jobId, gv);
    var maps := MapOps(FirstLocations(pack.locations), dir, jobId, drawMap);
    var rest := if maps.1.Some? then [Failed(maps.1.value)]
      else FinishOps(s, PdfIndex(dir, jobId, pack, gv, drawMap), dir, jobId, pack, gv.Rendered?, writePdf);
    ApplyAllAppend(t0, jobId, campaignId, src, render);
    ApplyAllSnoc(t0, jobId, campaignId, src + render, Running("Generating maps"));
    ApplyAllAppend(t0, jobId, campaignId, src + render + [Running("Generating maps")], maps.0);
    ApplyAllAppend(t0, jobId, campaignId, src + render + [Running("Generating maps")] + maps.0, rest);
  }

  /** Everything after the pack is built. */
  method RunPackStages(store: Db.Store, jobId: string, campaignId: string, dir: Path, pack: Pack, gv: Render,
                       drawMap: (int, int, string) -> Option<string>, writePdf: Option<string>)
    requires store.Valid()
    modifies store
    ensures store.Valid()
    ensures store.State() == ApplyAll(old(store.State()), jobId, campaignId, PackStages(old(store.serial), dir, jobId, pack, gv, drawMap, writePdf))
  {
    ghost var t0 := store.State();
    var jsonId, mermaidId, dotId := WriteSources(store, jobId, campaignId, dir, pack);
    ghost var t1 := store.State();
    var rendered := RenderFlowchart(store, jobId, campaignId, dir, gv);
    ghost var t2 := store.State();
    store.UpdateJob(jobId, "running", Some("Generating maps"), None);
    ghost var t3 := store.State();
    var failure := GenerateMaps(store, jobId, campaignId, dir, FirstLocations(pack.locations), drawMap);
    ghost var t4 := store.State();
    if failure.Some? {
      store.UpdateJob(jobId, "error", Some(failure.value), None);
      ChainOne(t4, store.State(), jobId, campaignId, Failed(failure.value));
    } else {
      WritePrintable(store, jobId, campaignId, dir, pack, jsonId, mermaidId, dotId, rendered, writePdf,
        t0.serial, PdfIndex(dir, jobId, pack, gv, drawMap));
    }
    StagesApplied(t0, t1, t2, t3, t4, store.State(), jobId, campaignId, t0.serial, dir, pack, gv, drawMap, writePdf);
  }

  /** `_job_generate_campaign_pack`, with the artifacts directory of the campaign under
      `root`; `built` is what `build_campaign_pack_json` returns or raises. */
  method RunCampaignPack(store: Db.Store, root: Path, jobId: string, campaignId: string, built: Result<Pack, string>,
                         gv: Render, drawMap: (int, int, string) -> Option<string>, writePdf: Option<string>)
    requires store.Valid()
    modifies store
    ensures store.Valid()
    ensures store.State() == ApplyAll(old(store.State()), jobId, campaignId,
      PackPlan(old(store.serial), ArtifactsDir(root, campaignId), jobId, built, gv, drawMap, writePdf))
  {
    ghost var t0 := store.State();
    var dir := ArtifactsDir(root, campaignId);
    store.UpdateJob(jobId, "running", Some("Designing campaign"), None);
    ghost var t1 := store.State();
    ghost var rest: seq<Op>;
    if built.Err? {
      store.UpdateJob(jobId, "error", Some(built.error), None);
      rest := [Failed(built.error)];
      ChainOne(t1, store.State(), jobId, campaignId, Failed(built.error));
    } else {
      RunPackStages(store, jobId, campaignId, dir, built.value, gv, drawMap, writePdf);
      rest := PackStages(t0.serial, dir, jobId, built.value, gv, drawMap, writePdf);
    }
    ChainCons(t0, t1, store.State(), jobId, campaignId, Running("Designing campaign"), rest);
    assert PackPlan(t0.serial, dir, jobId, built, gv, drawMap, writePdf) == [Running("Designing campaign")] + rest;
  }

  ////////////////////////////////////////////////////////////////////////////
  // The one-stage jobs.

  /** A one-stage job performed in order: the progress update, then the artifact and
      `done`, or `error`. */
  lemma OneStageApplied(t0: Tables, t1: Tables, t2: Tables, t3: Tables, jobId: string, campaignId: string,
                        message: string, outcome: Result<Draft, string>)
    requires t1 == Apply(t0, jobId, campaignId, Running(message))
    requires outcome.Err? ==> t3 == Apply(t1, jobId, campaignId, Failed(outcome.error))
    requires outcome.Ok? ==> t2 == Apply(t1, jobId, campaignId, Create(outcome.value))
    requires outcome.Ok? ==> t3 == Apply(t2, jobId, campaignId, Finished(IdOf(t0.serial)))
    ensures t3 == ApplyAll(t0, jobId, campaignId, OneStage(t0.serial, message, outcome))
  {
    if outcome.Err? {
      ChainTwo(t0, t1, t3, jobId, campaignId, Running(message), Failed(outcome.error));
      assert OneStage(t0.serial, message, outcome) == [Running(message), Failed(outcome.error)];
    } else {
      ChainThree(t0, t1, t2, t3, jobId, campaignId, Running(message), Create(outcome.value), Finished(IdOf(t0.serial)));
      assert OneStage(t0.serial, message, outcome) == [Running(message), Create(outcome.value), Finished(IdOf(t0.serial))];
    }
  }

  /** `_job_generate_map`. */
  method RunMapJob(store: Db.Store, root: Path, jobId: string, campaignId: string, width: int, height: int,
                   drawMap: (int, int, string) -> Option<string>)
    requires store.Valid()
    modifies store
    ensures store.Valid()
    ensures store.State() == ApplyAll(old(store.State()), jobId, campaignId,
      MapJobPlan(old(store.serial), ArtifactsDir(root, campaignId), jobId, width, height, drawMap))
  {
    ghost var t0 := store.State();
    var dir := ArtifactsDir(root, campaignId);
    store.UpdateJob(jobId, "running", Some("Generating map"), None);
    ghost var t1 := store.State();
    ghost var t2 := t1;
    var outPath := MapJobPath(dir, jobId, width, height);
    var drawn := drawMap(width, height, outPath);
    if drawn.Some? {
      store.UpdateJob(jobId, "error", Some(drawn.value), None);
    } else {
      var a := store.CreateArtifact(campaignId, MapJobDraft(dir, jobId, width, height));
      t2 := store.State();
      store.UpdateJob(jobId, "done", Some("Done"), Some(a.id));
    }
    OneStageApplied(t0, t1, t2, store.State(), jobId, campaignId, "Generating map", MapOutcome(dir, jobId, width, height, drawMap));
  }

  /** `_job_generate_portraits_pdf`: `present` says whether the uploads directory exists,
      `isDir` whether it is a directory and `entries` lists it; `opens` is what opening each
      image gives, and `writePdf` is what writing
      the laid-out document gives. */
  method RunPortraitJob(store: Db.Store, root: Path, jobId: string, campaignId: string, columns: int, rows: int,
                        present: bool, isDir: bool, entries: seq<string>, opens: string -> Option<string>,
                        writePdf: Option<string>)
    requires store.Valid()
    modifies store
    ensures store.Valid()
    ensures store.State() == ApplyAll(old(store.State()), jobId, campaignId,
      PortraitsJobPlan(old(store.serial), ArtifactsDir(root, campaignId), UploadsDir(root, campaignId), jobId, columns, rows,
        present, isDir, entries, opens, writePdf))
  {
    ghost var t0 := store.State();
    var dir, uploads := ArtifactsDir(root, campaignId), UploadsDir(root, campaignId);
    store.UpdateJob(jobId, "running", Some("Generating PDF"), None);
    ghost var t1 := store.State();
    ghost var t2 := t1;
    var failure: Option<string> := None;
    if !present {
      failure := Some(NoUploads);
    } else {
      var document := PortraitPdf.GeneratePdf(isDir, PathString(uploads), entries, columns, rows, opens);
      if document.Err? {
        failure := Some(document.error);
      } else if writePdf.Some? {
        failure := writePdf;
      }
    }
    if failure.Some? {
      store.UpdateJob(jobId, "error", Some(failure.value), None);
    } else {
      var a := store.CreateArtifact(campaignId, PortraitsDraft(dir, jobId, columns, rows));
      t2 := store.State();
      store.UpdateJob(jobId, "done", Some("Done"), Some(a.id));
    }
    OneStageApplied(t0, t1, t2, store.State(), jobId, campaignId, "Generating PDF",
      PortraitsOutcome(dir, uploads, jobId, columns, rows, present, isDir, entries, opens, writePdf));
  }
}
