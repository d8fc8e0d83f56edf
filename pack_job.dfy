/** `_job_generate_campaign_pack` (src/web/app.py) as the writes it performs, stage by
    stage, and what those writes add up to. */
module PackJob {
  import opened Wrappers
  import opened Text
  import opened PackSchema
  import opened StoreModel
  import opened Paths
  import opened JobPlan

  /** What `render_flowchart_graphviz` does: render both files, find no `dot` program, or raise. */
  datatype Render = Rendered | Unavailable | Raised(error: string)

  const JsonKind: string := "file.campaign_pack_json"
  const MermaidKind: string := "file.flowchart_mermaid"
  const DotKind: string := "file.flowchart_dot"
  const PngKind: string := "file.flowchart_png"
  const FlowPdfKind: string := "file.flowchart_pdf"
  const WarningKind: string := "text.flowchart_render_warning"
  const MapKind: string := "file.map_png"
  const PackPdfKind: string := "file.campaign_pack_pdf"
  const PremiseKind: string := "text.campaign_pack_premise"

  /** The kinds are nine different strings. */
  lemma KindsDistinct()
    ensures |JsonKind| == 23 && |MermaidKind| == 22 && |PackPdfKind| == 22 && |DotKind| == 18 && |PngKind| == 18
    ensures |FlowPdfKind| == 18 && |WarningKind| == 29 && |MapKind| == 12 && |PremiseKind| == 26
    ensures MermaidKind != PackPdfKind && DotKind != PngKind && DotKind != FlowPdfKind && PngKind != FlowPdfKind
  {
    assert MermaidKind[5] != PackPdfKind[5];
    assert DotKind[15] != PngKind[15] && DotKind[15] != FlowPdfKind[15];
    assert PngKind[16] != FlowPdfKind[16];
  }

  /** At most this many locations get a map. */
  const MaxMaps: nat := 6

  /** A top-level pack value as stored in an artifact's meta: a string, or null. */
  function FieldMeta(f: Field): (r: MetaValue)
    ensures r == MNull <==> !f.Text?
  {
    if f.Text? then MStr(f.s) else MNull
  }

  /** `str(out_dir / name)`. */
  function FileIn(dir: Path, name: string): string {
    PathString(dir + [name])
  }

  ////////////////////////////////////////////////////////////////////////////
  // The JSON and diagram sources.

  function JsonDraft(dir: Path, jobId: string, pack: Pack): Draft {
    Draft(JsonKind, "Campaign pack JSON: " + pack.title.Shown(""), None,
      Some(FileIn(dir, "campaign_pack_" + jobId + ".json")), Some([("title", FieldMeta(pack.title))]))
  }

  function MermaidDraft(dir: Path, jobId: string): Draft {
    Draft(MermaidKind, "Decision flow (Mermaid)", None, Some(FileIn(dir, "decision_flow_" + jobId + ".mmd")), Some([]))
  }

  function DotDraft(dir: Path, jobId: string): Draft {
    Draft(DotKind, "Decision flow (Graphviz DOT)", None, Some(FileIn(dir, "decision_flow_" + jobId + ".dot")), Some([]))
  }

  /** The JSON artifact, the progress update, and the Mermaid and DOT artifacts. */
  function SourceOps(dir: Path, jobId: string, pack: Pack): seq<Op> {
    [Create(JsonDraft(dir, jobId, pack)), Running("Writing flowchart"), Create(MermaidDraft(dir, jobId)), Create(DotDraft(dir, jobId))]
  }

  /** The warning stored when rendering raises. */
  function WarningDraft(e: string): Draft {
    Draft(WarningKind, "Flowchart render warning", Some(e), None, Some([]))
  }

  /** The artifacts of the optional render: PNG and PDF, a warning, or nothing. */
  function RenderOps(dir: Path, jobId: string, gv: Render): seq<Op> {
    match gv
    case Rendered => [
      Create(Draft(PngKind, "Decision flow (PNG)", None, Some(FileIn(dir, "decision_flow_" + jobId + ".png")), Some([]))),
      Create(Draft(FlowPdfKind, "Decision flow (PDF)", None, Some(FileIn(dir, "decision_flow_" + jobId + ".pdf")), Some([])))]
    case Unavailable => []
    case Raised(e) => [Create(WarningDraft(e))]
  }

  /** The kinds the render stage stores. */
  function RenderKinds(gv: Render): seq<string> {
    match gv
    case Rendered => [PngKind, FlowPdfKind]
    case Unavailable => []
    case Raised(_) => [WarningKind]
  }

  ////////////////////////////////////////////////////////////////////////////
  // Maps.

  /** `n` copies of a kind. */
  function Repeat(kind: string, n: nat): (r: seq<string>)
    ensures |r| == n && forall k :: 0 <= k < n ==> r[k] == kind
  {
    seq(n, _ => kind)
  }

  lemma {:induction false} RepeatCount(kind: string, n: nat, other: string)
    ensures multiset(Repeat(kind, n))[other] == if other == kind then n else 0
  {
    if n > 0 {
      RepeatCount(kind, n - 1, other);
      assert Repeat(kind, n) == Repeat(kind, n - 1) + [kind];
    }
  }

  /** `(loc.get("name") or "location").strip() or "location"`. */
  function LocationName(raw: string): (r: string)
    ensures r != []
    ensures Strip(raw) != [] ==> r == Strip(raw)
    ensures Strip(raw) == [] ==> r == "location"
  {
    if raw == [] then "location"
    else
      var n := Strip(raw);
      if n == [] then "location" else n
  }

  /** `"_".join(name.split())[:40]`. */
  function SafeName(name: string): string {
    Take(Join("_", Split(name)), 40)
  }

  /** `f"map_{safe_name}_{width}x{height}_{job_id}.png"`. */
  function MapFileName(safe: string, width: int, height: int, jobId: string): string {
    "map_" + safe + "_" + IntToString(width) + "x" + IntToString(height) + "_" + jobId + ".png"
  }

  const IntErrorPrefix: string := "invalid literal for int() with base 10: "

  /** The text of the `ValueError` `int(s)` raises: the argument as `repr` writes it,
      cut after 200 characters (the `%.200R` of the message format). */
  function IntError(s: string): string {
    IntErrorPrefix + Take(Repr(s), 200)
  }

  /** The message never quotes more than 200 characters of `repr`: a short `repr` is
      quoted whole, and a long text's `repr` is cut after its 200th character, so the
      closing quote is lost. */
  lemma IntErrorCut(s: string)
    ensures |IntError(s)| <= |IntErrorPrefix| + 200
    ensures |Repr(s)| <= 200 ==> IntError(s) == IntErrorPrefix + Repr(s)
    ensures |s| >= 199 ==> |IntError(s)| == |IntErrorPrefix| + 200 && IntError(s)[|IntError(s)| - 1] == Repr(s)[199]
  {
    ReprBodyLonger(s, ReprQuote(s));
  }

  const NaNError: string := "cannot convert float NaN to integer"
  const InfinityError: string := "cannot convert float infinity to integer"

  /** `int(x)` of a finite float: the integer part, rounding toward zero. */
  function Truncate(x: real): (r: int)
    ensures x >= 0.0 ==> 0 <= r && r as real <= x < r as real + 1.0
    ensures x < 0.0 ==> r <= 0 && r as real - 1.0 < x <= r as real
  {
    if x >= 0.0 then x.Floor else -((-x).Floor)
  }

  /** `int(map_cfg.get(k) or 20)`. */
  function MapDimension(v: Scalar): (r: Result<int, string>)
    ensures !v.Truthy() ==> r == Ok(20)
    ensures v.Int? && v.i != 0 ==> r == Ok(v.i)
    ensures v == Bool(true) ==> r == Ok(1)
    ensures v.Float? && v.x != 0.0 ==> r == Ok(Truncate(v.x))
    ensures v.NaN? ==> r == Err(NaNError)
    ensures v.Infinity? ==> r == Err(InfinityError)
    ensures v.Str? && v.s != [] ==> (r.Err? <==> ParseInt(v.s).None?)
    ensures v.Str? && v.s != [] && ParseInt(v.s).Some? ==> r == Ok(ParseInt(v.s).value)
    ensures v.Str? && v.s != [] && ParseInt(v.s).None? ==> r == Err(IntError(v.s))
  {
    if !v.Truthy() then Ok(20)
    else
      match v
      case Missing => Ok(20)
      case Bool(_) => Ok(1)
      case Int(i) => Ok(i)
      case Float(x) => Ok(Truncate(x))
      case NaN => Err(NaNError)
      case Infinity(_) => Err(InfinityError)
      case Str(s) =>
        match ParseInt(s)
        case Some(i) => Ok(i)
        case None => Err(IntError(s))
  }

  /** A fractional size is cut toward zero, a zero float falls back to 20, and fullwidth
      digits read as digits. */
  lemma MapDimensionExamples()
    ensures MapDimension(Float(30.5)) == Ok(30)
    ensures MapDimension(Float(-2.5)) == Ok(-2)
    ensures MapDimension(Float(0.0)) == Ok(20)
    ensures MapDimension(Str("\U{FF12}\U{FF10}")) == Ok(20)
  {
    FullwidthDigits();
  }

  /** A size text led by the separator U+001C is not a number to `int`, so the map stage
      raises although `str.isspace` counts the separator as whitespace. */
  lemma MapDimensionSeparator()
    ensures MapDimension(Str("\U{1C}5")) == Err(IntError("\U{1C}5"))
  {
    IntKeepsSeparators();
  }

  /** The error quotes the text as `repr` does: a text holding a single quote is shown in
      double quotes. */
  lemma IntErrorQuotes()
    ensures IntError("5'") == "invalid literal for int() with base 10: \"5'\""
  {
    var s := "5'";
    assert ReprQuote(s) == '"';
    assert ReprChar('5', '"') == "5" && ReprChar('\'', '"') == "'";
    assert s[1..][1..] == [];
    assert ReprBody(s, '"') == "5'";
  }

  function MapDraft(dir: Path, jobId: string, name: string, width: int, height: int): Draft {
    Draft(MapKind, "Map: " + name, None, Some(FileIn(dir, MapFileName(SafeName(name), width, height, jobId))),
      Some([("location", MStr(name)), ("width", MInt(width)), ("height", MInt(height))]))
  }

  /** One location's map: its artifact, or the exception that ends the job. `drawMap`
      is `generate_simple_map(width, height, output_path)`, None when it returns. */
  function MapOp(loc: Location, dir: Path, jobId: string, drawMap: (int, int, string) -> Option<string>): (r: Result<Op, string>)
    ensures r.Ok? ==> r.value.Create? && r.value.draft.kind == MapKind
  {
    var name := LocationName(loc.name);
    match MapDimension(loc.mapSize.width)
    case Err(e) => Err(e)
    case Ok(w) =>
      match MapDimension(loc.mapSize.height)
      case Err(e) => Err(e)
      case Ok(h) =>
        var d := MapDraft(dir, jobId, name, w, h);
        match drawMap(w, h, d.filePath.value)
        case Some(e) => Err(e)
        case None => Ok(Create(d))
  }

  /** `(pack.get("locations") or [])[:6]`. */
  function FirstLocations(locs: seq<Location>): (r: seq<Location>)
    ensures |r| <= MaxMaps && |r| <= |locs| && r == locs[..|r|]
    ensures |locs| <= MaxMaps ==> r == locs
  {
    if |locs| <= MaxMaps then locs else locs[..MaxMaps]
  }

  /** A loop whose body performs one write per item and whose first exception leaves it:
      the writes made before that exception, and the exception. */
  function Steps<X>(xs: seq<X>, step: X -> Result<Op, string>): (r: (seq<Op>, Option<string>))
    ensures |r.0| <= |xs|
  {
    if xs == [] then ([], None)
    else
      var before := Steps(xs[..|xs| - 1], step);
      if before.1.Some? then before
      else
        match step(xs[|xs| - 1])
        case Ok(op) => (before.0 + [op], None)
        case Err(e) => (before.0, Some(e))
  }

  /** The loop over locations. */
  function MapOps(locs: seq<Location>, dir: Path, jobId: string, drawMap: (int, int, string) -> Option<string>): (seq<Op>, Option<string>) {
    Steps(locs, loc => MapOp(loc, dir, jobId, drawMap))
  }

  ////////////////////////////////////////////////////////////////////////////
  // The printable PDF and the premise.

  function PdfDraft(dir: Path, jobId: string, pack: Pack): Draft {
    Draft(PackPdfKind, "Campaign pack (Printable PDF)", None, Some(FileIn(dir, "campaign_pack_" + jobId + ".pdf")),
      Some([("title", FieldMeta(pack.title))]))
  }

  /** The premise text artifact, which records the ids of the other artifacts. */
  function PremiseDraft(pack: Pack, jsonId: string, mermaidId: string, dotId: string, rendered: bool, pdfId: string): Draft {
    Draft(PremiseKind, "Premise: " + pack.title.Shown("Campaign pack"), pack.premise.Value(""), None,
      Some([
        ("starting_location", FieldMeta(pack.startingLocation)),
        ("json_artifact_id", MStr(jsonId)),
        ("flow_mermaid_artifact_id", MStr(mermaidId)),
        ("flow_dot_artifact_id", MStr(dotId)),
        ("flow_rendered", MBool(rendered)),
        ("pdf_artifact_id", MStr(pdfId))]))
  }

  /** The last stage; `writePdf` is `write_campaign_pack_pdf`, None when it returns, `s`
      is the serial at which the run started and `made` the number of artifacts stored
      before the PDF. */
  function FinishOps(s: nat, made: nat, dir: Path, jobId: string, pack: Pack, rendered: bool, writePdf: Option<string>): seq<Op> {
    var pdfId := IdOf(s + made);
    [Running("Writing printable PDF")]
    + if writePdf.Some? then [Failed(writePdf.value)]
      else [Create(PdfDraft(dir, jobId, pack)), Create(PremiseDraft(pack, IdOf(s), IdOf(s + 1), IdOf(s + 2), rendered, pdfId)), Finished(pdfId)]
  }

  /** The stages after building, once each stage's writes are known: the sources, the
      render, the maps until the first exception, then that exception or the last stage. */
  function Assemble(src: seq<Op>, render: seq<Op>, maps: seq<Op>, mapFailure: Option<string>, finish: seq<Op>): seq<Op> {
    src + render + [Running("Generating maps")] + maps + (if mapFailure.Some? then [Failed(mapFailure.value)] else finish)
  }

  /** How many artifacts the job stores before the PDF: the three sources, the render's, the maps. */
  function PdfIndex(dir: Path, jobId: string, pack: Pack, gv: Render, drawMap: (int, int, string) -> Option<string>): nat {
    3 + |RenderOps(dir, jobId, gv)| + |MapOps(FirstLocations(pack.locations), dir, jobId, drawMap).0|
  }

  /** Everything after the pack is built. */
  function PackStages(s: nat, dir: Path, jobId: string, pack: Pack, gv: Render,
                      drawMap: (int, int, string) -> Option<string>, writePdf: Option<string>): seq<Op>
  {
    var maps := MapOps(FirstLocations(pack.locations), dir, jobId, drawMap);
    Assemble(SourceOps(dir, jobId, pack), RenderOps(dir, jobId, gv), maps.0, maps.1,
      FinishOps(s, PdfIndex(dir, jobId, pack, gv, drawMap), dir, jobId, pack, gv.Rendered?, writePdf))
  }

  /** The whole job, given the builder's outcome. */
  function PackPlan(s: nat, dir: Path, jobId: string, built: Result<Pack, string>, gv: Render,
                    drawMap: (int, int, string) -> Option<string>, writePdf: Option<string>): seq<Op>
  {
    [Running("Designing campaign")]
    + match built
      case Err(e) => [Failed(e)]
      case Ok(pack) => PackStages(s, dir, jobId, pack, gv, drawMap, writePdf)
  }

  /** No stage after building raises. */
  predicate Completes(pack: Pack, dir: Path, jobId: string, drawMap: (int, int, string) -> Option<string>, writePdf: Option<string>) {
    MapOps(FirstLocations(pack.locations), dir, jobId, drawMap).1.None? && writePdf.None?
  }

  ////////////////////////////////////////////////////////////////////////////
  // The parts of the plan.

  /** The loop's writes are those of a leading run of items whose step succeeds; when it
      stops early, the next item's step raised the exception it reports. */
  lemma {:induction false} StepsShape<X>(xs: seq<X>, step: X -> Result<Op, string>)
    ensures var r := Steps(xs, step);
      && (forall k :: 0 <= k < |r.0| ==> step(xs[k]) == Ok(r.0[k]))
      && (r.1.None? ==> |r.0| == |xs|)
      && (r.1.Some? ==> |r.0| < |xs| && step(xs[|r.0|]) == Err(r.1.value))
  {
    if xs != [] {
      var init := xs[..|xs| - 1];
      StepsShape(init, step);
      var before := Steps(init, step);
      var r := Steps(xs, step);
      forall k | 0 <= k < |init| ensures xs[k] == init[k] {
      }
      if before.1.None? {
        var m := step(xs[|xs| - 1]);
        if m.Ok? {
          assert r == (before.0 + [m.value], None);
          forall k | 0 <= k < |r.0| ensures step(xs[k]) == Ok(r.0[k]) {
            if k < |before.0| {
              assert r.0[k] == before.0[k];
            }
          }
        } else {
          assert r == (before.0, Some(m.error));
        }
      } else {
        assert r == before;
      }
    }
  }

  /** The map loop gives the artifacts of a leading run of locations whose maps succeed,
      all of kind `file.map_png`; when it stops early, the next location's map raised
      the exception it reports. */
  lemma MapOpsShape(locs: seq<Location>, dir: Path, jobId: string, drawMap: (int, int, string) -> Option<string>)
    ensures var r := MapOps(locs, dir, jobId, drawMap);
      && AllCreates(r.0)
      && (forall k :: 0 <= k < |r.0| ==> MapOp(locs[k], dir, jobId, drawMap) == Ok(r.0[k]) && r.0[k].draft.kind == MapKind)
      && (r.1.None? ==> |r.0| == |locs|)
      && (r.1.Some? ==> |r.0| < |locs| && MapOp(locs[|r.0|], dir, jobId, drawMap) == Err(r.1.value))
  {
    var step := loc => MapOp(loc, dir, jobId, drawMap);
    StepsShape(locs, step);
    var r := MapOps(locs, dir, jobId, drawMap);
    forall k | 0 <= k < |r.0| ensures MapOp(locs[k], dir, jobId, drawMap) == Ok(r.0[k]) {
      assert step(locs[k]) == Ok(r.0[k]);
    }
  }

  /** The maps all succeed exactly when every one of the locations' maps does. */
  lemma MapsSucceedIff(locs: seq<Location>, dir: Path, jobId: string, drawMap: (int, int, string) -> Option<string>)
    ensures MapOps(locs, dir, jobId, drawMap).1.None? <==> forall k :: 0 <= k < |locs| ==> MapOp(locs[k], dir, jobId, drawMap).Ok?
  {
    MapOpsShape(locs, dir, jobId, drawMap);
  }

  /** The map drafts are the drafts of the map ops, all of kind `file.map_png`. */
  lemma MapDrafts(locs: seq<Location>, dir: Path, jobId: string, drawMap: (int, int, string) -> Option<string>)
    ensures var ops := MapOps(locs, dir, jobId, drawMap).0;
      && |Drafts(ops)| == |ops| && Updates(ops) == []
      && CountKind(Drafts(ops), MapKind) == |ops|
      && (forall kind :: kind != MapKind ==> CountKind(Drafts(ops), kind) == 0)
      && Kinds(Drafts(ops)) == Repeat(MapKind, |ops|)
  {
    var ops := MapOps(locs, dir, jobId, drawMap).0;
    MapOpsShape(locs, dir, jobId, drawMap);
    CreatesOnly(ops);
    var ds := Drafts(ops);
    forall k | 0 <= k < |ds| ensures ds[k].kind == MapKind {
      assert ds[k] == ops[k].draft;
    }
    CountKindAll(ds, MapKind);
    forall kind | kind != MapKind ensures CountKind(ds, kind) == 0 {
      CountKindAbsent(ds, kind);
    }
    assert Kinds(ds) == Repeat(MapKind, |ops|);
  }

  lemma SourceParts(dir: Path, jobId: string, pack: Pack)
    ensures Drafts(SourceOps(dir, jobId, pack)) == [JsonDraft(dir, jobId, pack), MermaidDraft(dir, jobId), DotDraft(dir, jobId)]
    ensures Updates(SourceOps(dir, jobId, pack)) == [Running("Writing flowchart")]
  {
    WritesOfFour(Create(JsonDraft(dir, jobId, pack)), Running("Writing flowchart"), Create(MermaidDraft(dir, jobId)), Create(DotDraft(dir, jobId)));
  }

  lemma RenderParts(dir: Path, jobId: string, gv: Render)
    ensures AllCreates(RenderOps(dir, jobId, gv))
    ensures |Drafts(RenderOps(dir, jobId, gv))| == |RenderOps(dir, jobId, gv)| && Updates(RenderOps(dir, jobId, gv)) == []
    ensures Kinds(Drafts(RenderOps(dir, jobId, gv))) == RenderKinds(gv)
    ensures gv.Raised? ==> Drafts(RenderOps(dir, jobId, gv)) == [WarningDraft(gv.error)]
  {
    var ops := RenderOps(dir, jobId, gv);
    CreatesOnly(ops);
  }

  lemma FinishParts(s: nat, made: nat, dir: Path, jobId: string, pack: Pack, rendered: bool, writePdf: Option<string>)
    ensures var ops := FinishOps(s, made, dir, jobId, pack, rendered, writePdf);
      && Drafts(ops) == (if writePdf.Some? then [] else
           [PdfDraft(dir, jobId, pack), PremiseDraft(pack, IdOf(s), IdOf(s + 1), IdOf(s + 2), rendered, IdOf(s + made))])
      && Updates(ops) == [Running("Writing printable PDF")]
           + (if writePdf.Some? then [Failed(writePdf.value)] else [Finished(IdOf(s + made))])
  {
    var u := Running("Writing printable PDF");
    if writePdf.Some? {
      assert FinishOps(s, made, dir, jobId, pack, rendered, writePdf) == [u, Failed(writePdf.value)];
      WritesOfTwo(u, Failed(writePdf.value));
    } else {
      var pdf := Create(PdfDraft(dir, jobId, pack));
      var premise := Create(PremiseDraft(pack, IdOf(s), IdOf(s + 1), IdOf(s + 2), rendered, IdOf(s + made)));
      var fin := Finished(IdOf(s + made));
      assert FinishOps(s, made, dir, jobId, pack, rendered, writePdf) == [u, pdf, premise, fin];
      WritesOfFour(u, pdf, premise, fin);
    }
  }

  /** The stages as artifacts and updates, for any writes of the stages that fit their roles. */
  lemma AssembleParts(src: seq<Op>, render: seq<Op>, maps: seq<Op>, mapFailure: Option<string>, finish: seq<Op>)
    requires Updates(render) == [] && Updates(maps) == []
    ensures Drafts(Assemble(src, render, maps, mapFailure, finish))
      == Drafts(src) + Drafts(render) + Drafts(maps) + (if mapFailure.Some? then [] else Drafts(finish))
    ensures Updates(Assemble(src, render, maps, mapFailure, finish))
      == Updates(src) + [Running("Generating maps")] + (if mapFailure.Some? then [Failed(mapFailure.value)] else Updates(finish))
  {
    var g := [Running("Generating maps")];
    var tail := if mapFailure.Some? then [Failed(mapFailure.value)] else finish;
    WritesOfOne(Running("Generating maps"));
    if mapFailure.Some? {
      WritesOfOne(Failed(mapFailure.value));
    }
    Append5Parts(src, render, g, maps, tail);
  }

  /** The stages after building, as the artifacts they store and the updates they post. */
  lemma StagesParts(s: nat, dir: Path, jobId: string, pack: Pack, gv: Render,
                    drawMap: (int, int, string) -> Option<string>, writePdf: Option<string>)
    ensures var maps := MapOps(FirstLocations(pack.locations), dir, jobId, drawMap);
      var finish := FinishOps(s, PdfIndex(dir, jobId, pack, gv, drawMap), dir, jobId, pack, gv.Rendered?, writePdf);
      var ops := PackStages(s, dir, jobId, pack, gv, drawMap, writePdf);
      && Drafts(ops) == [JsonDraft(dir, jobId, pack), MermaidDraft(dir, jobId), DotDraft(dir, jobId)]
           + Drafts(RenderOps(dir, jobId, gv)) + Drafts(maps.0) + (if maps.1.Some? then [] else Drafts(finish))
      && Updates(ops) == [Running("Writing flowchart"), Running("Generating maps")]
           + (if maps.1.Some? then [Failed(maps.1.value)] else Updates(finish))
  {
    var maps := MapOps(FirstLocations(pack.locations), dir, jobId, drawMap);
    var finish := FinishOps(s, PdfIndex(dir, jobId, pack, gv, drawMap), dir, jobId, pack, gv.Rendered?, writePdf);
    RenderParts(dir, jobId, gv);
    MapDrafts(FirstLocations(pack.locations), dir, jobId, drawMap);
    SourceParts(dir, jobId, pack);
    AssembleParts(SourceOps(dir, jobId, pack), RenderOps(dir, jobId, gv), maps.0, maps.1, finish);
    assert [Running("Writing flowchart")] + [Running("Generating maps")] == [Running("Writing flowchart"), Running("Generating maps")];
  }

  /** The whole job, as the artifacts it stores and the updates it posts. */
  lemma PlanParts(s: nat, dir: Path, jobId: string, built: Result<Pack, string>, gv: Render,
                  drawMap: (int, int, string) -> Option<string>, writePdf: Option<string>)
    ensures var ops := PackPlan(s, dir, jobId, built, gv, drawMap, writePdf);
      match built
      case Err(e) => Drafts(ops) == [] && Updates(ops) == [Running("Designing campaign"), Failed(e)]
      case Ok(pack) =>
        var stages := PackStages(s, dir, jobId, pack, gv, drawMap, writePdf);
        Drafts(ops) == Drafts(stages) && Updates(ops) == [Running("Designing campaign")] + Updates(stages)
  {
    match built
    case Err(e) =>
      assert PackPlan(s, dir, jobId, built, gv, drawMap, writePdf) == [Running("Designing campaign"), Failed(e)];
      WritesOfTwo(Running("Designing campaign"), Failed(e));
    case Ok(pack) =>
      Cons(Running("Designing campaign"), PackStages(s, dir, jobId, pack, gv, drawMap, writePdf));
  }

  ////////////////////////////////////////////////////////////////////////////
  // What the job stores and posts.

  /** The exception that ends the job, if any: the builder's, then the first map's, then the PDF writer's. */
  function Failure(dir: Path, jobId: string, built: Result<Pack, string>,
                   drawMap: (int, int, string) -> Option<string>, writePdf: Option<string>): (r: Option<string>)
    ensures r.None? <==> built.Ok? && Completes(built.value, dir, jobId, drawMap, writePdf)
  {
    match built
    case Err(e) => Some(e)
    case Ok(pack) =>
      var maps := MapOps(FirstLocations(pack.locations), dir, jobId, drawMap);
      if maps.1.Some? then maps.1 else writePdf
  }

  /** The update that ends a job: the exception, or success with the PDF's id. */
  function FinalOp(failure: Option<string>, pdfId: string): (r: Op)
    ensures r.Update? && (r.status == "done" <==> failure.None?)
  {
    match failure
    case Some(e) => Failed(e)
    case None => Finished(pdfId)
  }

  /** The artifacts of a run whose pack was built, from the artifacts of its stages. */
  lemma BuiltDrafts(d: seq<Draft>, stages: seq<Draft>, head: seq<Draft>, mapsFailed: bool, finish: seq<Draft>, end: seq<Draft>)
    requires d == stages
    requires stages == head + (if mapsFailed then [] else finish)
    requires !mapsFailed ==> finish == end
    requires mapsFailed ==> end == []
    ensures d == head + end
  {
  }

  /** The PDF and the premise, stored when nothing raised. */
  function PackTail(s: nat, dir: Path, jobId: string, pack: Pack, gv: Render,
                    drawMap: (int, int, string) -> Option<string>, writePdf: Option<string>): seq<Draft> {
    if Completes(pack, dir, jobId, drawMap, writePdf)
    then [PdfDraft(dir, jobId, pack), PremiseDraft(pack, IdOf(s), IdOf(s + 1), IdOf(s + 2), gv.Rendered?, IdOf(s + PdfIndex(dir, jobId, pack, gv, drawMap)))]
    else []
  }

  /** The artifacts of a built pack, in order: the JSON, the two diagram sources, what the
      render gave, the maps, and when nothing raised the PDF and the premise. */
  lemma PackDrafts(s: nat, dir: Path, jobId: string, pack: Pack, gv: Render,
                   drawMap: (int, int, string) -> Option<string>, writePdf: Option<string>)
    ensures Drafts(PackPlan(s, dir, jobId, Ok(pack), gv, drawMap, writePdf))
        == [JsonDraft(dir, jobId, pack), MermaidDraft(dir, jobId), DotDraft(dir, jobId)]
           + Drafts(RenderOps(dir, jobId, gv)) + Drafts(MapOps(FirstLocations(pack.locations), dir, jobId, drawMap).0)
           + PackTail(s, dir, jobId, pack, gv, drawMap, writePdf)
  {
    var maps := MapOps(FirstLocations(pack.locations), dir, jobId, drawMap);
    var finish := FinishOps(s, PdfIndex(dir, jobId, pack, gv, drawMap), dir, jobId, pack, gv.Rendered?, writePdf);
    var d := Drafts(PackPlan(s, dir, jobId, Ok(pack), gv, drawMap, writePdf));
    var stages := Drafts(PackStages(s, dir, jobId, pack, gv, drawMap, writePdf));
    var head := [JsonDraft(dir, jobId, pack), MermaidDraft(dir, jobId), DotDraft(dir, jobId)] + Drafts(RenderOps(dir, jobId, gv)) + Drafts(maps.0);
    var tail := PackTail(s, dir, jobId, pack, gv, drawMap, writePdf);
    PlanParts(s, dir, jobId, Ok(pack), gv, drawMap, writePdf);
    StagesParts(s, dir, jobId, pack, gv, drawMap, writePdf);
    FinishParts(s, PdfIndex(dir, jobId, pack, gv, drawMap), dir, jobId, pack, gv.Rendered?, writePdf);
    assert maps.1.None? ==> Drafts(finish) == tail;
    BuiltDrafts(d, stages, head, maps.1.Some?, Drafts(finish), tail);
  }

  /** The updates of a run whose pack was built, from the updates of its stages. */
  lemma BuiltTrace(u: seq<Op>, stages: seq<Op>, mapFailure: Option<string>, finish: seq<Op>, last: Op)
    requires u == [Running("Designing campaign")] + stages
    requires stages == [Running("Writing flowchart"), Running("Generating maps")] + (if mapFailure.Some? then [Failed(mapFailure.value)] else finish)
    requires mapFailure.Some? ==> last == Failed(mapFailure.value)
    requires mapFailure.None? ==> finish == [Running("Writing printable PDF")] + [last]
    ensures ProgressUntil(u, last) && u[0] == Running("Designing campaign")
  {
    var front := [Running("Designing campaign"), Running("Writing flowchart"), Running("Generating maps")];
    if mapFailure.Some? {
      assert u == front + [last];
      ProgressThen(u, front, last);
    } else {
      assert u == front + [Running("Writing printable PDF")] + [last];
      ProgressThen(u, front + [Running("Writing printable PDF")], last);
    }
  }

  /** A built pack's job posts progress updates and then one final update: the first
      exception, or `done` with the id the PDF gets. */
  lemma PackUpdates(s: nat, dir: Path, jobId: string, pack: Pack, gv: Render,
                    drawMap: (int, int, string) -> Option<string>, writePdf: Option<string>)
    ensures var u := Updates(PackPlan(s, dir, jobId, Ok(pack), gv, drawMap, writePdf));
      && ProgressUntil(u, FinalOp(Failure(dir, jobId, Ok(pack), drawMap, writePdf), IdOf(s + PdfIndex(dir, jobId, pack, gv, drawMap))))
      && u[0] == Running("Designing campaign")
  {
    var maps := MapOps(FirstLocations(pack.locations), dir, jobId, drawMap);
    var finish := FinishOps(s, PdfIndex(dir, jobId, pack, gv, drawMap), dir, jobId, pack, gv.Rendered?, writePdf);
    PlanParts(s, dir, jobId, Ok(pack), gv, drawMap, writePdf);
    StagesParts(s, dir, jobId, pack, gv, drawMap, writePdf);
    FinishParts(s, PdfIndex(dir, jobId, pack, gv, drawMap), dir, jobId, pack, gv.Rendered?, writePdf);
    BuiltTrace(Updates(PackPlan(s, dir, jobId, Ok(pack), gv, drawMap, writePdf)), Updates(PackStages(s, dir, jobId, pack, gv, drawMap, writePdf)),
      maps.1, Updates(finish), FinalOp(Failure(dir, jobId, Ok(pack), drawMap, writePdf), IdOf(s + PdfIndex(dir, jobId, pack, gv, drawMap))));
  }

  /** When the builder raises, the job stores nothing and ends in `error` with its message. */
  lemma BuildFailure(t: Tables, jobId: string, campaignId: string, dir: Path, e: string, gv: Render,
                     drawMap: (int, int, string) -> Option<string>, writePdf: Option<string>)
    requires GetJob(t, jobId).Some?
    ensures var t' := ApplyAll(t, jobId, campaignId, PackPlan(t.serial, dir, jobId, Err(e), gv, drawMap, writePdf));
      t'.artifacts == t.artifacts && t'.campaigns == t.campaigns && EndedIn(t', jobId, Failed(e))
  {
    var plan := PackPlan(t.serial, dir, jobId, Err(e), gv, drawMap, writePdf);
    PlanParts(t.serial, dir, jobId, Err(e), gv, drawMap, writePdf);
    NothingCreated(t, jobId, campaignId, plan);
    ProgressThen(Updates(plan), [Running("Designing campaign")], Failed(e));
    EndsAt(t, jobId, campaignId, plan, Failed(e));
  }

  /** When nothing raises, the job ends `done` naming the printable PDF, which is stored
      in the job's campaign. (Conclusions about the final tables are compared with `true`
      so that the verifier checks the predicate whole instead of conjunct by conjunct.) */
  lemma PackDone(t: Tables, jobId: string, campaignId: string, dir: Path, pack: Pack, gv: Render,
                 drawMap: (int, int, string) -> Option<string>, writePdf: Option<string>)
    requires Valid(t) && GetJob(t, jobId).Some?
    requires Completes(pack, dir, jobId, drawMap, writePdf)
    ensures EndedDone(ApplyAll(t, jobId, campaignId, PackPlan(t.serial, dir, jobId, Ok(pack), gv, drawMap, writePdf)),
                      jobId, IdOf(t.serial + PdfIndex(dir, jobId, pack, gv, drawMap)), PackPdfKind, campaignId) == true
  {
    var id := IdOf(t.serial + PdfIndex(dir, jobId, pack, gv, drawMap));
    DoneFacts(t.serial, dir, jobId, pack, gv, drawMap, writePdf, id);
    JobPlan.EndsDone(t, jobId, campaignId, PackPlan(t.serial, dir, jobId, Ok(pack), gv, drawMap, writePdf),
      PdfIndex(dir, jobId, pack, gv, drawMap), PackPdfKind, id);
  }

  /** What `PackDone` needs of the plan: progress up to the final update, which names the PDF. */
  lemma DoneFacts(s: nat, dir: Path, jobId: string, pack: Pack, gv: Render,
                  drawMap: (int, int, string) -> Option<string>, writePdf: Option<string>, id: string)
    requires Completes(pack, dir, jobId, drawMap, writePdf)
    requires id == IdOf(s + PdfIndex(dir, jobId, pack, gv, drawMap))
    ensures var plan := PackPlan(s, dir, jobId, Ok(pack), gv, drawMap, writePdf);
      var i := PdfIndex(dir, jobId, pack, gv, drawMap);
      && ProgressUntil(Updates(plan), Finished(id))
      && i < |Drafts(plan)| && Drafts(plan)[i].kind == PackPdfKind
  {
    PackUpdates(s, dir, jobId, pack, gv, drawMap, writePdf);
    assert Failure(dir, jobId, Ok(pack), drawMap, writePdf) == None;
    PdfAt(s, dir, jobId, pack, gv, drawMap, writePdf);
  }

  /** When nothing raises, the PDF is the artifact at `PdfIndex` and the premise follows it. */
  lemma PdfAt(s: nat, dir: Path, jobId: string, pack: Pack, gv: Render,
              drawMap: (int, int, string) -> Option<string>, writePdf: Option<string>)
    requires Completes(pack, dir, jobId, drawMap, writePdf)
    ensures var ds := Drafts(PackPlan(s, dir, jobId, Ok(pack), gv, drawMap, writePdf));
      var i := PdfIndex(dir, jobId, pack, gv, drawMap);
      && |ds| == i + 2
      && ds[i] == PdfDraft(dir, jobId, pack)
      && ds[i + 1] == PremiseDraft(pack, IdOf(s), IdOf(s + 1), IdOf(s + 2), gv.Rendered?, IdOf(s + i))
  {
    var maps := MapOps(FirstLocations(pack.locations), dir, jobId, drawMap);
    PackDrafts(s, dir, jobId, pack, gv, drawMap, writePdf);
    RenderParts(dir, jobId, gv);
    MapDrafts(FirstLocations(pack.locations), dir, jobId, drawMap);
    var i := PdfIndex(dir, jobId, pack, gv, drawMap);
    TwoAfter([JsonDraft(dir, jobId, pack), MermaidDraft(dir, jobId), DotDraft(dir, jobId)] + Drafts(RenderOps(dir, jobId, gv)) + Drafts(maps.0),
      PackTail(s, dir, jobId, pack, gv, drawMap, writePdf),
      PdfDraft(dir, jobId, pack), PremiseDraft(pack, IdOf(s), IdOf(s + 1), IdOf(s + 2), gv.Rendered?, IdOf(s + i)),
      Drafts(PackPlan(s, dir, jobId, Ok(pack), gv, drawMap, writePdf)), i);
  }

  lemma TwoAfter(head: seq<Draft>, tail: seq<Draft>, a: Draft, b: Draft, ds: seq<Draft>, i: nat)
    requires ds == head + tail && tail == [a, b] && i == |head|
    ensures |ds| == i + 2 && ds[i] == a && ds[i + 1] == b
  {
  }

  /** The kinds a built pack stores, in order. */
  lemma PackKinds(s: nat, dir: Path, jobId: string, pack: Pack, gv: Render,
                  drawMap: (int, int, string) -> Option<string>, writePdf: Option<string>)
    ensures Kinds(Drafts(PackPlan(s, dir, jobId, Ok(pack), gv, drawMap, writePdf)))
        == [JsonKind, MermaidKind, DotKind] + RenderKinds(gv)
           + Repeat(MapKind, |MapOps(FirstLocations(pack.locations), dir, jobId, drawMap).0|)
           + (if Completes(pack, dir, jobId, drawMap, writePdf) then [PackPdfKind, PremiseKind] else [])
  {
    var maps := MapOps(FirstLocations(pack.locations), dir, jobId, drawMap);
    var a := [JsonDraft(dir, jobId, pack), MermaidDraft(dir, jobId), DotDraft(dir, jobId)];
    var d := PackTail(s, dir, jobId, pack, gv, drawMap, writePdf);
    PackDrafts(s, dir, jobId, pack, gv, drawMap, writePdf);
    RenderParts(dir, jobId, gv);
    MapDrafts(FirstLocations(pack.locations), dir, jobId, drawMap);
    SourceKinds(dir, jobId, pack);
    TailKinds(s, dir, jobId, pack, gv, drawMap, writePdf);
    KindsJoin(Drafts(PackPlan(s, dir, jobId, Ok(pack), gv, drawMap, writePdf)), a, Drafts(RenderOps(dir, jobId, gv)), Drafts(maps.0), d,
      [JsonKind, MermaidKind, DotKind], RenderKinds(gv), Repeat(MapKind, |maps.0|),
      if Completes(pack, dir, jobId, drawMap, writePdf) then [PackPdfKind, PremiseKind] else []);
  }

  lemma SourceKinds(dir: Path, jobId: string, pack: Pack)
    ensures Kinds([JsonDraft(dir, jobId, pack), MermaidDraft(dir, jobId), DotDraft(dir, jobId)]) == [JsonKind, MermaidKind, DotKind]
  {
    var a, b, c := JsonDraft(dir, jobId, pack), MermaidDraft(dir, jobId), DotDraft(dir, jobId);
    assert Kinds([a, b, c]) == [a.kind, b.kind, c.kind];
  }

  lemma TailKinds(s: nat, dir: Path, jobId: string, pack: Pack, gv: Render,
                  drawMap: (int, int, string) -> Option<string>, writePdf: Option<string>)
    ensures Kinds(PackTail(s, dir, jobId, pack, gv, drawMap, writePdf))
      == if Completes(pack, dir, jobId, drawMap, writePdf) then [PackPdfKind, PremiseKind] else []
  {
    if Completes(pack, dir, jobId, drawMap, writePdf) {
      var a, b := PdfDraft(dir, jobId, pack), PremiseDraft(pack, IdOf(s), IdOf(s + 1), IdOf(s + 2), gv.Rendered?, IdOf(s + PdfIndex(dir, jobId, pack, gv, drawMap)));
      assert Kinds([a, b]) == [a.kind, b.kind];
    }
  }

  lemma KindsJoin(ds: seq<Draft>, a: seq<Draft>, b: seq<Draft>, c: seq<Draft>, d: seq<Draft>,
                  ka: seq<string>, kb: seq<string>, kc: seq<string>, kd: seq<string>)
    requires ds == a + b + c + d
    requires Kinds(a) == ka && Kinds(b) == kb && Kinds(c) == kc && Kinds(d) == kd
    ensures Kinds(ds) == ka + kb + kc + kd
  {
    KindsAppend(a, b);
    KindsAppend(a + b, c);
    KindsAppend(a + b + c, d);
  }

  /** How many artifacts of each kind a built pack stores: one JSON and one of each diagram
      source; a PNG and a PDF of the flowchart when it rendered; a warning when rendering
      raised; one map for each location drawn, at most six and all the first six when
      none failed; and the PDF and the premise exactly when nothing raised. */
  lemma PackCounts(s: nat, dir: Path, jobId: string, pack: Pack, gv: Render,
                   drawMap: (int, int, string) -> Option<string>, writePdf: Option<string>)
    ensures var ds := Drafts(PackPlan(s, dir, jobId, Ok(pack), gv, drawMap, writePdf));
      var maps := MapOps(FirstLocations(pack.locations), dir, jobId, drawMap);
      var done := if Completes(pack, dir, jobId, drawMap, writePdf) then 1 else 0;
      && CountKind(ds, JsonKind) == 1 && CountKind(ds, MermaidKind) == 1 && CountKind(ds, DotKind) == 1
      && CountKind(ds, PngKind) == (if gv.Rendered? then 1 else 0)
      && CountKind(ds, FlowPdfKind) == (if gv.Rendered? then 1 else 0)
      && CountKind(ds, WarningKind) == (if gv.Raised? then 1 else 0)
      && CountKind(ds, MapKind) == |maps.0| <= MaxMaps
      && (maps.1.None? ==> |maps.0| == |FirstLocations(pack.locations)|)
      && CountKind(ds, PackPdfKind) == done && CountKind(ds, PremiseKind) == done
  {
    var ds := Drafts(PackPlan(s, dir, jobId, Ok(pack), gv, drawMap, writePdf));
    var maps := MapOps(FirstLocations(pack.locations), dir, jobId, drawMap);
    PackKinds(s, dir, jobId, pack, gv, drawMap, writePdf);
    MapOpsShape(FirstLocations(pack.locations), dir, jobId, drawMap);
    KindCounts(ds, gv, |maps.0|, Completes(pack, dir, jobId, drawMap, writePdf));
  }

  lemma KindCounts(ds: seq<Draft>, gv: Render, n: nat, done: bool)
    requires Kinds(ds) == [JsonKind, MermaidKind, DotKind] + RenderKinds(gv) + Repeat(MapKind, n)
                          + (if done then [PackPdfKind, PremiseKind] else [])
    ensures CountKind(ds, JsonKind) == 1 && CountKind(ds, MermaidKind) == 1 && CountKind(ds, DotKind) == 1
    ensures CountKind(ds, PngKind) == (if gv.Rendered? then 1 else 0)
    ensures CountKind(ds, FlowPdfKind) == (if gv.Rendered? then 1 else 0)
    ensures CountKind(ds, WarningKind) == (if gv.Raised? then 1 else 0)
    ensures CountKind(ds, MapKind) == n
    ensures CountKind(ds, PackPdfKind) == (if done then 1 else 0) && CountKind(ds, PremiseKind) == (if done then 1 else 0)
  {
    SourceCounts(ds, gv, n, done);
    RenderCounts(ds, gv, n, done);
    TailCounts(ds, gv, n, done);
  }

  lemma SourceCounts(ds: seq<Draft>, gv: Render, n: nat, done: bool)
    requires Kinds(ds) == [JsonKind, MermaidKind, DotKind] + RenderKinds(gv) + Repeat(MapKind, n)
                          + (if done then [PackPdfKind, PremiseKind] else [])
    ensures CountKind(ds, JsonKind) == 1 && CountKind(ds, MermaidKind) == 1 && CountKind(ds, DotKind) == 1
  {
    KindsDistinct();
    var ka := [JsonKind, MermaidKind, DotKind];
    var kb := RenderKinds(gv);
    var kc := Repeat(MapKind, n);
    var kd: seq<string> := if done then [PackPdfKind, PremiseKind] else [];
    RepeatCount(MapKind, n, JsonKind);
    RepeatCount(MapKind, n, MermaidKind);
    RepeatCount(MapKind, n, DotKind);
    CountOf(ds, ka, kb, kc, kd, JsonKind);
    CountOf(ds, ka, kb, kc, kd, MermaidKind);
    CountOf(ds, ka, kb, kc, kd, DotKind);
  }

  lemma RenderCounts(ds: seq<Draft>, gv: Render, n: nat, done: bool)
    requires Kinds(ds) == [JsonKind, MermaidKind, DotKind] + RenderKinds(gv) + Repeat(MapKind, n)
                          + (if done then [PackPdfKind, PremiseKind] else [])
    ensures CountKind(ds, PngKind) == (if gv.Rendered? then 1 else 0)
    ensures CountKind(ds, FlowPdfKind) == (if gv.Rendered? then 1 else 0)
    ensures CountKind(ds, WarningKind) == (if gv.Raised? then 1 else 0)
  {
    KindsDistinct();
    var ka := [JsonKind, MermaidKind, DotKind];
    var kb := RenderKinds(gv);
    var kc := Repeat(MapKind, n);
    var kd: seq<string> := if done then [PackPdfKind, PremiseKind] else [];
    RepeatCount(MapKind, n, PngKind);
    RepeatCount(MapKind, n, FlowPdfKind);
    RepeatCount(MapKind, n, WarningKind);
    CountOf(ds, ka, kb, kc, kd, PngKind);
    CountOf(ds, ka, kb, kc, kd, FlowPdfKind);
    CountOf(ds, ka, kb, kc, kd, WarningKind);
  }

  lemma TailCounts(ds: seq<Draft>, gv: Render, n: nat, done: bool)
    requires Kinds(ds) == [JsonKind, MermaidKind, DotKind] + RenderKinds(gv) + Repeat(MapKind, n)
                          + (if done then [PackPdfKind, PremiseKind] else [])
    ensures CountKind(ds, MapKind) == n
    ensures CountKind(ds, PackPdfKind) == (if done then 1 else 0) && CountKind(ds, PremiseKind) == (if done then 1 else 0)
  {
    KindsDistinct();
    var ka := [JsonKind, MermaidKind, DotKind];
    var kb := RenderKinds(gv);
    var kc := Repeat(MapKind, n);
    var kd: seq<string> := if done then [PackPdfKind, PremiseKind] else [];
    RepeatCount(MapKind, n, MapKind);
    RepeatCount(MapKind, n, PackPdfKind);
    RepeatCount(MapKind, n, PremiseKind);
    CountOf(ds, ka, kb, kc, kd, MapKind);
    CountOf(ds, ka, kb, kc, kd, PackPdfKind);
    CountOf(ds, ka, kb, kc, kd, PremiseKind);
    if done {
      assert multiset(kd)[PackPdfKind] == 1 && multiset(kd)[PremiseKind] == 1;
    }
  }

  lemma CountOf(ds: seq<Draft>, ka: seq<string>, kb: seq<string>, kc: seq<string>, kd: seq<string>, kind: string)
    requires Kinds(ds) == ka + kb + kc + kd
    ensures CountKind(ds, kind) == multiset(ka)[kind] + multiset(kb)[kind] + multiset(kc)[kind] + multiset(kd)[kind]
  {
    CountKindIsMultiplicity(ds, kind);
  }

  /** When a map or the PDF raises, the job ends in `error` with that message and names no
      artifact; what was stored before stays, and no PDF or premise is stored. */
  lemma PackFails(t: Tables, jobId: string, campaignId: string, dir: Path, pack: Pack, gv: Render,
                  drawMap: (int, int, string) -> Option<string>, writePdf: Option<string>)
    requires GetJob(t, jobId).Some?
    requires !Completes(pack, dir, jobId, drawMap, writePdf)
    ensures Failure(dir, jobId, Ok(pack), drawMap, writePdf).Some?
    ensures EndedIn(ApplyAll(t, jobId, campaignId, PackPlan(t.serial, dir, jobId, Ok(pack), gv, drawMap, writePdf)),
                    jobId, Failed(Failure(dir, jobId, Ok(pack), drawMap, writePdf).value))
    ensures var ds := Drafts(PackPlan(t.serial, dir, jobId, Ok(pack), gv, drawMap, writePdf));
      CountKind(ds, PackPdfKind) == 0 && CountKind(ds, PremiseKind) == 0
  {
    var plan := PackPlan(t.serial, dir, jobId, Ok(pack), gv, drawMap, writePdf);
    FailFacts(t.serial, dir, jobId, pack, gv, drawMap, writePdf);
    EndsAt(t, jobId, campaignId, plan, Failed(Failure(dir, jobId, Ok(pack), drawMap, writePdf).value));
    PackCounts(t.serial, dir, jobId, pack, gv, drawMap, writePdf);
  }

  /** What `PackFails` needs of the plan: progress up to the failure. */
  lemma FailFacts(s: nat, dir: Path, jobId: string, pack: Pack, gv: Render,
                  drawMap: (int, int, string) -> Option<string>, writePdf: Option<string>)
    requires !Completes(pack, dir, jobId, drawMap, writePdf)
    ensures Failure(dir, jobId, Ok(pack), drawMap, writePdf).Some?
    ensures ProgressUntil(Updates(PackPlan(s, dir, jobId, Ok(pack), gv, drawMap, writePdf)),
                          Failed(Failure(dir, jobId, Ok(pack), drawMap, writePdf).value))
  {
    PackUpdates(s, dir, jobId, pack, gv, drawMap, writePdf);
  }

  /** The premise's meta, looked up key by key. */
  lemma PremiseMeta(pack: Pack, jsonId: string, mermaidId: string, dotId: string, rendered: bool, pdfId: string)
    ensures var d := PremiseDraft(pack, jsonId, mermaidId, dotId, rendered, pdfId);
      && d.kind == PremiseKind && d.meta.Some?
      && MetaGet(d.meta.value, "json_artifact_id") == Some(MStr(jsonId))
      && MetaGet(d.meta.value, "flow_mermaid_artifact_id") == Some(MStr(mermaidId))
      && MetaGet(d.meta.value, "flow_dot_artifact_id") == Some(MStr(dotId))
      && MetaGet(d.meta.value, "flow_rendered") == Some(MBool(rendered))
      && MetaGet(d.meta.value, "pdf_artifact_id") == Some(MStr(pdfId))
  {
    var json, mermaid, dot, flow, pdf := "json_artifact_id", "flow_mermaid_artifact_id", "flow_dot_artifact_id", "flow_rendered", "pdf_artifact_id";
    assert |json| == 16 && |mermaid| == 24 && |dot| == 20 && |flow| == 13 && |pdf| == 15;
    var m1 := [("starting_location", FieldMeta(pack.startingLocation))] + [(json, MStr(jsonId))];
    var m2 := m1 + [(mermaid, MStr(mermaidId))];
    var m3 := m2 + [(dot, MStr(dotId))];
    var m4 := m3 + [(flow, MBool(rendered))];
    var m5 := m4 + [(pdf, MStr(pdfId))];
    assert PremiseDraft(pack, jsonId, mermaidId, dotId, rendered, pdfId).meta.value == m5;
    MetaGetSnoc(m4, pdf, MStr(pdfId), pdf);
    MetaGetSnoc(m4, pdf, MStr(pdfId), flow);
    MetaGetSnoc(m3, flow, MBool(rendered), flow);
    MetaGetSnoc(m4, pdf, MStr(pdfId), dot);
    MetaGetSnoc(m3, flow, MBool(rendered), dot);
    MetaGetSnoc(m2, dot, MStr(dotId), dot);
    MetaGetSnoc(m4, pdf, MStr(pdfId), mermaid);
    MetaGetSnoc(m3, flow, MBool(rendered), mermaid);
    MetaGetSnoc(m2, dot, MStr(dotId), mermaid);
    MetaGetSnoc(m1, mermaid, MStr(mermaidId), mermaid);
    MetaGetSnoc(m4, pdf, MStr(pdfId), json);
    MetaGetSnoc(m3, flow, MBool(rendered), json);
    MetaGetSnoc(m2, dot, MStr(dotId), json);
    MetaGetSnoc(m1, mermaid, MStr(mermaidId), json);
    MetaGetSnoc([("starting_location", FieldMeta(pack.startingLocation))], json, MStr(jsonId), json);
  }

  /** Where the sources, the PDF and the premise sit among the drafts of a run that
      started at serial `s`, with the PDF at index `i`: the premise is the one made from
      the ids the other four are stored under. */
  predicate PremiseShape(ds: seq<Draft>, s: nat, i: nat, pack: Pack, rendered: bool) {
    && 3 <= i && |ds| == i + 2
    && ds[0].kind == JsonKind && ds[1].kind == MermaidKind && ds[2].kind == DotKind && ds[i].kind == PackPdfKind
    && ds[i + 1] == PremiseDraft(pack, IdOf(s), IdOf(s + 1), IdOf(s + 2), rendered, IdOf(s + i))
  }

  lemma PremiseAt(s: nat, dir: Path, jobId: string, pack: Pack, gv: Render,
                  drawMap: (int, int, string) -> Option<string>, writePdf: Option<string>)
    requires Completes(pack, dir, jobId, drawMap, writePdf)
    ensures PremiseShape(Drafts(PackPlan(s, dir, jobId, Ok(pack), gv, drawMap, writePdf)), s, PdfIndex(dir, jobId, pack, gv, drawMap), pack, gv.Rendered?)
  {
    PdfAt(s, dir, jobId, pack, gv, drawMap, writePdf);
    HeadKinds(s, dir, jobId, pack, gv, drawMap, writePdf);
  }

  /** The first three artifacts of a built pack are the JSON and the two diagram sources. */
  lemma HeadKinds(s: nat, dir: Path, jobId: string, pack: Pack, gv: Render,
                  drawMap: (int, int, string) -> Option<string>, writePdf: Option<string>)
    ensures var ds := Drafts(PackPlan(s, dir, jobId, Ok(pack), gv, drawMap, writePdf));
      |ds| >= 3 && ds[0].kind == JsonKind && ds[1].kind == MermaidKind && ds[2].kind == DotKind
  {
    var maps := MapOps(FirstLocations(pack.locations), dir, jobId, drawMap);
    PackDrafts(s, dir, jobId, pack, gv, drawMap, writePdf);
    Head3(Drafts(PackPlan(s, dir, jobId, Ok(pack), gv, drawMap, writePdf)), JsonDraft(dir, jobId, pack), MermaidDraft(dir, jobId), DotDraft(dir, jobId),
      Drafts(RenderOps(dir, jobId, gv)), Drafts(maps.0),
      PackTail(s, dir, jobId, pack, gv, drawMap, writePdf));
  }

  lemma Head3(ds: seq<Draft>, a: Draft, b: Draft, c: Draft, r: seq<Draft>, m: seq<Draft>, t: seq<Draft>)
    requires ds == [a, b, c] + r + m + t
    ensures |ds| >= 3 && ds[0] == a && ds[1] == b && ds[2] == c
  {
  }

  /** The premise stored under `premise` records the ids of the JSON, the two diagram
      sources and the PDF, each naming a stored artifact of that kind, and whether the
      flowchart rendered. */
  predicate PremiseRecords(t: Tables, premise: string, rendered: bool) {
    && Links(t, premise, "json_artifact_id", JsonKind)
    && Links(t, premise, "flow_mermaid_artifact_id", MermaidKind)
    && Links(t, premise, "flow_dot_artifact_id", DotKind)
    && Links(t, premise, "pdf_artifact_id", PackPdfKind)
    && GetArtifact(t, premise).Some? && GetArtifact(t, premise).value.kind == PremiseKind
    && MetaGet(GetArtifact(t, premise).value.meta, "flow_rendered") == Some(MBool(rendered))
  }

  /** When nothing raises, the premise the job stores records its links: the ids it holds
      name the stored JSON, mermaid, DOT and PDF artifacts. */
  lemma PackPremise(t: Tables, jobId: string, campaignId: string, dir: Path, pack: Pack, gv: Render,
                    drawMap: (int, int, string) -> Option<string>, writePdf: Option<string>)
    requires Valid(t)
    requires Completes(pack, dir, jobId, drawMap, writePdf)
    ensures PremiseRecords(ApplyAll(t, jobId, campaignId, PackPlan(t.serial, dir, jobId, Ok(pack), gv, drawMap, writePdf)),
                           IdOf(t.serial + PdfIndex(dir, jobId, pack, gv, drawMap) + 1), gv.Rendered?) == true
  {
    PremiseAt(t.serial, dir, jobId, pack, gv, drawMap, writePdf);
    PlanRecords(t, jobId, campaignId, PackPlan(t.serial, dir, jobId, Ok(pack), gv, drawMap, writePdf),
      PdfIndex(dir, jobId, pack, gv, drawMap), pack, gv.Rendered?, IdOf(t.serial + PdfIndex(dir, jobId, pack, gv, drawMap) + 1));
  }

  /** Any run whose drafts have that shape stores a premise that records its links. */
  lemma PlanRecords(t: Tables, jobId: string, campaignId: string, ops: seq<Op>, i: nat, pack: Pack, rendered: bool, premise: string)
    requires Valid(t) && PremiseShape(Drafts(ops), t.serial, i, pack, rendered)
    requires premise == IdOf(t.serial + i + 1)
    ensures PremiseRecords(ApplyAll(t, jobId, campaignId, ops), premise, rendered) == true
  {
    StoredAll(t, jobId, campaignId, ops);
    ShapeRecords(ApplyAll(t, jobId, campaignId, ops), campaignId, t.serial, Drafts(ops), i, pack, rendered, premise);
  }

  /** Stored drafts of that shape make a premise that records its links. */
  lemma ShapeRecords(t: Tables, campaignId: string, s: nat, ds: seq<Draft>, i: nat, pack: Pack, rendered: bool, premise: string)
    requires AllStored(t, s, campaignId, ds) && PremiseShape(ds, s, i, pack, rendered)
    requires premise == IdOf(s + i + 1)
    ensures PremiseRecords(t, premise, rendered) == true
  {
    PremiseMeta(pack, IdOf(s), IdOf(s + 1), IdOf(s + 2), rendered, IdOf(s + i));
    assert s + 0 == s;
    assert StoredAt(t, IdOf(s + 0), campaignId, ds[0]);
    assert StoredAt(t, IdOf(s + 1), campaignId, ds[1]);
    assert StoredAt(t, IdOf(s + 2), campaignId, ds[2]);
    assert StoredAt(t, IdOf(s + i), campaignId, ds[i]);
    assert StoredAt(t, IdOf(s + (i + 1)), campaignId, ds[i + 1]);
    Recorded(t, campaignId, IdOf(s + i + 1), ds[i + 1], rendered,
      IdOf(s), ds[0], IdOf(s + 1), ds[1], IdOf(s + 2), ds[2], IdOf(s + i), ds[i]);
  }

  lemma Recorded(t: Tables, campaignId: string, premise: string, p: Draft, rendered: bool,
                 jsonId: string, j: Draft, mermaidId: string, m: Draft, dotId: string, d: Draft, pdfId: string, f: Draft)
    requires StoredAt(t, premise, campaignId, p) && p.kind == PremiseKind && p.meta.Some?
    requires MetaGet(p.meta.value, "json_artifact_id") == Some(MStr(jsonId))
    requires MetaGet(p.meta.value, "flow_mermaid_artifact_id") == Some(MStr(mermaidId))
    requires MetaGet(p.meta.value, "flow_dot_artifact_id") == Some(MStr(dotId))
    requires MetaGet(p.meta.value, "flow_rendered") == Some(MBool(rendered))
    requires MetaGet(p.meta.value, "pdf_artifact_id") == Some(MStr(pdfId))
    requires StoredAt(t, jsonId, campaignId, j) && j.kind == JsonKind
    requires StoredAt(t, mermaidId, campaignId, m) && m.kind == MermaidKind
    requires StoredAt(t, dotId, campaignId, d) && d.kind == DotKind
    requires StoredAt(t, pdfId, campaignId, f) && f.kind == PackPdfKind
    ensures PremiseRecords(t, premise, rendered)
  {
  }

  ////////////////////////////////////////////////////////////////////////////
  // The render warning and the maps, as stored.

  /** When rendering raises, the artifact after the diagram sources is the warning
      holding the exception's text. */
  lemma WarningStored(s: nat, dir: Path, jobId: string, pack: Pack, e: string,
                      drawMap: (int, int, string) -> Option<string>, writePdf: Option<string>)
    ensures var ds := Drafts(PackPlan(s, dir, jobId, Ok(pack), Raised(e), drawMap, writePdf));
      |ds| > 3 && ds[3] == WarningDraft(e) && ds[3].kind == WarningKind && ds[3].textContent == Some(e)
  {
    var maps := MapOps(FirstLocations(pack.locations), dir, jobId, drawMap);
    var tail := PackTail(s, dir, jobId, pack, Raised(e), drawMap, writePdf);
    PackDrafts(s, dir, jobId, pack, Raised(e), drawMap, writePdf);
    RenderParts(dir, jobId, Raised(e));
    FourthDraft(Drafts(PackPlan(s, dir, jobId, Ok(pack), Raised(e), drawMap, writePdf)), JsonDraft(dir, jobId, pack), MermaidDraft(dir, jobId), DotDraft(dir, jobId),
      Drafts(RenderOps(dir, jobId, Raised(e))), Drafts(maps.0), tail, WarningDraft(e));
  }

  /** The draft after three leading ones and at the head of the next part. */
  lemma FourthDraft(ds: seq<Draft>, a: Draft, b: Draft, c: Draft, r: seq<Draft>, m: seq<Draft>, t: seq<Draft>, w: Draft)
    requires ds == [a, b, c] + r + m + t && r == [w]
    ensures |ds| > 3 && ds[3] == w
  {
  }

  /** `d` is the map of location `loc`: both sizes converted, and the draft made from
      the location's name and those sizes. */
  predicate MapOf(d: Draft, loc: Location, dir: Path, jobId: string) {
    LocationMap(loc, dir, jobId) == Some(d)
  }

  /** The draft of a location's map when both of its sizes convert, else None. */
  function LocationMap(loc: Location, dir: Path, jobId: string): Option<Draft> {
    var width, height := MapDimension(loc.mapSize.width), MapDimension(loc.mapSize.height);
    if width.Ok? && height.Ok? then Some(MapDraft(dir, jobId, LocationName(loc.name), width.value, height.value))
    else None
  }

  /** A map that was drawn is the map of its location. */
  lemma MapOpOk(loc: Location, dir: Path, jobId: string, drawMap: (int, int, string) -> Option<string>)
    ensures MapOp(loc, dir, jobId, drawMap).Ok? <==>
      && MapDimension(loc.mapSize.width).Ok? && MapDimension(loc.mapSize.height).Ok?
      && var d := MapDraft(dir, jobId, LocationName(loc.name), MapDimension(loc.mapSize.width).value, MapDimension(loc.mapSize.height).value);
         drawMap(MapDimension(loc.mapSize.width).value, MapDimension(loc.mapSize.height).value, d.filePath.value).None?
    ensures MapOp(loc, dir, jobId, drawMap).Ok? ==> MapOf(MapOp(loc, dir, jobId, drawMap).value.draft, loc, dir, jobId)
    ensures MapDimension(loc.mapSize.width).Err? ==> MapOp(loc, dir, jobId, drawMap) == Err(MapDimension(loc.mapSize.width).error)
  {
  }

  /** The maps follow the render's artifacts: the `k`-th is the map of the `k`-th of the
      first six locations. */
  lemma MapsStored(s: nat, dir: Path, jobId: string, pack: Pack, gv: Render,
                   drawMap: (int, int, string) -> Option<string>, writePdf: Option<string>)
    ensures MapsFrom(Drafts(PackPlan(s, dir, jobId, Ok(pack), gv, drawMap, writePdf)), 3 + |RenderOps(dir, jobId, gv)|,
                     FirstLocations(pack.locations), |MapOps(FirstLocations(pack.locations), dir, jobId, drawMap).0|, dir, jobId) == true
  {
    var locs := FirstLocations(pack.locations);
    var maps := MapOps(locs, dir, jobId, drawMap);
    var ds := Drafts(PackPlan(s, dir, jobId, Ok(pack), gv, drawMap, writePdf));
    var head := [JsonDraft(dir, jobId, pack), MermaidDraft(dir, jobId), DotDraft(dir, jobId)] + Drafts(RenderOps(dir, jobId, gv));
    var tail := PackTail(s, dir, jobId, pack, gv, drawMap, writePdf);
    PackDrafts(s, dir, jobId, pack, gv, drawMap, writePdf);
    RenderParts(dir, jobId, gv);
    MapsOfLocations(locs, dir, jobId, drawMap);
    MapsBetween(ds, head, Drafts(maps.0), tail, 3 + |RenderOps(dir, jobId, gv)|, |maps.0|, locs, dir, jobId);
  }

  /** From index `base` on, `ds` holds the maps of the first `n` locations, in order. */
  predicate MapsFrom(ds: seq<Draft>, base: nat, locs: seq<Location>, n: nat, dir: Path, jobId: string) {
    && n <= |locs| && base + n <= |ds|
    && forall k :: 0 <= k < n ==> MapOf(ds[base + k], locs[k], dir, jobId)
  }

  /** Maps of the locations, in the middle of a concatenation. */
  lemma MapsBetween(ds: seq<Draft>, head: seq<Draft>, mid: seq<Draft>, tail: seq<Draft>, base: nat, n: nat,
                    locs: seq<Location>, dir: Path, jobId: string)
    requires ds == head + mid + tail && |head| == base && |mid| == n && n <= |locs|
    requires forall k :: 0 <= k < n ==> MapOf(mid[k], locs[k], dir, jobId)
    ensures MapsFrom(ds, base, locs, n, dir, jobId)
  {
    MapsMoved(ds, head, mid, tail, locs, (loc: Location) => LocationMap(loc, dir, jobId));
  }

  /** Whatever `f` says of the middle part of a concatenation it says of the whole,
      shifted by the length of the head. */
  lemma MapsMoved(ds: seq<Draft>, head: seq<Draft>, mid: seq<Draft>, tail: seq<Draft>, locs: seq<Location>,
                  f: Location -> Option<Draft>)
    requires ds == head + mid + tail && |mid| <= |locs|
    requires forall k :: 0 <= k < |mid| ==> f(locs[k]) == Some(mid[k])
    ensures forall k :: 0 <= k < |mid| ==> f(locs[k]) == Some(ds[|head| + k])
  {
    forall k | 0 <= k < |mid| ensures f(locs[k]) == Some(ds[|head| + k]) {
      MiddleAt(ds, head, mid, tail, k);
    }
  }

  /** The drafts of the map ops are the maps of the first locations, in order. */
  lemma MapsOfLocations(locs: seq<Location>, dir: Path, jobId: string, drawMap: (int, int, string) -> Option<string>)
    ensures var ops := MapOps(locs, dir, jobId, drawMap).0;
      && |ops| <= |locs| && |Drafts(ops)| == |ops|
      && forall k :: 0 <= k < |ops| ==> MapOf(Drafts(ops)[k], locs[k], dir, jobId)
  {
    var ops := MapOps(locs, dir, jobId, drawMap).0;
    MapOpsShape(locs, dir, jobId, drawMap);
    CreatesOnly(ops);
    forall k | 0 <= k < |ops| ensures MapOf(Drafts(ops)[k], locs[k], dir, jobId) {
      MapOpOk(locs[k], dir, jobId, drawMap);
    }
  }

  /** Indexing into the middle part of a concatenation. */
  lemma MiddleAt(ds: seq<Draft>, head: seq<Draft>, mid: seq<Draft>, tail: seq<Draft>, k: nat)
    requires ds == head + mid + tail && k < |mid|
    ensures |head| + k < |ds| && ds[|head| + k] == mid[k]
  {
  }

  /** Width and height given as the decimal text of a number are that number. */
  lemma MapDimensionOfText(i: int)
    ensures MapDimension(Str(IntToString(i))) == Ok(i)
  {
    ParseIntToString(i);
  }

  /** A location whose width is text that is not a number: its map raises the
      `ValueError` of `int()`, so when it is the first location the job draws no map and
      ends in `error` with that message. */
  lemma NonNumericWidth(t: Tables, jobId: string, campaignId: string, dir: Path, pack: Pack, gv: Render, w: string,
                        drawMap: (int, int, string) -> Option<string>, writePdf: Option<string>)
    requires GetJob(t, jobId).Some?
    requires pack.locations != [] && pack.locations[0].mapSize.width == Str(w) && w != [] && ParseInt(w).None?
    ensures EndedIn(ApplyAll(t, jobId, campaignId, PackPlan(t.serial, dir, jobId, Ok(pack), gv, drawMap, writePdf)), jobId, Failed(IntError(w)))
    ensures CountKind(Drafts(PackPlan(t.serial, dir, jobId, Ok(pack), gv, drawMap, writePdf)), MapKind) == 0
  {
    var locs := FirstLocations(pack.locations);
    assert locs[0] == pack.locations[0];
    MapOpOk(locs[0], dir, jobId, drawMap);
    MapOpsShape(locs, dir, jobId, drawMap);
    var maps := MapOps(locs, dir, jobId, drawMap);
    assert |maps.0| == 0 && maps.1 == Some(IntError(w));
    PackFails(t, jobId, campaignId, dir, pack, gv, drawMap, writePdf);
    PackCounts(t.serial, dir, jobId, pack, gv, drawMap, writePdf);
  }

  /** A location name joined into a file name: at most 40 characters and no whitespace. */
  lemma SafeNameBounds(name: string)
    ensures |SafeName(name)| <= 40 && NoSpace(SafeName(name))
  {
    var words := Split(name);
    assert NoSpace("_");
    JoinNoSpace("_", words);
    var j := Join("_", words);
    var safe := SafeName(name);
    forall i | 0 <= i < |safe| ensures !IsSpace(safe[i]) {
      assert safe[i] == j[i];
    }
  }

  /** A location always gets a non-empty name part in its file. */
  lemma SafeNameNonEmpty(raw: string)
    ensures SafeName(LocationName(raw)) != []
  {
    var name := LocationName(raw);
    StripEnds(raw);
    assert name != [] && !IsSpace(name[0]);
    assert TrimStart(name) == name;
    var words := Split(name);
    assert words != [] && words[0] != [];
    JoinStartsWith("_", words);
  }

  lemma JoinStartsWith(sep: string, parts: seq<string>)
    requires parts != []
    ensures |Join(sep, parts)| >= |parts[0]| && Join(sep, parts)[..|parts[0]|] == parts[0]
  {
    if |parts| > 1 {
      assert (parts[0] + sep + Join(sep, parts[1..]))[..|parts[0]|] == parts[0];
    }
  }

  /** Two words joined by a space and by an underscore give the same name part, so two
      locations named that way and drawn at the same size write the same file. */
  lemma SafeNameCollides(a: string, b: string)
    requires a != [] && b != [] && NoSpace(a) && NoSpace(b) && |a| + |b| < 40
    ensures a + " " + b != a + "_" + b
    ensures SafeName(a + " " + b) == SafeName(a + "_" + b) == a + "_" + b
  {
    assert (a + " " + b)[|a|] == ' ' && (a + "_" + b)[|a|] == '_';
    var u := a + "_" + b;
    SplitTwoWords(a, b);
    JoinedUnderscore(a, b);
    SplitWord(u);
    JoinTwo("_", a, b);
    JoinOne("_", u);
    SafeNameOfJoin(a + " " + b, u);
    SafeNameOfJoin(u, u);
  }

  lemma JoinedUnderscore(a: string, b: string)
    requires NoSpace(a) && NoSpace(b) && a != []
    ensures a + "_" + b != [] && NoSpace(a + "_" + b)
  {
    var u := a + "_" + b;
    forall i | 0 <= i < |u| ensures !IsSpace(u[i]) {
      if i < |a| {
        assert u[i] == a[i];
      } else if i > |a| {
        assert u[i] == b[i - |a| - 1];
      }
    }
  }

  lemma SafeNameOfJoin(name: string, joined: string)
    requires Join("_", Split(name)) == joined && |joined| <= 40
    ensures SafeName(name) == joined
  {
  }

  /** Names with the same name part, drawn at the same size in the same job, write the
      same file, although their titles differ when the names do. */
  lemma SameFile(dir: Path, jobId: string, n1: string, n2: string, width: int, height: int)
    requires SafeName(n1) == SafeName(n2)
    ensures MapDraft(dir, jobId, n1, width, height).filePath == MapDraft(dir, jobId, n2, width, height).filePath
    ensures n1 != n2 ==> MapDraft(dir, jobId, n1, width, height).title != MapDraft(dir, jobId, n2, width, height).title
  {
    var prefix := "Map: ";
    assert (prefix + n1)[|prefix|..] == n1 && (prefix + n2)[|prefix|..] == n2;
  }

  /** The locations "North Gate" and "North_Gate" share a name part. */
  lemma NorthGate()
    ensures SafeName("North Gate") == SafeName("North_Gate")
  {
    var a, b := "North", "Gate";
    assert NoSpace(a) && NoSpace(b);
    SafeNameCollides(a, b);
    assert a + " " + b == "North Gate" && a + "_" + b == "North_Gate";
  }
}
