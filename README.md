# Campaign-pack pipeline of dnd-tools, modelled in Dafny

dnd-tools is a small web application for tabletop game masters. Its core is the
campaign-pack pipeline:

- A language model's reply is turned into a structured campaign pack.
- The pack's decision graph is written out as a Mermaid diagram and as a Graphviz DOT diagram.
- A background job stores every derived file as an *artifact* row in a SQLite store.
  It reports its progress on a *job* row, which ends `done` or `error`.

This project models that core and proves properties of it. It also models the two
one-stage jobs beside it (a draft map, and a PDF of uploaded portraits), the request
handlers that queue those jobs, the artifact page, the upload handler, the portrait grid
layout, the pure parts of the ComfyUI client and the directory layout.

How the model is built:

- `text.dfy`: the Python `str` operations the code relies on, with their edge cases.
  These are `strip`, `split`, `find`/`rfind`, `replace`, `int(...)` (with the decimal digits of every script) and `repr` of a `str`.
  Whitespace is the character set of `str.isspace`. `int` skips fewer characters: not the separators U+001C to U+001F.
- `json_extraction.dfy`: the three strategies of `_extract_json`.
  The lazy, case-insensitive search of the pattern ```` ```json\s*(\{.*?\})\s*``` ```` is written out as a search.
  `json.loads` is a function parameter: any partial function from text to values.
- `flowchart.dfy`: the two diagram writers with their two loops, as methods.
  Each method is proved equal to a recursive specification, and the diagrams' properties are lemmas about that specification.
- `store_model.dfy` and `db.dfy`: the three tables as values, and the store as a class whose methods update those tables in place.
  Each method's contract is the value-level transition, and the tables' invariant is proved to be kept.
  A logical clock stands for `_utcnow_iso`, with one tick per stamped write.
  A counter stands for `uuid4`: the n-th id issued is the decimal text of n.
- `job_plan.dfy`, `pack_job.dfy`, `single_jobs.dfy`: each job is described by the sequence of store writes it performs.
  The collaborators are inputs that can fail: the pack builder, Graphviz (rendered, absent or raising), the map writer, the PDF writer and the opening of each portrait image.
  The properties of those write sequences are lemmas.
- `runner.dfy`: the jobs as methods on the store object. Each is proved to perform exactly its write sequence.
- `handlers.dfy`: the queueing handlers, `get_artifact` and `upload_files`.
  The upload loop is a method over a directory modelled as a map from names to bytes.
- `portrait_pdf.dfy`: the image filter and the page and slot arithmetic of the portrait PDF.
  Python's floor `//` and `%` are written out.
- `comfyui.py` pieces in `comfyui.dfy`: the base URL, `_url`, the txt2img graph, the `prompt_id` check, the choice of the result image, and the filename guard.
- `paths.dfy`: the path functions, each path a sequence of segments.

The model follows the code where the documented behaviour of the project says otherwise:

- The extraction strategies do not fall through.
  When the stripped reply starts with `{` and ends with `}`, its parse is the answer even when that parse fails (`JsonExtraction.DirectIsFinal`).
  The same holds for a matched fence (`JsonExtraction.FenceIsFinal`).
- When Graphviz is absent, no warning artifact is stored; only a raising renderer stores one (`PackJob.PackCounts`).
- A map width or height that is non-numeric text does not default to 20. Its `int(...)` raises and ends the job in `error` (`PackJob.NonNumericWidth`).
- Map file names of two differently named locations can collide (`PackJob.SameFile`, `PackJob.NorthGate`).

## Model

| member | source | states |
|---|---|---|
| Text.TrimStart | src/workflows/campaign_pack.py:22 | `lstrip` leaves a result that is empty or starts with a non-whitespace character, and is no longer than the input |
| Text.TrimStartSlice | src/workflows/campaign_pack.py:22 | what `lstrip` removes is exactly a leading whitespace run; the result is the rest of the text |
| Text.TrimEnd | src/workflows/campaign_pack.py:22 | `rstrip` leaves a result that is empty or ends with a non-whitespace character, and is no longer than the input |
| Text.TrimEndSlice | src/workflows/campaign_pack.py:22 | what `rstrip` removes is exactly a trailing whitespace run; the result is the start of the text |
| Text.StripEnds | src/workflows/campaign_pack.py:22 | neither end of `strip()` is whitespace; it is empty iff the text is all whitespace |
| Text.StripSlice | src/workflows/campaign_pack.py:22 | `strip()` is one contiguous slice of the text |
| Text.Find | src/workflows/campaign_pack.py:34 | `find` is -1 iff the character is absent, else the index of its first occurrence |
| Text.RFind | src/workflows/campaign_pack.py:35 | `rfind` is -1 iff the character is absent, else the index of its last occurrence |
| Text.Split | src/web/app.py:261 | `split()` yields only non-empty, whitespace-free words |
| Text.SplitTwoWords | src/web/app.py:261 | two words separated by one space split into exactly those two words |
| Text.JoinNoSpace | src/web/app.py:261 | joining whitespace-free words with `_` gives whitespace-free text |
| Text.Take | src/web/app.py:261 | `s[:n]` has length min(len(s), n) and is a prefix of `s` |
| Text.NatToDecimal | src/web/app.py:262 | `str(n)` is a digit string denoting n, without leading zeros |
| Text.NatToDecimalInjective | src/web/app.py:262 | distinct numbers have distinct decimal texts |
| Text.ParseIntToString | src/web/app.py:259-260 | `int(str(i)) == i` for every integer |
| Text.DecimalRun | src/web/app.py:259-260 | a character `int` reads as a digit lies in one of the 68 runs of ten decimal digits of Unicode 15.0 |
| Text.DecimalValue | src/web/app.py:259-260 | the digit `int` reads from a character is below 10, and is the usual value for ASCII `0`-`9` |
| Text.IntSkipsSpace | src/web/app.py:259-260 | `int` skips a space, a newline and non-ASCII whitespace such as U+0085 around the digits: `int(" 5\n") == int("\x855") == 5` |
| Text.IntKeepsSeparators | src/web/app.py:259-260 | `int` does not skip U+001C to U+001F, so `int("\x1c5")` and `int("5\x1f")` raise |
| Text.FullwidthDigits | src/web/app.py:259-260 | `int("２０") == 20`: digits of other scripts read as digits |
| Text.Repr | src/web/app.py:259-260 | `repr` of a str opens and closes with the quote it chooses |
| Text.ReprReadsBack | src/web/app.py:259-260 | reading back the literal `repr` writes gives the original text, with either quote |
| Text.ReprOneLine | src/web/app.py:259-260 | `repr` writes no newline, so the error text is one line |
| Text.ReprPlain | src/web/app.py:259-260 | a text of printable characters without quotes or backslashes is written unchanged between the quotes |
| Text.Replace | src/workflows/campaign_pack.py:46-49 | `replace` with a one-character replacement keeps the length, and leaves a text without the character unchanged |
| Text.ReplaceChars | src/workflows/campaign_pack.py:46-49 | after `replace(c, rep)` every character comes from `rep` or is an original character other than `c` |
| Text.CountJoinLines | src/workflows/campaign_pack.py:61 | `"\n".join(lines) + "\n"` holds one newline per line when no line holds one |
| JsonExtraction.SkipSpaces | src/workflows/campaign_pack.py:17 | a greedy `\s*` stops at the first non-whitespace character and skips only whitespace |
| JsonExtraction.FirstCloser | src/workflows/campaign_pack.py:17 | the lazy `.*?` stops at the first place where `}\s*` followed by three backticks matches, and no earlier |
| JsonExtraction.GroupEnd | src/workflows/campaign_pack.py:17 | a match at a position has the fence, the `json` tag (any case) and `{`; its group ends at the first closing `}` |
| JsonExtraction.FirstMatch | src/workflows/campaign_pack.py:29 | `re.search` finds the leftmost position where the pattern matches, and no match exists before it |
| JsonExtraction.ParsedSlice | src/workflows/campaign_pack.py:20-39 | the slice handed to `json.loads` starts with `{` and ends with `}` |
| JsonExtraction.FencedSlice | src/workflows/campaign_pack.py:29-31 | the fenced strategy parses group 1 of the first match, which runs from its `{` to its closing `}` |
| JsonExtraction.DirectSlice | src/workflows/campaign_pack.py:25-26 | the direct strategy parses the whole stripped text |
| JsonExtraction.SpanSlice | src/workflows/campaign_pack.py:33-37 | the fallback parses from the first `{` through the last `}` |
| JsonExtraction.DirectIsFinal | src/workflows/campaign_pack.py:22-26 | when the stripped reply starts with `{` and ends with `}`, the result is the parse of the stripped reply, success or failure |
| JsonExtraction.FenceIsFinal | src/workflows/campaign_pack.py:28-31 | otherwise, when the fence pattern matches, the result is the parse of the first match's group, success or failure |
| JsonExtraction.SpanIsFirstToLast | src/workflows/campaign_pack.py:33-37 | otherwise, when a `{` comes before a `}`, the result is the parse of the span from the first `{` to the last `}` |
| JsonExtraction.DirectIsWholeSpan | src/workflows/campaign_pack.py:25-37 | a text the direct strategy accepts is also exactly the fallback's span |
| JsonExtraction.MatchHasBraces | src/workflows/campaign_pack.py:17 | a fence match contains both a `{` and a `}` |
| JsonExtraction.DirectHasBraces | src/workflows/campaign_pack.py:25 | a text the direct strategy accepts contains a `{` and a `}` |
| JsonExtraction.NoBraceIsNoJson | src/workflows/campaign_pack.py:33-39 | a reply without a `{`, or without a `}`, raises "Model did not return JSON" |
| JsonExtraction.EmptyReplyIsNoJson | src/workflows/campaign_pack.py:156-157 | an empty or null reply raises "Model did not return JSON" |
| JsonExtraction.GeneratorFailureIsFinal | src/workflows/campaign_pack.py:148-157 | a failing completion call is the build's failure, with its message |
| Flowchart.MermaidLabel | src/workflows/campaign_pack.py:46-49 | a Mermaid label has no `"` and no newline, and has the label's length |
| Flowchart.PlainMermaidLabel | src/workflows/campaign_pack.py:46-49 | a label without newlines or `"` is written unchanged |
| Flowchart.Esc | src/workflows/campaign_pack.py:66-67 | `esc` output holds no newline |
| Flowchart.EscIsPerChar | src/workflows/campaign_pack.py:66-67 | the three `replace` passes of `esc` escape each character on its own: `\` becomes `\\`, `"` becomes `\"`, a newline becomes a space |
| Flowchart.EscCharIsEsc | src/workflows/campaign_pack.py:66-67 | `esc` of one character is that character's escape |
| Flowchart.EscReadsBack | src/workflows/campaign_pack.py:66-67 | a DOT reader decodes an `esc` label to the original text with newlines flattened, so no `"` is left unescaped |
| Flowchart.UnescapeEach | src/workflows/campaign_pack.py:66-67 | decoding the per-character escape gives the text with each newline replaced by a space |
| Flowchart.Flowchart | src/workflows/campaign_pack.py:42-92 | each writer's text is the diagram of the node list: header, one line per node with an id, one line per drawn edge, footer, each ended by a newline |
| Flowchart.DeclareNodes | src/workflows/campaign_pack.py:44-50 | the first loop writes one declaration per node with an id, in input order |
| Flowchart.DrawEdges | src/workflows/campaign_pack.py:52-59 | the second loop writes the edges of every node in input order |
| Flowchart.DrawOptions | src/workflows/campaign_pack.py:54-59 | the inner loop writes one edge per option with a `next`, when the node has an id |
| Flowchart.WriteFlowchart | src/workflows/campaign_pack.py:252-263 | the writers draw `decision_flow.nodes`, or no nodes |
| Flowchart.Declarations | src/workflows/campaign_pack.py:44-50 | one declaration line per named node |
| Flowchart.Drawings | src/workflows/campaign_pack.py:52-59 | one edge line per drawn edge |
| Flowchart.NamedAppend | src/workflows/campaign_pack.py:44-50 | declarations keep input order across concatenation |
| Flowchart.EdgesAppend | src/workflows/campaign_pack.py:52-59 | edges are grouped by source node in input order |
| Flowchart.NodeIsDeclared | src/workflows/campaign_pack.py:44-50 | a node with an id is declared after the nodes before it and before the nodes after it |
| Flowchart.NamedHaveIds | src/workflows/campaign_pack.py:47-48 | every declared node is an input node with an id |
| Flowchart.UnnamedNodeIsSkipped | src/workflows/campaign_pack.py:47-57 | a node without an id adds neither a declaration nor an edge |
| Flowchart.NoSourceNoEdges | src/workflows/campaign_pack.py:52-59 | a node with an empty id draws no edge, whatever its options |
| Flowchart.OptionIsDrawn | src/workflows/campaign_pack.py:54-59 | every option with a `next`, of a node with an id, is drawn |
| Flowchart.EdgeIsDrawn | src/workflows/campaign_pack.py:52-59 | an edge is drawn without checking that its target node exists |
| Flowchart.EdgesAreOptions | src/workflows/campaign_pack.py:52-59 | conversely, every drawn edge starts at a node id and follows one of that node's options with a `next` |
| Flowchart.OptionEdgesAreOptions | src/workflows/campaign_pack.py:54-59 | every edge drawn for one node follows one of its options |
| Flowchart.LinesNewlineFree | src/workflows/campaign_pack.py:42-92 | no diagram line holds a newline when ids and targets hold none |
| Flowchart.FixedLinesNewlineFree | src/workflows/campaign_pack.py:42-92 | the fixed header and footer lines of both notations hold no newline |
| Flowchart.LineCount | src/workflows/campaign_pack.py:61 | the text has one newline per line: header lines (1 for Mermaid, 4 for DOT) + declared nodes + edges + footer lines (0 or 1) |
| Flowchart.MissingFlowIsHeaderOnly | src/workflows/campaign_pack.py:253 | a pack without decision-flow nodes gets the header-only diagram |
| Flowchart.TwoNodeExample | src/workflows/campaign_pack.py:42-61 | two nodes with one option give exactly the lines `graph TD`, two declarations and one edge |
| Paths.LayoutUnderData | src/web/paths.py:11-32 | the data directory lies strictly below the repository root, and the database file, the campaigns directory and every campaign's uploads and artifacts directories lie below the data directory |
| Paths.DbOutsideCampaigns | src/web/paths.py:15-24 | no path below a campaign's directory is the database file or lies below it |
| Paths.CampaignDir | src/web/paths.py:23-24 | `campaign_dir(c)` is root/data/app/campaigns/c |
| Paths.UploadsDir | src/web/paths.py:27-28 | the uploads directory is `campaign_dir(c)`/uploads |
| Paths.ArtifactsDir | src/web/paths.py:31-32 | the artifacts directory is `campaign_dir(c)`/artifacts |
| Paths.PathStringChild | src/web/paths.py:11-32 | `str(dir / name)` is the directory's text, `/` and the name |
| Paths.DataChildrenDistinct | src/web/paths.py:15-20 | `db_path` and `campaigns_dir` are distinct children of `data_dir` |
| Paths.CampaignChildrenDistinct | src/web/paths.py:27-32 | a campaign's uploads and artifacts directories are distinct children of its directory |
| Paths.CampaignDirInjective | src/web/paths.py:23-24 | distinct campaign ids give distinct campaign directories |
| Paths.CampaignDirIsNotDb | src/web/paths.py:15-24 | no campaign directory is the database file |
| StoreModel.MetaGet | src/web/db.py:149 | a key lookup in a stored `meta` finds a member with that key, or none exists |
| StoreModel.IdOf | src/web/db.py:104 | every issued id is a digit string denoting its serial number |
| StoreModel.NextIdIsFresh | src/web/db.py:104 | the next id differs from every id issued before it |
| StoreModel.EmptyIsValid | src/web/db.py:25-69 | the fresh database satisfies the tables' invariant |
| StoreModel.NewCampaign | src/web/db.py:103-113 | `create_campaign` appends one row with the next id, the name and the new stamp, and changes no other table |
| StoreModel.NewCampaignFacts | src/web/db.py:103-113 | the new campaign keeps the invariant, has a fresh id, is found by it and is listed first |
| StoreModel.NewArtifact | src/web/db.py:138-170 | `create_artifact` appends one row with the next id, the campaign, the given fields and `{}` for a missing meta |
| StoreModel.NewArtifactFacts | src/web/db.py:138-170 | the new artifact keeps the invariant, has a fresh id, is found by it, and every artifact found before is still found |
| StoreModel.NewJob | src/web/db.py:228-250 | `create_job` appends one row with no result id and one stamp for both times |
| StoreModel.NewJobFacts | src/web/db.py:228-250 | the new job keeps the invariant, has a fresh id and is found by it |
| StoreModel.UpdatedJob | src/web/db.py:253-269 | the row with the id gets the given status, message, result id (None when omitted) and stamp; any other row is unchanged |
| StoreModel.UpdatedJobs | src/web/db.py:253-269 | the `UPDATE ... WHERE id = ?` applies that change to each row, keeping the table's length and order |
| StoreModel.UpdateJob | src/web/db.py:253-269 | `update_job` ticks the clock and changes neither campaigns, artifacts nor the id counter |
| StoreModel.UpdateJobFacts | src/web/db.py:253-269 | a known job gets the new status, message, result id and stamp and keeps id, campaign, kind and creation time; an unknown id changes no row; no other job changes |
| StoreModel.UpdateJobValid | src/web/db.py:253-269 | `update_job` keeps the invariant (the new stamp is later than every other) |
| StoreModel.UpdatedLookup | src/web/db.py:253-269 | after the update, a lookup of any id finds the updated form of the row found before, or nothing when nothing was found before |
| StoreModel.CampaignById | src/web/db.py:125-135 | `get_campaign` finds the row with the id, or None exactly when there is none |
| StoreModel.ArtifactById | src/web/db.py:202-225 | `get_artifact` finds the row with the id, or None exactly when there is none |
| StoreModel.JobById | src/web/db.py:300-323 | `get_job` finds the row with the id, or None exactly when there is none |
| StoreModel.ListCampaigns | src/web/db.py:116-122 | `list_campaigns` lists every row, in reverse table order |
| StoreModel.ListCampaignsNewestFirst | src/web/db.py:116-122 | `list_campaigns` gives exactly the campaigns, strictly newest first |
| StoreModel.ListArtifactsMembers | src/web/db.py:173-199 | `list_artifacts` gives exactly the campaign's artifacts |
| StoreModel.ListArtifactsNewestFirst | src/web/db.py:173-199 | `list_artifacts` is strictly newest first |
| StoreModel.JobsOf | src/web/db.py:278 | the `WHERE campaign_id = ?` selection keeps exactly the campaign's jobs |
| StoreModel.Insert | src/web/db.py:279 | inserting a job into a sorted list adds exactly that job |
| StoreModel.InsertByRecency | src/web/db.py:279 | inserting keeps a list ordered by `updated_at` descending |
| StoreModel.RecencyOrder | src/web/db.py:279 | the ordered selection is a permutation of the campaign's jobs, by `updated_at` descending |
| StoreModel.RecencyOrderMembers | src/web/db.py:276-281 | the ordered selection holds as many rows as the campaign has jobs, and exactly those jobs |
| StoreModel.Limit | src/web/db.py:280 | `LIMIT n` keeps the first n rows, or all of them when n is negative or large |
| StoreModel.ListJobsIsTop | src/web/db.py:272-297 | `list_jobs` gives at most `limit` of the campaign's jobs, most recently updated first, and no job it leaves out is more recent than one it gives |
| Db.Store.constructor | src/web/db.py:25-69 | a fresh store holds empty tables |
| Db.Store.CreateCampaign | src/web/db.py:103-113 | the method performs `NewCampaign` in place and keeps the invariant |
| Db.Store.CreateArtifact | src/web/db.py:138-170 | the method performs `NewArtifact` in place and keeps the invariant |
| Db.Store.CreateJob | src/web/db.py:228-250 | the method performs `NewJob` in place and keeps the invariant |
| Db.Store.UpdateJob | src/web/db.py:253-269 | the method performs `UpdateJob` in place and keeps the invariant |
| Db.Store.GetCampaign | src/web/db.py:125-135 | the lookup answers as `GetCampaign` on the current tables |
| Db.Store.GetArtifact | src/web/db.py:202-225 | the lookup answers as `GetArtifact` on the current tables |
| Db.Store.GetJob | src/web/db.py:300-323 | the lookup answers as `GetJob` on the current tables |
| Db.Store.ListCampaigns | src/web/db.py:116-122 | the query answers as `ListCampaigns` |
| Db.Store.ListArtifacts | src/web/db.py:173-199 | the loop that builds the list answers as `ListArtifacts` |
| Db.Store.ListJobs | src/web/db.py:272-297 | the query answers as `ListJobs` |
| JobPlan.Kinds | src/web/app.py:188-298 | the kinds of a list of artifacts, position by position |
| JobPlan.ApplyAllValid | src/web/app.py:173-302 | any sequence of job writes keeps the store's invariant |
| JobPlan.ApplyAllGrows | src/web/app.py:173-302 | job writes keep every earlier artifact in place, add one per create and leave campaigns alone |
| JobPlan.ApplyAllArtifacts | src/web/app.py:188-298 | the k-th artifact a job creates is the k-th new row, with id number serial + k, in the job's campaign |
| JobPlan.ApplyAllJob | src/web/app.py:173-302 | the job row ends with the last update's status, message and result id, keeps its id, campaign, kind and creation time, and no other job changes |
| JobPlan.FinalIsLastUpdate | src/web/app.py:173-302 | the update that decides the job row is the last update of the run, none when it posts none |
| JobPlan.CreatedIsFound | src/web/app.py:188-298 | after the writes, each created artifact is found under its predicted id |
| JobPlan.EndsAt | src/web/app.py:173-302 | a run whose updates are progress and then `last` leaves the job as `last` says |
| JobPlan.EndsDone | src/web/app.py:300 | a run whose last update names its k-th artifact ends `done` with that artifact stored in the campaign |
| JobPlan.NothingCreated | src/web/app.py:301-302 | a run that creates nothing leaves artifacts and campaigns as they were |
| JobPlan.StoredAs | src/web/app.py:188-298 | the k-th created artifact is found under id serial + k, with its kind, in the job's campaign |
| JobPlan.StoredUnder | src/web/app.py:188-298 | the artifact found under the k-th predicted id is the k-th draft, in the job's campaign |
| JobPlan.LinkStored | src/web/app.py:285-298 | an artifact that records another's predicted id links to it once both are stored |
| JobPlan.StoredAll | src/web/app.py:188-298 | every created artifact is stored under its predicted id |
| JobPlan.CountKindIsMultiplicity | src/web/app.py:188-298 | the count of a kind is its multiplicity among the kinds |
| PackJob.KindsDistinct | src/web/app.py:190-287 | the nine artifact kinds are distinct strings |
| PackSchema.Field.Shown | src/web/app.py:287 | `pack.get(k, d)` formatted is the text when present and the default when absent |
| PackSchema.Field.Value | src/web/app.py:288 | `pack.get(k, d)` is None exactly for a JSON null |
| PackJob.FieldMeta | src/web/app.py:281-290 | a pack field stored in meta (`pack.get("title")`, `pack.get("starting_location")`) is its string when the key holds one, and null when it is absent or null |
| PackJob.LocationName | src/web/app.py:257 | the location name is the stripped name, or `location` when it is missing or blank |
| PackJob.MapDimension | src/web/app.py:259-260 | a falsy width or height (missing, null, `false`, `0`, `0.0`, `""`) is 20; an integer is itself and `true` is 1; a float is cut toward zero; `NaN` and the infinities raise their `int` errors; text is read as `int` reads it, and text `int` rejects raises "invalid literal …" with at most the first 200 characters of the text's `repr` |
| PackJob.Truncate | src/web/app.py:259-260 | `int` of a finite float is the integer next to it toward zero: never further from zero than the float, and less than one away |
| PackJob.MapDimensionExamples | src/web/app.py:259-260 | `30.5` gives 30, `-2.5` gives -2, `0.0` gives 20, and the fullwidth text `２０` gives 20 |
| PackJob.IntErrorCut | src/web/app.py:259-260 | the `ValueError` message quotes at most 200 characters of `repr` (`%.200R`): a short `repr` whole, and a text of 199 characters or more cut after the 200th, its closing quote lost |
| PackJob.MapDimensionSeparator | src/web/app.py:259-260 | a size text led by U+001C fails the map stage with the `int` error, although `strip` would remove that character |
| PackJob.IntErrorQuotes | src/web/app.py:259-260 | the text `5'` is quoted as `"5'"` in the error, as `repr` chooses double quotes for it |
| PackJob.MapDimensionOfText | src/web/app.py:259-260 | a size given as the decimal text of a number is that number |
| PackJob.FirstLocations | src/web/app.py:256 | at most the first six locations are drawn, in order |
| PackJob.MapOp | src/web/app.py:257-270 | a drawn map stores a `file.map_png` artifact |
| PackJob.MapOpOk | src/web/app.py:257-270 | a location's map succeeds iff both sizes convert and the writer returns; it then stores that location's map, and a bad width is the error |
| PackJob.Steps | src/web/app.py:256-270 | the loop makes at most one write per location |
| PackJob.StepsShape | src/web/app.py:256-270 | the loop's writes are those of a leading run of successful items; when it stops, the next item's error is the failure |
| PackJob.MapOpsShape | src/web/app.py:256-270 | the map stage stores only maps, the k-th being the k-th location's; all locations on success, else the first failing location's error |
| PackJob.MapDrafts | src/web/app.py:256-270 | the map stage stores one `file.map_png` per successful location and posts no update |
| PackJob.MapsSucceedIff | src/web/app.py:256-270 | the map stage succeeds iff every location's map does |
| PackJob.MapsOfLocations | src/web/app.py:256-270 | the k-th stored map is the map of the k-th location |
| PackJob.SafeNameBounds | src/web/app.py:261 | the name part of a map file has at most 40 characters and no whitespace |
| PackJob.SafeNameNonEmpty | src/web/app.py:257-261 | every location gets a non-empty name part |
| PackJob.SameFile | src/web/app.py:261-262 | the map path depends only on name part, size and job id: names with equal name parts share a file, though their titles differ |
| PackJob.SafeNameCollides | src/web/app.py:261 | two words joined by a space and by `_` give the same name part |
| PackJob.NorthGate | src/web/app.py:261 | `North Gate` and `North_Gate` share a name part |
| PackJob.RenderParts | src/web/app.py:219-252 | the render stage stores PNG and PDF, or the warning with the exception's text, or nothing; it posts no update |
| PackJob.FinishParts | src/web/app.py:272-300 | the last stage posts `Writing printable PDF`, then stores PDF and premise and ends `done` with the PDF's id, or ends with the writer's error |
| PackJob.StagesParts | src/web/app.py:182-300 | the stages after building, as artifacts and updates |
| PackJob.PlanParts | src/web/app.py:173-302 | a failed build stores nothing and posts `Designing campaign` then the error; a built pack continues with the stages |
| PackJob.Failure | src/web/app.py:173-302 | the job fails iff the build fails or a later stage other than rendering raises |
| PackJob.FinalOp | src/web/app.py:300-302 | the final update is `done` iff nothing raised |
| PackJob.PackDrafts | src/web/app.py:188-298 | artifacts are stored in the order JSON, Mermaid, DOT, render artifacts, maps, then PDF and premise |
| PackJob.PackUpdates | src/web/app.py:175-302 | the job posts `running` updates, beginning with `Designing campaign`, then one final update: the first exception, or `done` with the id of the PDF |
| PackJob.BuildFailure | src/web/app.py:175-180 | when building raises, the job stores nothing and ends `error` with the exception's text |
| PackJob.PackDone | src/web/app.py:300 | when nothing raises, the job ends `done` with its result id naming the stored campaign-pack PDF in its campaign |
| PackJob.PdfAt | src/web/app.py:272-298 | when nothing raises, the PDF is the artifact after the maps, and the premise follows it |
| PackJob.PackKinds | src/web/app.py:188-298 | the kinds a built pack stores, in order |
| PackJob.PackCounts | src/web/app.py:188-298 | one JSON, Mermaid and DOT each; PNG and PDF only when rendered; one warning only when rendering raised (none when Graphviz is absent); at most six maps; PDF and premise only when nothing raised |
| PackJob.PackFails | src/web/app.py:301-302 | when a map or the PDF raises, the job ends `error` with that text, and neither PDF nor premise is stored |
| PackJob.PremiseMeta | src/web/app.py:285-298 | the premise's meta records the JSON, Mermaid, DOT and PDF ids and the `rendered` flag |
| PackJob.PackPremise | src/web/app.py:285-298 | when nothing raises, the stored premise links to the stored JSON, Mermaid, DOT and PDF artifacts of the run, and records whether rendering succeeded |
| PackJob.WarningStored | src/web/app.py:244-252 | when rendering raises, the artifact after the diagram sources is the warning with the exception's text |
| PackJob.MapsStored | src/web/app.py:254-270 | the maps follow the render's artifacts, the k-th being the map of the k-th location |
| PackJob.NonNumericWidth | src/web/app.py:259-260 | a first location whose width is non-numeric text ends the job `error` with the `int` error and stores no map |
| Runner.WriteSources | src/web/app.py:182-217 | the JSON artifact, `Writing flowchart`, then the Mermaid and DOT artifacts are written in place, with the ids they get |
| Runner.RenderFlowchart | src/web/app.py:219-252 | the optional render writes its stage's artifacts, and `rendered` is true only when Graphviz rendered |
| Runner.GenerateMaps | src/web/app.py:254-270 | the loop over locations writes the map stage's artifacts and returns its failure |
| Runner.WritePrintable | src/web/app.py:272-300 | the last stage writes its writes in place |
| Runner.RunPackStages | src/web/app.py:177-300 | the stages after building perform exactly their write sequence |
| Runner.RunCampaignPack | src/web/app.py:173-302 | `_job_generate_campaign_pack` performs exactly the job's write sequence and keeps the invariant |
| Runner.RunMapJob | src/web/app.py:322-341 | `_job_generate_map` performs exactly that job's write sequence |
| Runner.RunPortraitJob | src/web/app.py:387-415 | `_job_generate_portraits_pdf` performs exactly that job's write sequence |
| SingleJobs.OneStageParts | src/web/app.py:322-341 | a one-stage job stores its artifact and ends `done` naming it, or stores nothing and ends with the error |
| SingleJobs.OneStageDone | src/web/app.py:332-339 | a stage that succeeds leaves its artifact stored and the job `done` naming it |
| SingleJobs.OneStageFails | src/web/app.py:340-341 | a stage that raises stores nothing and leaves the job `error` with the exception's text |
| SingleJobs.MapOutcome | src/web/app.py:328-338 | the map job stores `file.map_png` at `map_{w}x{h}_{job}.png` iff the writer returns |
| SingleJobs.MapJobDone | src/web/app.py:322-339 | a drawn map is stored as `file.map_png` with its size, and the job ends `done` naming it |
| SingleJobs.MapJobFails | src/web/app.py:340-341 | a raising map writer leaves the artifacts as they were and ends the job `error` |
| SingleJobs.PortraitsOutcome | src/web/app.py:391-412 | the portrait job succeeds iff uploads exist, hold images that all open, the grid is non-zero and the writer returns; a missing directory and an imageless one give their errors |
| SingleJobs.PortraitsJobDone | src/web/app.py:387-413 | with images that all open and a non-empty grid, the PDF is stored and the job ends `done` naming it |
| SingleJobs.PortraitsWithoutUploads | src/web/app.py:392-393 | without an uploads directory, nothing is stored and the job ends with "No uploads directory; upload images first" |
| SingleJobs.PortraitsUnreadableImage | src/image_processing/portrait_pdf_gen.py:65 | an image-suffixed upload that does not open as an image fails the job with the exception of the first such image, and nothing is stored |
| SingleJobs.PortraitsWithoutImages | src/image_processing/portrait_pdf_gen.py:32-34 | an uploads directory without images stores nothing and ends the job with "No images found in ..." |
| Handlers.EnqueueFacts | src/web/app.py:312-317 | an unknown campaign gets a 404 and no job; a known one gets a fresh `queued`/`Queued` job of the handler's kind in that campaign, and the job list |
| Handlers.QueueJob | src/web/app.py:312-316 | the lookup and create on the store object perform `Enqueue` |
| Handlers.GenerateCampaignPack | src/web/app.py:305-319 | the handler queues a `campaign_pack` job and schedules the task with its id and the prompt, only when the campaign exists |
| Handlers.GenerateMap | src/web/app.py:344-359 | the handler queues a `map` job with width and height defaulting to 20 |
| Handlers.GeneratePortraitsPdf | src/web/app.py:418-438 | the handler queues a `portraits_pdf` job with columns and rows defaulting to 2 and 3 |
| Handlers.TaskNamesQueuedJob | src/web/app.py:316-317 | the scheduled task names an existing `queued` job of the campaign |
| Handlers.EscapeHasNoTag | src/web/app.py:118 | no `<` is left in a text artifact's page body |
| Handlers.EscapeRoundTrip | src/web/app.py:118 | a text without `&` reads back from the page as written |
| Handlers.AmpersandNotEscaped | src/web/app.py:118 | `<` and `&lt;` give the same page, because `&` is not escaped |
| Handlers.ArtifactResponseFacts | src/web/app.py:104-120 | unknown id: 404; a file artifact: the file, or 404 when missing on disk; otherwise `<pre>` + escaped text (None as empty) + `</pre>` |
| Handlers.GetArtifactPage | src/web/app.py:104-120 | the handler on the store object answers as `ArtifactResponse` |
| Handlers.SegmentsHaveNoSlash | src/web/app.py:379 | the segments of a path hold no `/` |
| Handlers.Segments | src/web/app.py:379 | a path text splits into at least one segment |
| Handlers.ComponentsKeep | src/web/app.py:379 | the components `PurePath` keeps are non-empty segments other than `.` |
| Handlers.BaseNameIsOneComponent | src/web/app.py:379 | `Path(f.filename).name` holds no `/` and is not `.` |
| Handlers.Named | src/web/app.py:377-378 | the parts kept are those with a non-empty file name |
| Handlers.SavedCount | src/web/app.py:375-384 | when no write fails, the count is the number of parts with a non-empty file name |
| Handlers.SavedNames | src/web/app.py:376-382 | when no write fails, every named part is saved under its base name |
| Handlers.LastWins | src/web/app.py:379-382 | a later part with the same base name overwrites the earlier one, and is still counted |
| Handlers.KeepsOld | src/web/app.py:379-381 | files already in the uploads directory stay |
| Handlers.UnwritableStops | src/web/app.py:379-381 | a file name whose base name is empty or `..` makes `open` raise, and nothing more is saved |
| Handlers.StoppedStays | src/web/app.py:376-382 | once a part has raised, later parts change nothing |
| Handlers.SaveParts | src/web/app.py:375-382 | the loop computes `SaveAll` |
| Handlers.UploadFiles | src/web/app.py:362-384 | an unknown campaign gets a 404 with the directory unchanged; otherwise the loop's files and the `Uploaded n file(s)` page |
| PortraitPdf.Lower | src/image_processing/portrait_pdf_gen.py:15 | `lower()` maps each character |
| PortraitPdf.Suffix | src/image_processing/portrait_pdf_gen.py:15 | `suffix` is empty or a final `.ext` with no other dot, shorter than the name |
| PortraitPdf.ImageFiles | src/image_processing/portrait_pdf_gen.py:10-16 | every entry kept has an image suffix |
| PortraitPdf.ImageFilesKeep | src/image_processing/portrait_pdf_gen.py:10-16 | exactly the image entries are kept, each as often as it was listed |
| PortraitPdf.ImageFilesMembers | src/image_processing/portrait_pdf_gen.py:10-16 | an entry is kept iff its lowercased suffix is `.jpg`, `.jpeg`, `.png`, `.bmp` or `.webp` |
| PortraitPdf.SuffixExamples | src/image_processing/portrait_pdf_gen.py:15 | `dwarf.PNG` is an image; `.png` has no suffix and is not |
| PortraitPdf.PyMod | src/image_processing/portrait_pdf_gen.py:53-58 | Python's `%` takes the divisor's sign |
| PortraitPdf.PyDiv | src/image_processing/portrait_pdf_gen.py:59 | Python's `//` is the floor quotient matching `%` |
| PortraitPdf.OpenFailure | src/image_processing/portrait_pdf_gen.py:51-65 | no error is reported exactly when every image opens |
| PortraitPdf.OpenFailureFirst | src/image_processing/portrait_pdf_gen.py:51-65 | the error reported is that of the first image that does not open, whatever the images after it give |
| PortraitPdf.Generate | src/image_processing/portrait_pdf_gen.py:29-83 | the PDF is laid out iff the input is a directory with images, the grid is non-zero and every image opens; the layout is then `Layout` of the images, and an image that does not open gives the first such exception |
| PortraitPdf.Layout | src/image_processing/portrait_pdf_gen.py:50-83 | every image is placed exactly once, in list order |
| PortraitPdf.Place | src/image_processing/portrait_pdf_gen.py:50-83 | the loop with its `count` computes `Layout`, or stops at the first image that does not open with its exception |
| PortraitPdf.GeneratePdf | src/image_processing/portrait_pdf_gen.py:29-83 | the whole function computes `Generate` |
| PortraitPdf.NextPage | src/image_processing/portrait_pdf_gen.py:53-54 | image n opens a page exactly when `n % (columns*rows) == 0` |
| PortraitPdf.PagesAreCeiling | src/image_processing/portrait_pdf_gen.py:50-83 | n images take ceil(n / (columns*rows)) pages |
| PortraitPdf.SlotInGrid | src/image_processing/portrait_pdf_gen.py:57-59 | with columns, rows >= 1, a slot has 0 <= col < columns and 0 <= row < rows, filled row-major |
| PortraitPdf.SlotsDistinct | src/image_processing/portrait_pdf_gen.py:57-59 | two images on one page get different cells |
| PortraitPdf.LayoutShape | src/image_processing/portrait_pdf_gen.py:50-83 | the document lists every image once, in order, each on a page before the ceiling count |
| PortraitPdf.PageCountGrows | src/image_processing/portrait_pdf_gen.py:53-54 | more images never take fewer pages |
| ComfyUi.RStrip | src/image_generation/comfyui.py:23 | `rstrip("/")` removes exactly the trailing run of `/` |
| ComfyUi.BaseUrlAsWritten | src/image_generation/comfyui.py:19-23 | `_base_url` is None iff the variable is unset or empty, else the value without trailing `/` |
| ComfyUi.BaseUrl | src/image_generation/comfyui.py:19-23 | corrected: None also when the value is only slashes, so a base is never empty |
| ComfyUi.UrlEitherBase | src/image_generation/comfyui.py:30-33 | `_url` answers the same with either base function |
| ComfyUi.ConfiguredIffUrl | src/image_generation/comfyui.py:26-36 | configured iff `_url` builds URLs; otherwise it raises "COMFYUI_BASE_URL is not set" |
| ComfyUi.UrlShape | src/image_generation/comfyui.py:30-36 | a URL is the base, then the path with one `/` put in front when missing |
| ComfyUi.SlashOnlyBaseAsWritten | src/image_generation/comfyui.py:19-36 | as written, `COMFYUI_BASE_URL=/` is configured and yet every URL raises |
| ComfyUi.Txt2ImgCloses | src/image_generation/comfyui.py:54-76 | the workflow has exactly the keys "3" to "9", and every link names one of them |
| ComfyUi.SamplerLinks | src/image_generation/comfyui.py:59-73 | the sampler links only to nodes "4" to "7" |
| ComfyUi.Txt2ImgArguments | src/image_generation/comfyui.py:55-75 | the arguments reach their inputs unchanged; `batch_size` is 1 |
| ComfyUi.SamplerArguments | src/image_generation/comfyui.py:59-73 | the sampler gets seed, steps, cfg, sampler and scheduler as given, and `denoise` 1.0 |
| ComfyUi.SamplerWiring | src/image_generation/comfyui.py:68-71 | the sampler takes the checkpoint's model and both prompts and the latent |
| ComfyUi.Txt2ImgWiring | src/image_generation/comfyui.py:55-75 | the linked nodes are the checkpoint loader, the two prompt encoders, the latent, the sampler and the decoder, through the right slots |
| ComfyUi.PromptId | src/image_generation/comfyui.py:83-86 | a falsy `prompt_id` raises "Unexpected ComfyUI response: ..." |
| ComfyUi.PromptIdKept | src/image_generation/comfyui.py:83-86 | otherwise `str(prompt_id)` is returned: a string as it is, an integer as its decimal text, a float as Python's text of it; it is never empty |
| ComfyUi.SelectImageIsFirst | src/image_generation/comfyui.py:111-122 | the chosen image is the first image of the first output that has images; none exactly when no output has |
| ComfyUi.RefDefaults | src/image_generation/comfyui.py:118-122 | missing keys default to filename `""`, subfolder `""`, type `output` |
| ComfyUi.FindImage | src/image_generation/comfyui.py:113-122 | the loop over outputs computes `SelectImage` |
| ComfyUi.PollOnce | src/image_generation/comfyui.py:108-122 | one poll returns an image only when the history holds the prompt and one of its outputs has images |
| ComfyUi.DownloadGuard | src/image_generation/comfyui.py:129-137 | an empty filename is refused before any URL is built; otherwise the request is `/view` with the ref's fields |

## Left out

- The language-model call and its prompt text are left out (src/ai_tools/generator.py is not part of this model). The builder is an input: a reply text (or None) or the client's error.
- `json.loads` and `json.dumps` are left out, because they are a foreign parser: `loads` is a function parameter, and the JSON file's content is not modelled.
- `write_campaign_pack_pdf` is left out, because FPDF layout is a foreign library. It is an input that returns or raises. As a result, the rule that an NPC's secret is printed only when non-empty, and the cap of six player options per scene, are not modelled.
- `render_flowchart_graphviz` (`shutil.which` and `subprocess`) is left out: it is an input that renders, finds no `dot`, or raises.
- `generate_simple_map` (random grid and matplotlib) is left out: it is an input that returns or raises.
- Image fitting and positions in floating point, PIL and FPDF in the portrait PDF are left out, as is the typer command line. The model keeps the pages and the (page, col, row) slot of each image.
  Whether `Image.open` and `pdf.image` succeed on an image is an input (`opens`), which gives the exception's text when they raise.
- Filesystem writes and `mkdir` are assumed to succeed, except in the upload loop, where `open` on a directory raises.
  The JSON, Mermaid and DOT `write_text` calls are assumed not to raise.
- An exception's message is modelled as its text `str(e)`. For the upload loop's `open` failure, only the failure is kept.
- SQLite itself (connections, pragmas, indexes, cascades) is left out. Foreign keys are not enforced, because `PRAGMA foreign_keys` holds only on the connection of `init_db`. So `create_artifact` does not check the campaign.
- Real time and `uuid4` are left out. A clock ticks once per stamped write and ids are serial numbers, so two stamps never tie. The model does not capture rows written within the same second.
- FastAPI routing, templates and `BackgroundTasks` are left out. A handler returns the task it schedules, and each job is one sequential method call. Concurrent jobs are not modelled.
- The ComfyUI HTTP requests and the time-based polling loop are left out; one poll's answer is an input. `cfg` is a `real`.
  Python's text of a float `prompt_id` is an input (`floatRepr`). A list or object `prompt_id` is not modelled.
- `json.dumps` key order is taken as insertion order, and `meta.get` is a lookup in that order.
- PortraitPdf.Lower: Python's `str.lower` is modelled on ASCII letters only. The two non-ASCII characters that lower to ASCII (U+0130 and U+212A) are named in the model's comments and not lowered.
- PackSchema.Pack: the decoded pack is taken to be well-typed, because the typed pack has no place for a JSON value of the wrong type. String fields hold strings (node `text`, option `label`, location `name`, `title`, `premise`, `starting_location`), and nodes, options, locations and `map` are objects. The `AttributeError` and `TypeError` exits of an ill-typed pack are not modelled. Examples: options given as strings make `opt.get` raise, a numeric `text` or `label` makes `.replace` raise, a numeric location `name` makes `.strip()` raise, and a list `map` makes `.get` raise.
- Runner.WriteSources: always stores the Mermaid and DOT artifacts after the JSON one (as does PackJob.SourceOps), because the pack is well-typed (see PackSchema.Pack). With an ill-typed decision flow, the source's writers raise after the JSON artifact is stored, and the job ends in `error` holding that one artifact.
- PackJob.FieldMeta: a `title` or `starting_location` that is a number, a boolean, a list or an object is stored in meta as that JSON value; the well-typed pack has only strings, absence and null there.
- PackJob.MapDimension: a list or object size (an empty one is treated as 20, others make `int` raise `TypeError`) is not modelled (see PackSchema.Pack). `repr` is written out only for characters up to U+00FF; characters above that are taken to be printable, and the `\u…` escapes of non-printable ones are not modelled. Python's limit on the length of integer text (4300 digits by default since 3.11, set by `sys.set_int_max_str_digits`) is interpreter configuration and is not modelled: a longer digit text reads as its number here, where Python raises.
- Handlers.SavedCount: the count is stated for runs in which no write raises. When one raises, the handler raises too and shows no count.
- Handlers.EscapeRoundTrip: stated for texts without `&`, because `&` is not escaped (see `Handlers.AmpersandNotEscaped`).

## Findings

| source | as written | input that shows it | evidently intended | confidence | as-written member | corrected member |
|---|---|---|---|---|---|---|
| src/image_generation/comfyui.py:19-36 | `_base_url` returns `""` for a value of slashes only, so `is_configured()` is true while `_url` raises "COMFYUI_BASE_URL is not set" | `COMFYUI_BASE_URL=/` | a value of slashes only is not configured, so `is_configured()` agrees with `_url` | medium, not executed | ComfyUi.SlashOnlyBaseAsWritten | ComfyUi.BaseUrl |
