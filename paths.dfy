/** The directory layout of src/web/paths.py. A path is its sequence of segments below `/`;
    the repository root is the absolute directory the code resolves from its own file. */
module Paths {
  import opened Text

  type Path = seq<string>

  /** `data_dir()`: root/data/app. */
  function DataDir(root: Path): Path {
    root + ["data"] + ["app"]
  }

  /** `db_path()`. */
  function DbPath(root: Path): Path {
    DataDir(root) + ["app.db"]
  }

  /** `campaigns_dir()`. */
  function CampaignsDir(root: Path): Path {
    DataDir(root) + ["campaigns"]
  }

  /** `p` is `dir` or lies somewhere below it. */
  predicate Under(p: Path, dir: Path) {
    |dir| <= |p| && p[..|dir|] == dir
  }

  /** `campaign_dir(campaign_id)`. */
  function CampaignDir(root: Path, campaignId: string): (p: Path)
    ensures p == root + ["data", "app", "campaigns", campaignId]
  {
    CampaignsDir(root) + [campaignId]
  }

  /** `campaign_uploads_dir(campaign_id)`. */
  function UploadsDir(root: Path, campaignId: string): (p: Path)
    ensures p == root + ["data", "app", "campaigns", campaignId, "uploads"]
  {
    CampaignDir(root, campaignId) + ["uploads"]
  }

  /** `campaign_artifacts_dir(campaign_id)`. */
  function ArtifactsDir(root: Path, campaignId: string): (p: Path)
    ensures p == root + ["data", "app", "campaigns", campaignId, "artifacts"]
  {
    CampaignDir(root, campaignId) + ["artifacts"]
  }

  /** `str(path)` of an absolute POSIX path. */
  function PathString(p: Path): string {
    "/" + Join("/", p)
  }

  /** `dir / name` rendered as text: the directory's text, a slash and the name. */
  lemma PathStringChild(dir: Path, name: string)
    requires dir != []
    ensures PathString(dir + [name]) == PathString(dir) + "/" + name
  {
    JoinSnoc("/", dir, name);
  }

  lemma {:induction false} JoinSnoc(sep: string, parts: seq<string>, last: string)
    requires parts != []
    ensures Join(sep, parts + [last]) == Join(sep, parts) + sep + last
    decreases |parts|
  {
    if |parts| == 1 {
      assert (parts + [last])[1..] == [last];
    } else {
      assert (parts + [last])[1..] == parts[1..] + [last];
      JoinSnoc(sep, parts[1..], last);
    }
  }

  /** The database file and the campaigns directory are different children of the data directory. */
  lemma DataChildrenDistinct(root: Path)
    ensures DbPath(root) != CampaignsDir(root)
    ensures |DbPath(root)| == |CampaignsDir(root)| == |DataDir(root)| + 1
  {
    assert DbPath(root)[|DataDir(root)|] != CampaignsDir(root)[|DataDir(root)|];
  }

  /** A campaign's uploads and artifacts directories are different children of its directory. */
  lemma CampaignChildrenDistinct(root: Path, campaignId: string)
    ensures UploadsDir(root, campaignId) != ArtifactsDir(root, campaignId)
    ensures UploadsDir(root, campaignId)[..|CampaignDir(root, campaignId)|] == CampaignDir(root, campaignId)
    ensures ArtifactsDir(root, campaignId)[..|CampaignDir(root, campaignId)|] == CampaignDir(root, campaignId)
  {
    var n := |CampaignDir(root, campaignId)|;
    assert UploadsDir(root, campaignId)[n] != ArtifactsDir(root, campaignId)[n];
  }

  /** Different campaign ids give different campaign directories, so no two campaigns
      share uploads or artifacts. */
  lemma CampaignDirInjective(root: Path, a: string, b: string)
    requires CampaignDir(root, a) == CampaignDir(root, b)
    ensures a == b
  {
    assert CampaignDir(root, a)[|root| + 3] == a;
  }

  /** No campaign directory is the database file. */
  lemma CampaignDirIsNotDb(root: Path, campaignId: string)
    ensures CampaignDir(root, campaignId) != DbPath(root)
  {
    assert |CampaignDir(root, campaignId)| != |DbPath(root)|;
  }

  /** Everything the application stores lies below the data directory, which lies below
      the repository root: the database file, and every campaign's directory with its
      uploads and artifacts. */
  lemma LayoutUnderData(root: Path, campaignId: string)
    ensures Under(DataDir(root), root) && |DataDir(root)| > |root|
    ensures Under(DbPath(root), DataDir(root)) && Under(CampaignsDir(root), DataDir(root))
    ensures Under(CampaignDir(root, campaignId), CampaignsDir(root))
    ensures Under(UploadsDir(root, campaignId), DataDir(root)) && Under(ArtifactsDir(root, campaignId), DataDir(root))
  {
    var d := DataDir(root);
    assert UploadsDir(root, campaignId)[..|d|] == d;
    assert ArtifactsDir(root, campaignId)[..|d|] == d;
  }

  /** Nothing below a campaign's directory is the database file or lies below it, so no
      upload or artifact of any campaign can overwrite the database. */
  lemma DbOutsideCampaigns(root: Path, campaignId: string, p: Path)
    requires Under(p, CampaignDir(root, campaignId))
    ensures !Under(p, DbPath(root))
  {
    var n := |DataDir(root)|;
    assert p[n] == CampaignDir(root, campaignId)[n] == "campaigns";
    assert DbPath(root)[n] == "app.db";
  }
}
