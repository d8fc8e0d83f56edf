/** The store of src/web/db.py as one object whose tables the writes change in place.
    Each write is proved to perform the transition of the same name in StoreModel, and
    each query to give that module's answer; what those transitions keep and what the
    queries answer is proved there. */
module Db {
  import opened Wrappers
  import opened StoreModel

  class Store {
    var campaigns: seq<Campaign>
    var artifacts: seq<Artifact>
    var jobs: seq<Job>
    var clock: nat
    var serial: nat

    /** The tables as a value. */
    function State(): Tables
      reads this
    {
      Tables(campaigns, artifacts, jobs, clock, serial)
    }

    /** Ids are issued and unique, rows are in creation order, stamps never repeat. */
    ghost predicate Valid()
      reads this
    {
      StoreModel.Valid(State())
    }

    /** `init_db()` on a fresh database. */
    constructor ()
      ensures State() == Empty
      ensures Valid()
    {
      campaigns, artifacts, jobs := [], [], [];
      clock, serial := 0, 0;
      EmptyIsValid();
    }

    /** `create_campaign(name)`. */
    method CreateCampaign(name: string) returns (c: Campaign)
      requires Valid()
      modifies this
      ensures (State(), c) == NewCampaign(old(State()), name)
      ensures Valid()
    {
      NewCampaignFacts(State(), name);
      clock := clock + 1;
      c := Campaign(IdOf(serial), name, clock);
      serial := serial + 1;
      campaigns := campaigns + [c];
    }

    /** `create_artifact(campaign_id=..., kind=..., title=..., ...)`. */
    method CreateArtifact(campaignId: string, d: Draft) returns (a: Artifact)
      requires Valid()
      modifies this
      ensures (State(), a) == NewArtifact(old(State()), campaignId, d)
      ensures Valid()
    {
      NewArtifactFacts(State(), campaignId, d);
      clock := clock + 1;
      var meta := if d.meta.Some? then d.meta.value else [];
      a := Artifact(IdOf(serial), campaignId, d.kind, d.title, d.textContent, d.filePath, meta, clock);
      serial := serial + 1;
      artifacts := artifacts + [a];
    }

    /** `create_job(campaign_id=..., kind=..., status=..., message=...)`. */
    method CreateJob(campaignId: string, kind: string, status: string, message: Option<string>) returns (j: Job)
      requires Valid()
      modifies this
      ensures (State(), j) == NewJob(old(State()), campaignId, kind, status, message)
      ensures Valid()
    {
      NewJobFacts(State(), campaignId, kind, status, message);
      clock := clock + 1;
      j := Job(IdOf(serial), campaignId, kind, status, message, None, clock, clock);
      serial := serial + 1;
      jobs := jobs + [j];
    }

    /** `update_job(job_id=..., status=..., message=..., result_artifact_id=...)`. */
    method UpdateJob(id: string, status: string, message: Option<string>, result: Option<string>)
      requires Valid()
      modifies this
      ensures State() == StoreModel.UpdateJob(old(State()), id, status, message, result)
      ensures Valid()
    {
      UpdateJobValid(State(), id, status, message, result);
      clock := clock + 1;
      var i := 0;
      var updated: seq<Job> := [];
      while i < |jobs|
        invariant 0 <= i <= |jobs|
        invariant updated == UpdatedJobs(jobs[..i], id, status, message, result, clock)
      {
        updated := updated + [UpdatedJob(jobs[i], id, status, message, result, clock)];
        i := i + 1;
      }
      assert jobs[..i] == jobs;
      jobs := updated;
    }

    /** `get_campaign(campaign_id)`. */
    method GetCampaign(id: string) returns (r: Option<Campaign>)
      ensures r == StoreModel.GetCampaign(State(), id)
    {
      var i := 0;
      while i < |campaigns| && campaigns[i].id != id
        invariant 0 <= i <= |campaigns|
        invariant CampaignById(campaigns[i..], id) == CampaignById(campaigns, id)
      {
        assert campaigns[i..][1..] == campaigns[i + 1..];
        i := i + 1;
      }
      r := if i < |campaigns| then Some(campaigns[i]) else None;
    }

    /** `get_artifact(artifact_id)`. */
    method GetArtifact(id: string) returns (r: Option<Artifact>)
      ensures r == StoreModel.GetArtifact(State(), id)
    {
      var i := 0;
      while i < |artifacts| && artifacts[i].id != id
        invariant 0 <= i <= |artifacts|
        invariant ArtifactById(artifacts[i..], id) == ArtifactById(artifacts, id)
      {
        assert artifacts[i..][1..] == artifacts[i + 1..];
        i := i + 1;
      }
      r := if i < |artifacts| then Some(artifacts[i]) else None;
    }

    /** `get_job(job_id)`. */
    method GetJob(id: string) returns (r: Option<Job>)
      ensures r == StoreModel.GetJob(State(), id)
    {
      var i := 0;
      while i < |jobs| && jobs[i].id != id
        invariant 0 <= i <= |jobs|
        invariant JobById(jobs[i..], id) == JobById(jobs, id)
      {
        assert jobs[i..][1..] == jobs[i + 1..];
        i := i + 1;
      }
      r := if i < |jobs| then Some(jobs[i]) else None;
    }

    /** `list_campaigns()`. */
    method ListCampaigns() returns (r: seq<Campaign>)
      ensures r == StoreModel.ListCampaigns(campaigns)
    {
      var i := |campaigns|;
      r := [];
      while i > 0
        invariant 0 <= i <= |campaigns|
        invariant |r| == |campaigns| - i
        invariant forall k :: 0 <= k < |r| ==> r[k] == campaigns[|campaigns| - 1 - k]
      {
        r := r + [campaigns[i - 1]];
        i := i - 1;
      }
    }

    /** `list_artifacts(campaign_id)`: the rows newest first, keeping the campaign's. */
    method ListArtifacts(campaignId: string) returns (r: seq<Artifact>)
      ensures r == StoreModel.ListArtifacts(artifacts, campaignId)
    {
      var rows := artifacts;
      var i := |rows|;
      r := [];
      assert rows[..i] == rows;
      while i > 0
        invariant 0 <= i <= |rows|
        invariant r + StoreModel.ListArtifacts(rows[..i], campaignId) == StoreModel.ListArtifacts(rows, campaignId)
      {
        var a := rows[i - 1];
        var pick := if a.campaignId == campaignId then [a] else [];
        ListArtifactsUnfold(rows, i, campaignId);
        assert r + (pick + StoreModel.ListArtifacts(rows[..i - 1], campaignId))
            == (r + pick) + StoreModel.ListArtifacts(rows[..i - 1], campaignId);
        r := r + pick;
        i := i - 1;
      }
    }

    /** `list_jobs(campaign_id, limit)`: the campaign's jobs sorted by update time, cut to the limit. */
    method ListJobs(campaignId: string, limit: int) returns (r: seq<Job>)
      ensures r == StoreModel.ListJobs(jobs, campaignId, limit)
    {
      var i := 0;
      var sorted: seq<Job> := [];
      while i < |jobs|
        invariant 0 <= i <= |jobs|
        invariant sorted == RecencyOrder(jobs[..i], campaignId)
      {
        assert jobs[..i + 1][..i] == jobs[..i];
        if jobs[i].campaignId == campaignId {
          sorted := Insert(sorted, jobs[i]);
        }
        i := i + 1;
      }
      assert jobs[..i] == jobs;
      r := if 0 <= limit < |sorted| then sorted[..limit] else sorted;
    }
  }
}
