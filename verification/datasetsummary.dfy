/** `dataset_summary`: the number of transcripts and the set of agent names
    seen across every list-valued `content`. */
module DatasetSummary {
  import opened Results
  import opened Transcripts

  datatype Summary = Summary(totalTranscripts: nat, uniqueAgentsCount: nat, uniqueAgents: set<string>)

  /** `msg.get("agent", "Unknown")`. */
  function AgentOrUnknown(m: Message): string
  {
    Get(m, "agent", "Unknown")
  }

  /** `a` is the agent (or the "Unknown" stand-in) of some message of a
      transcript in `ids`. */
  ghost predicate SeenIn(ds: Dataset, ids: set<string>, a: string)
  {
    exists id, i :: id in ids && id in ds && 0 <= i < |Chat(ds[id])| && AgentOrUnknown(Chat(ds[id])[i]) == a
  }

  /** The 500 raised when the DataFrame has no `content` column:
      `str(KeyError('content'))`. */
  function NoContentColumn(): Failure
  {
    HttpError(500, Describe(KeyError("content")))
  }

  /** Walks the `content` column row by row, collecting agent names.  Fails
      with 500 when no record has a `content` field, which includes the empty
      dataset left by a failed load. */
  method ComputeSummary(ds: Dataset) returns (r: Result<Summary, Failure>)
    ensures r.Err? <==> "content" !in Columns(ds)
    ensures r.Err? ==> r.error == HttpError(500, "'content'")
    ensures r.Ok? ==> r.value.totalTranscripts == |ds|
    ensures r.Ok? ==> r.value.uniqueAgentsCount == |r.value.uniqueAgents|
    ensures r.Ok? ==> forall a :: a in r.value.uniqueAgents <==> SeenIn(ds, ds.Keys, a)
  {
    if "content" !in Columns(ds) {
      return Err(NoContentColumn());
    }
    var agents: set<string> := {};
    var todo := ds.Keys;
    while todo != {}
      invariant todo <= ds.Keys
      invariant forall a :: a in agents <==> SeenIn(ds, ds.Keys - todo, a)
      decreases todo
    {
      var id :| id in todo;
      RowChat(ds, id);
      var chat := Chat(Row(ds, id));
      var i := 0;
      while i < |chat|
        invariant 0 <= i <= |chat|
        invariant forall a :: a in agents <==>
                    SeenIn(ds, ds.Keys - todo, a) || exists j :: 0 <= j < i && AgentOrUnknown(chat[j]) == a
      {
        agents := agents + {AgentOrUnknown(chat[i])};
        i := i + 1;
      }
      forall a | SeenIn(ds, ds.Keys - (todo - {id}), a)
        ensures a in agents
      {
        var id', j :| id' in ds.Keys - (todo - {id}) && id' in ds && 0 <= j < |Chat(ds[id'])|
                      && AgentOrUnknown(Chat(ds[id'])[j]) == a;
        if id' != id {
          assert SeenIn(ds, ds.Keys - todo, a);
        }
      }
      todo := todo - {id};
    }
    return Ok(Summary(|ds|, |agents|, agents));
  }

  /** Records whose `content` is missing or not a list add no agents. */
  lemma NonListContentAddsNoAgent(ds: Dataset, id: string, a: string)
    requires id in ds && !("content" in ds[id] && ds[id]["content"].List?)
    ensures SeenIn(ds, ds.Keys, a) <==> SeenIn(ds, ds.Keys - {id}, a)
  {
  }

  /** Every message contributes its agent, "Unknown" standing in for a
      missing one. */
  lemma MessageAgentIsSeen(ds: Dataset, id: string, i: int)
    requires id in ds && 0 <= i < |Chat(ds[id])|
    ensures "agent" in Chat(ds[id])[i] ==> SeenIn(ds, ds.Keys, Chat(ds[id])[i]["agent"])
    ensures "agent" !in Chat(ds[id])[i] ==> SeenIn(ds, ds.Keys, "Unknown")
  {
    assert AgentOrUnknown(Chat(ds[id])[i]) == Get(Chat(ds[id])[i], "agent", "Unknown");
  }

  /** After the corpus failed to load, the summary fails with 500. */
  method SummaryAfterLoadFailure(reason: string) returns (r: Result<Summary, Failure>)
    ensures r == Err(HttpError(500, "'content'"))
  {
    r := ComputeSummary(LoadDataset(Unreadable(reason)));
  }
}
