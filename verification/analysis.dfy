/** `analyze_transcript`: look a transcript up, count each of the two agents'
    messages, read the article URL and the two sentiment labels with their
    defaults, render the conversation as text, and attach the summary. */
module Analysis {
  import opened Results
  import opened Transcripts
  import PyText
  import Summarizer

  /** `msg.get("agent") == agent`: a message without an `agent` key matches no
      agent. */
  predicate SentBy(m: Message, agent: string)
  {
    "agent" in m && m["agent"] == agent
  }

  function SentByAgent(agent: string): Message -> bool
  {
    m => SentBy(m, agent)
  }

  /** `"message" in msg`: the key is present, whatever its value. */
  predicate HasText(m: Message)
  {
    "message" in m
  }

  /** The positions in `chat` of the messages that satisfy `p`. */
  ghost function IndicesWhere(chat: seq<Message>, p: Message -> bool): set<int>
  {
    set i | 0 <= i < |chat| && p(chat[i])
  }

  /** `sum(1 for msg in chat if p(msg))`. */
  function CountWhere(chat: seq<Message>, p: Message -> bool): (n: nat)
    ensures n <= |chat|
  {
    if |chat| == 0 then 0
    else CountWhere(chat[..|chat| - 1], p) + (if p(chat[|chat| - 1]) then 1 else 0)
  }

  /** The count is the number of positions whose message satisfies `p`. */
  lemma {:induction false} CountWhereIsIndexCount(chat: seq<Message>, p: Message -> bool)
    ensures CountWhere(chat, p) == |IndicesWhere(chat, p)|
  {
    if |chat| > 0 {
      var n := |chat| - 1;
      CountWhereIsIndexCount(chat[..n], p);
      var before := IndicesWhere(chat[..n], p);
      assert IndicesWhere(chat, p) == before + (if p(chat[n]) then {n} else {});
      assert n !in before;
    }
  }

  /** The number of messages `agent` sent. */
  function AgentMessages(chat: seq<Message>, agent: string): nat
  {
    CountWhere(chat, SentByAgent(agent))
  }

  /** `agent_1_messages` counts exactly the messages whose `agent` is
      `"agent_1"` (and likewise for any agent name). */
  lemma AgentMessagesCountsSenders(chat: seq<Message>, agent: string)
    ensures AgentMessages(chat, agent) == |set i | 0 <= i < |chat| && SentBy(chat[i], agent)|
  {
    CountWhereIsIndexCount(chat, SentByAgent(agent));
    assert IndicesWhere(chat, SentByAgent(agent))
        == set i | 0 <= i < |chat| && SentBy(chat[i], agent);
  }

  /** The two counts never exceed the number of messages, and they add up to
      it exactly when every message was sent by `agent_1` or `agent_2`. */
  lemma {:induction false} TwoAgentTotal(chat: seq<Message>)
    ensures AgentMessages(chat, "agent_1") + AgentMessages(chat, "agent_2") <= |chat|
    ensures AgentMessages(chat, "agent_1") + AgentMessages(chat, "agent_2") == |chat|
        <==> (forall i :: 0 <= i < |chat| ==> SentBy(chat[i], "agent_1") || SentBy(chat[i], "agent_2"))
  {
    if |chat| > 0 {
      var n := |chat| - 1;
      var prefix := chat[..n];
      TwoAgentTotal(prefix);
      assert forall i :: 0 <= i < n ==> prefix[i] == chat[i];
    }
  }

  /** The sentiment label of `agent`: `rating.get(agent, "Unknown")`, which
      raises when the rating is not a mapping. */
  function Sentiment(rating: Value, agent: string): (r: Result<string, PyError>)
    ensures r.Ok? <==> rating.Dict?
    ensures r.Err? ==> r.error == AttributeError(PyType(rating), "get")
  {
    match rating
    case Dict(entries) => Ok(Get(entries, agent, "Unknown"))
    case _ => Err(AttributeError(PyType(rating), "get"))
  }

  /** One line of the rendered conversation. */
  function RenderLine(m: Message): string
    requires "agent" in m && "message" in m
  {
    m["agent"] + ": " + m["message"]
  }

  /** The lines `[f"{m['agent']}: {m['message']}" for m in chat if "message" in m]`:
      indexing `m['agent']` raises when a message with text has no agent. */
  function RenderLines(chat: seq<Message>): (r: Result<seq<string>, PyError>)
    ensures r.Err? <==> exists i :: 0 <= i < |chat| && HasText(chat[i]) && "agent" !in chat[i]
    ensures r.Err? ==> r.error == KeyError("agent")
    ensures r.Ok? ==> |r.value| == CountWhere(chat, HasText)
  {
    if |chat| == 0 then Ok([])
    else
      var n := |chat| - 1;
      var m := chat[n];
      assert forall i :: 0 <= i < n ==> chat[..n][i] == chat[i];
      var lines :- RenderLines(chat[..n]);
      if !HasText(m) then Ok(lines)
      else if "agent" !in m then Err(KeyError("agent"))
      else Ok(lines + [RenderLine(m)])
  }

  /** Each message with text has its line, and the line of the `i`-th message
      sits after the lines of exactly the messages with text before it: the
      lines follow the conversation's order. */
  lemma {:induction false} RenderLinePosition(chat: seq<Message>, i: int)
    requires RenderLines(chat).Ok?
    requires 0 <= i < |chat| && HasText(chat[i])
    ensures "agent" in chat[i]
    ensures CountWhere(chat[..i], HasText) < |RenderLines(chat).value|
    ensures RenderLines(chat).value[CountWhere(chat[..i], HasText)] == RenderLine(chat[i])
  {
    var n := |chat| - 1;
    var prefix := chat[..n];
    assert forall j :: 0 <= j < n ==> prefix[j] == chat[j];
    if i < n {
      RenderLinePosition(prefix, i);
      assert prefix[..i] == chat[..i];
    } else {
      assert chat[..i] == prefix;
    }
  }

  /** No rendered line contains `c` when no agent name or message text does. */
  lemma {:induction false} RenderedLinesAvoid(chat: seq<Message>, c: char)
    requires RenderLines(chat).Ok?
    requires forall i :: 0 <= i < |chat| && HasText(chat[i]) && "agent" in chat[i] ==>
               c !in chat[i]["agent"] && c !in chat[i]["message"] && c !in ": "
    ensures forall j :: 0 <= j < |RenderLines(chat).value| ==> c !in RenderLines(chat).value[j]
  {
    if |chat| > 0 {
      var n := |chat| - 1;
      var prefix := chat[..n];
      assert forall j :: 0 <= j < n ==> prefix[j] == chat[j];
      RenderedLinesAvoid(prefix, c);
    }
  }

  /** `"\n".join(lines)`: the conversation as one text. */
  function RenderConversation(chat: seq<Message>): (r: Result<string, PyError>)
    ensures r.Ok? <==> RenderLines(chat).Ok?
    ensures r.Err? ==> r.error == KeyError("agent")
    ensures r.Ok? && CountWhere(chat, HasText) == 0 ==> r.value == ""
  {
    var lines :- RenderLines(chat);
    Ok(PyText.Join(lines, '\n'))
  }

  /** When no agent name or message text contains a newline, splitting the
      rendered text at newlines gives back exactly the rendered lines: one per
      message with text, in order, with no trailing empty line. */
  lemma RenderedTextSplitsIntoLines(chat: seq<Message>)
    requires RenderConversation(chat).Ok?
    requires CountWhere(chat, HasText) >= 1
    requires forall i :: 0 <= i < |chat| && HasText(chat[i]) && "agent" in chat[i] ==>
               '\n' !in chat[i]["agent"] && '\n' !in chat[i]["message"]
    ensures PyText.Split(RenderConversation(chat).value, '\n') == RenderLines(chat).value
  {
    RenderedLinesAvoid(chat, '\n');
    PyText.SplitJoin(RenderLines(chat).value, '\n');
  }

  /** The endpoint's response body. */
  datatype Analysis = Analysis(
    articleUrl: Value,
    agent1Messages: nat,
    agent2Messages: nat,
    agent1Sentiment: string,
    agent2Sentiment: string,
    summary: string)

  /** The 404 raised for an unknown transcript id. */
  function NotFound(id: string): Failure
  {
    HttpError(404, "Transcript ID " + id + " not found")
  }

  /** `transcript_id not in df.index` and `df.loc[transcript_id]`. */
  function Lookup(ds: Dataset, id: string): (r: Result<map<string, Value>, Failure>)
    ensures r.Ok? <==> id in ds
    ensures r.Ok? ==> r.value.Keys == Columns(ds)
    ensures r.Err? ==> r.error == NotFound(id)
  {
    if id in ds then Ok(Row(ds, id)) else Err(NotFound(id))
  }

  /** The `conversation_rating` value read from the row, `{}` when the
      DataFrame has no such column. */
  function RatingOf(row: map<string, Value>): Value
  {
    Get(row, "conversation_rating", Dict(map[]))
  }

  /** Everything after the lookup, given the article URL and rating values
      as read from the row.  `complete` stands for the external completion
      call, given the rendered text. */
  function Respond(chat: seq<Message>, articleUrl: Value, rating: Value,
                   complete: string -> Summarizer.Completion): (r: Result<Analysis, Failure>)
    ensures r.Ok? <==> rating.Dict? && RenderLines(chat).Ok?
    ensures r.Err? ==> r.error.Unhandled? && r.error.Status() == 500
    ensures r.Ok? ==> r.value.articleUrl == articleUrl
    ensures r.Ok? ==> r.value.agent1Messages + r.value.agent2Messages <= |chat|
  {
    var s1 := Sentiment(rating, "agent_1");
    var s2 := Sentiment(rating, "agent_2");
    var text := RenderConversation(chat);
    TwoAgentTotal(chat);
    // Both labels are read from the same rating, so the first read raises
    // whenever the second would.
    if s1.Err? then Err(Unhandled(s1.error))
    else if text.Err? then Err(Unhandled(text.error))
    else
      Ok(Analysis(
        articleUrl,
        AgentMessages(chat, "agent_1"),
        AgentMessages(chat, "agent_2"),
        s1.value,
        s2.value,
        Summarizer.GenerateSummary(complete(text.value))))
  }

  /** The whole request, as the code reads the row: a `NaN` cell is returned
      as it is. */
  function AnalyzeTranscript(ds: Dataset, id: string, complete: string -> Summarizer.Completion)
    : (r: Result<Analysis, Failure>)
    ensures id !in ds ==> r == Err(NotFound(id))
    ensures r.Err? && id in ds ==> r.error.Unhandled? && r.error.Status() == 500
  {
    var row :- Lookup(ds, id);
    Respond(Chat(row), Get(row, "article_url", Str("Unknown")), RatingOf(row), complete)
  }

  /** The request ends in 404 exactly when the id is not in the dataset. */
  lemma AnalyzeNotFound(ds: Dataset, id: string, complete: string -> Summarizer.Completion)
    ensures AnalyzeTranscript(ds, id, complete) == Err(NotFound(id)) <==> id !in ds
  {
  }

  /** The rating field as the row shows it: the record's own value, `NaN` when
      only other records carry the field, `{}` when none does. */
  lemma RatingFromRecord(ds: Dataset, id: string)
    requires id in ds
    ensures "conversation_rating" in ds[id] ==> RatingOf(Row(ds, id)) == ds[id]["conversation_rating"]
    ensures "conversation_rating" !in ds[id] && "conversation_rating" in Columns(ds) ==>
              RatingOf(Row(ds, id)) == NaN
    ensures "conversation_rating" !in Columns(ds) ==> RatingOf(Row(ds, id)) == Dict(map[])
  {
  }

  /** A known transcript's request succeeds exactly when its rating reads as a
      mapping and every message with text names its agent; the outcome of the
      completion call plays no part. */
  lemma AnalyzeSucceeds(ds: Dataset, id: string, complete: string -> Summarizer.Completion)
    requires id in ds
    ensures AnalyzeTranscript(ds, id, complete).Ok? <==>
              RatingOf(Row(ds, id)).Dict? &&
              forall i :: 0 <= i < |Chat(ds[id])| && HasText(Chat(ds[id])[i]) ==> "agent" in Chat(ds[id])[i]
  {
    RowChat(ds, id);
  }

  /** Whether the request succeeds never depends on the summarizer: every
      failure of the completion call is absorbed into the summary text. */
  lemma SummaryNeverFailsRequest(ds: Dataset, id: string,
                                 c1: string -> Summarizer.Completion, c2: string -> Summarizer.Completion)
    ensures AnalyzeTranscript(ds, id, c1).Ok? == AnalyzeTranscript(ds, id, c2).Ok?
    ensures AnalyzeTranscript(ds, id, c1).Err? ==> AnalyzeTranscript(ds, id, c1) == AnalyzeTranscript(ds, id, c2)
  {
  }

  /** What a successful response holds, in terms of the stored record. */
  lemma AnalyzeFields(ds: Dataset, id: string, complete: string -> Summarizer.Completion)
    requires id in ds
    ensures AnalyzeTranscript(ds, id, complete).Ok? ==>
      var a := AnalyzeTranscript(ds, id, complete).value;
      && a.agent1Messages == |set i | 0 <= i < |Chat(ds[id])| && SentBy(Chat(ds[id])[i], "agent_1")|
      && a.agent2Messages == |set i | 0 <= i < |Chat(ds[id])| && SentBy(Chat(ds[id])[i], "agent_2")|
      && a.agent1Messages + a.agent2Messages <= |Chat(ds[id])|
      && a.summary == Summarizer.GenerateSummary(complete(RenderConversation(Chat(ds[id])).value))
  {
    RowChat(ds, id);
    AgentMessagesCountsSenders(Chat(ds[id]), "agent_1");
    AgentMessagesCountsSenders(Chat(ds[id]), "agent_2");
    TwoAgentTotal(Chat(ds[id]));
  }

  /** The defaults: `article_url` is the record's own value, `NaN` when only
      other records carry the field, and "Unknown" when no record does; each
      sentiment is the rating's entry for that agent, else "Unknown". */
  lemma AnalyzeDefaults(ds: Dataset, id: string, complete: string -> Summarizer.Completion)
    requires id in ds
    ensures AnalyzeTranscript(ds, id, complete).Ok? ==>
      var a := AnalyzeTranscript(ds, id, complete).value;
      && ("article_url" in ds[id] ==> a.articleUrl == ds[id]["article_url"])
      && ("article_url" !in ds[id] && "article_url" in Columns(ds) ==> a.articleUrl == NaN)
      && ("article_url" !in Columns(ds) ==> a.articleUrl == Str("Unknown"))
      && a.agent1Sentiment == Get(RatingOf(Row(ds, id)).entries, "agent_1", "Unknown")
      && a.agent2Sentiment == Get(RatingOf(Row(ds, id)).entries, "agent_2", "Unknown")
  {
  }

  /** After the corpus failed to load, every id is unknown. */
  lemma AnalyzeAfterLoadFailure(reason: string, id: string, complete: string -> Summarizer.Completion)
    ensures AnalyzeTranscript(LoadDataset(Unreadable(reason)), id, complete) == Err(NotFound(id))
  {
  }

  /** A worked conversation: two messages from `agent_1` (the second without
      text) and one from `agent_2`. */
  function ExampleChat(): seq<Message>
  {
    [map["agent" := "agent_1", "message" := "hi"],
     map["agent" := "agent_2", "message" := "hello"],
     map["agent" := "agent_1"]]
  }

  /** A one-transcript dataset holding the worked conversation, with a rating
      for `agent_1` only and no article URL. */
  function ExampleDataset(): Dataset
  {
    map["t1" := map["content" := List(ExampleChat()),
                    "conversation_rating" := Dict(map["agent_1" := "Positive"])]]
  }

  /** The worked conversation counts 2 messages for `agent_1` and 1 for
      `agent_2`. */
  lemma ExampleCounts()
    ensures AgentMessages(ExampleChat(), "agent_1") == 2
    ensures AgentMessages(ExampleChat(), "agent_2") == 1
  {
    var chat := ExampleChat();
    assert chat[..2][..1] == chat[..1] && chat[..3] == chat;
    assert chat[..1][..0] == [];
    assert SentBy(chat[0], "agent_1") && !SentBy(chat[0], "agent_2");
    assert SentBy(chat[1], "agent_2") && !SentBy(chat[1], "agent_1");
    assert SentBy(chat[2], "agent_1") && !SentBy(chat[2], "agent_2");
    assert AgentMessages(chat[..1], "agent_1") == 1 && AgentMessages(chat[..1], "agent_2") == 0;
    assert AgentMessages(chat[..2], "agent_1") == 1 && AgentMessages(chat[..2], "agent_2") == 1;
  }

  /** Appending a message adds its line when it has text, and nothing
      otherwise. */
  lemma RenderLinesSnoc(chat: seq<Message>, m: Message)
    requires RenderLines(chat).Ok?
    ensures HasText(m) && "agent" in m ==>
              RenderLines(chat + [m]) == Ok(RenderLines(chat).value + [RenderLine(m)])
    ensures !HasText(m) ==> RenderLines(chat + [m]) == RenderLines(chat)
  {
    assert (chat + [m])[..|chat|] == chat;
  }

  /** The worked conversation renders to two lines; the message without text
      adds none. */
  lemma ExampleRendering()
    ensures RenderConversation(ExampleChat()) == Ok("agent_1: hi\nagent_2: hello")
  {
    var chat := ExampleChat();
    var m0, m1, m2 := chat[0], chat[1], chat[2];
    assert chat == [] + [m0] + [m1] + [m2];
    assert RenderLine(m0) == "agent_1: hi" && RenderLine(m1) == "agent_2: hello";
    RenderLinesSnoc([], m0);
    assert [] + [m0] == [m0];
    RenderLinesSnoc([m0], m1);
    assert [m0] + [m1] == [m0, m1];
    RenderLinesSnoc([m0, m1], m2);
    assert RenderLines(chat).value == ["agent_1: hi", "agent_2: hello"];
    assert PyText.Join(["agent_1: hi", "agent_2: hello"], '\n') == "agent_1: hi\nagent_2: hello";
  }

  /** The worked transcript's row: its conversation, its rating, and no
      article URL column. */
  lemma ExampleRow()
    ensures "t1" in ExampleDataset()
    ensures Chat(Row(ExampleDataset(), "t1")) == ExampleChat()
    ensures RatingOf(Row(ExampleDataset(), "t1")) == Dict(map["agent_1" := "Positive"])
    ensures Get(Row(ExampleDataset(), "t1"), "article_url", Str("Unknown")) == Str("Unknown")
  {
    var ds := ExampleDataset();
    assert forall id | id in ds :: id == "t1";
    assert "article_url" !in ds["t1"];
    assert "article_url" !in Columns(ds);
  }

  /** The worked transcript's response. */
  lemma ExampleTranscript(complete: string -> Summarizer.Completion)
    ensures AnalyzeTranscript(ExampleDataset(), "t1", complete)
         == Ok(Analysis(Str("Unknown"), 2, 1, "Positive", "Unknown",
                        Summarizer.GenerateSummary(complete("agent_1: hi\nagent_2: hello"))))
  {
    ExampleRow();
    ExampleRendering();
    ExampleCounts();
  }

  /** An id the worked dataset lacks is answered with 404. */
  lemma ExampleMissing(complete: string -> Summarizer.Completion)
    ensures AnalyzeTranscript(ExampleDataset(), "missing-id", complete)
         == Err(HttpError(404, "Transcript ID missing-id not found"))
  {
    assert "missing-id" !in ExampleDataset();
    assert "Transcript ID " + "missing-id" + " not found" == "Transcript ID missing-id not found";
  }

  /** The text filter is the presence of the `message` key: an empty text
      still gives a line, and a message with text but no agent is an error. */
  lemma TextKeyPresenceDecides()
    ensures RenderConversation([map["agent" := "agent_2", "message" := ""]]) == Ok("agent_2: ")
    ensures RenderConversation([map["agent" := "agent_2"]]) == Ok("")
    ensures RenderConversation([map["message" := "hi"]]) == Err(KeyError("agent"))
  {
    var quiet: seq<Message> := [map["agent" := "agent_2", "message" := ""]];
    assert quiet[..0] == [];
    assert RenderLine(quiet[0]) == "agent_2: ";
    assert RenderLines(quiet[..0]) == Ok([]);
    assert HasText(quiet[0]) && "agent" in quiet[0];
    assert RenderLines(quiet) == Ok(RenderLines(quiet[..0]).value + [RenderLine(quiet[0])]);
    assert RenderLines(quiet[..0]).value + [RenderLine(quiet[0])] == ["agent_2: "];
    assert RenderLines(quiet) == Ok(["agent_2: "]);
    var lonely: seq<Message> := [map["message" := "hi"]];
    assert HasText(lonely[0]) && "agent" !in lonely[0];
  }

  /** As written, a transcript without a rating fails with 500 as soon as
      some other transcript has one: its cell holds `NaN`, and `NaN` has no
      `get`. */
  lemma MissingRatingCrashes(ds: Dataset, id: string, complete: string -> Summarizer.Completion)
    requires id in ds
    requires "conversation_rating" !in ds[id] && "conversation_rating" in Columns(ds)
    ensures AnalyzeTranscript(ds, id, complete) == Err(Unhandled(AttributeError("float", "get")))
  {
    RatingFromRecord(ds, id);
  }

  /** Two transcripts, only the second of which has a rating. */
  function RatingGapDataset(): Dataset
  {
    map["t1" := map["content" := List([])],
        "t2" := map["content" := List([]), "conversation_rating" := Dict(map[])]]
  }

  /** The smallest such input: asking for `t1` fails with 500. */
  lemma RatingGapExample(complete: string -> Summarizer.Completion)
    ensures AnalyzeTranscript(RatingGapDataset(), "t1", complete)
         == Err(Unhandled(AttributeError("float", "get")))
  {
    var ds := RatingGapDataset();
    assert "conversation_rating" in ds["t2"];
    MissingRatingCrashes(ds, "t1", complete);
  }

  /** A row cell read as the defaults intend: a `NaN` cell, which only says
      that this record lacks the field, reads like a missing field. */
  function ReadCell(row: map<string, Value>, field: string, default: Value): Value
  {
    if field in row && row[field] != NaN then row[field] else default
  }

  /** Reading a padded row this way gives back the record's own fields, with
      the default for every field the record lacks. */
  lemma ReadCellReadsRecord(ds: Dataset, id: string, field: string, default: Value)
    requires id in ds
    requires field in ds[id] ==> ds[id][field] != NaN
    ensures ReadCell(Row(ds, id), field, default) == Get(ds[id], field, default)
  {
  }

  /** The request with the defaults applied as intended. */
  function AnalyzeTranscriptIntended(ds: Dataset, id: string, complete: string -> Summarizer.Completion)
    : (r: Result<Analysis, Failure>)
    ensures id !in ds ==> r == Err(NotFound(id))
    ensures r.Err? && id in ds ==> r.error.Unhandled? && r.error.Status() == 500
  {
    var row :- Lookup(ds, id);
    Respond(Chat(row),
            ReadCell(row, "article_url", Str("Unknown")),
            ReadCell(row, "conversation_rating", Dict(map[])),
            complete)
  }

  /** With the intended reading, a response depends on its own record only:
      `article_url` is the record's value or "Unknown", and the rating is the
      record's value or `{}`, whatever the other transcripts hold. */
  lemma IntendedReadsRecord(ds: Dataset, id: string, complete: string -> Summarizer.Completion)
    requires id in ds
    requires forall k :: k in ds[id] ==> ds[id][k] != NaN
    ensures AnalyzeTranscriptIntended(ds, id, complete)
         == Respond(Chat(ds[id]),
                    Get(ds[id], "article_url", Str("Unknown")),
                    Get(ds[id], "conversation_rating", Dict(map[])),
                    complete)
  {
    RowChat(ds, id);
    ReadCellReadsRecord(ds, id, "article_url", Str("Unknown"));
    ReadCellReadsRecord(ds, id, "conversation_rating", Dict(map[]));
  }

  /** With the intended reading, a transcript without a rating succeeds (when
      its messages render) and reports both sentiments as "Unknown". */
  lemma IntendedMissingRatingIsUnknown(ds: Dataset, id: string, complete: string -> Summarizer.Completion)
    requires id in ds && "conversation_rating" !in ds[id]
    requires RenderLines(Chat(ds[id])).Ok?
    ensures AnalyzeTranscriptIntended(ds, id, complete).Ok?
    ensures AnalyzeTranscriptIntended(ds, id, complete).value.agent1Sentiment == "Unknown"
    ensures AnalyzeTranscriptIntended(ds, id, complete).value.agent2Sentiment == "Unknown"
  {
    RowChat(ds, id);
    assert ReadCell(Row(ds, id), "conversation_rating", Dict(map[])) == Dict(map[]);
  }
}
