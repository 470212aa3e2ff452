# Transcript analysis service: a Dafny model

This project models the one part of the chat-analytics service with real
logic: the per-transcript analysis behind `POST /analyze-transcript`, the
agent census behind `GET /dataset-summary`, the mapping of the LLM
completion call's outcome to a summary string, and the flattening of the
corpus into a list of turns done by the exploratory-analysis script.

The corpus is a JSON object keyed by transcript id. Each record holds
`article_url`, `content` (a list of turns such as
`{"agent": "agent_1", "message": "hi", "sentiment": "Curious"}`) and
`conversation_rating` (agent name to label). In the model:

- `Transcripts` holds the data model. A field value is a `Value` (string,
  list of messages, object, other scalar, or the `NaN` that pandas puts in
  missing cells). A `Record` is a map from field name to `Value`, and a
  `Dataset` is a map from transcript id to `Record`. A `Message` is a
  `map<string, string>`, so `msg.get("agent")` and `"message" in msg` are map
  operations. `Row` is `df.loc[id]`: the record padded with `NaN` in every
  column some other record has. `LoadDataset` stands for start-up: it gives
  an empty dataset when the file cannot be read. `PyError` names the Python
  exceptions involved, and `Failure` is an `HTTPException` or an exception
  that escapes the handler (answered with 500).
- `PyText` models `str.strip()` (over Python's `isspace` characters),
  `sep.join` and, as the inverse of `join`, `str.split`.
- `Summarizer` models `generate_summary`. The completion call is reduced to
  its outcome: a list of choices whose content may be `None`, or an exception.
  `GenerateSummary` maps each outcome to a string and never raises.
- `Analysis` models `analyze_transcript`. The external call is a parameter
  `complete: string -> Completion`. Every other step is a pure function:
  lookup, the two hard-coded agent counts, the defaults, rendering, and the
  order of the checks that can raise.
- `DatasetSummary` models `dataset_summary` as a method that walks the
  `content` column with loops.
- `Eda` models the flattening loop of `EDA.load_data`.

The code and the service's design description disagree in several places.
In each case the model follows the code:

- The design counts messages for every agent observed. The code counts
  exactly `agent_1` and `agent_2`. The counts therefore add up to the number
  of messages only when every message comes from one of those two agents
  (`Analysis.TwoAgentTotal`).
- The design renders only messages with non-empty text. The code keeps every
  message that has a `message` key, even when its text is empty
  (`Analysis.TextKeyPresenceDecides`).
- The design says a message with text but no agent still renders. In the
  code, indexing `msg['agent']` raises, and the request fails with 500.
- The design says that after a failed load, the dataset summary reports
  zero transcripts and zero agents. In the code, `df["content"]` raises
  `KeyError('content')` on the empty DataFrame. The handler turns this into
  a 500 with detail `'content'`.
- Because of pandas' padding, an `article_url` missing from one record but
  present in another reads as `NaN`, not "Unknown". A missing
  `conversation_rating` in the same situation raises (see Findings).

## Model

| member | source | states |
|---|---|---|
| `Transcripts.Chat` | backend/api/main.py:96-98 | the message list is `content` when that is a list and empty otherwise, including when `content` is missing |
| `Transcripts.Row` | backend/api/main.py:92 | the row of a transcript has exactly the DataFrame's columns; it carries the record's own fields and `NaN` in every column the record lacks |
| `Transcripts.RowChat` | backend/api/main.py:96-98 | padding a record into a row never changes its message list |
| `Transcripts.LoadDataset` | backend/api/main.py:29-37 | a failed load leaves an empty dataset; a successful one keeps the parsed corpus |
| `PyText.TrimStart` | backend/api/main.py:137 | the result is a suffix of the input, everything dropped is whitespace, and the result does not start with whitespace |
| `PyText.TrimEnd` | backend/api/main.py:137 | the result is a prefix of the input, everything dropped is whitespace, and the result does not end with whitespace |
| `PyText.Strip` | backend/api/main.py:137 | the stripped text is a slice of the input, only whitespace is cut from either side, and neither end of the result is whitespace |
| `PyText.StripUnique` | backend/api/main.py:137 | for any whitespace + text + whitespace split where the text has no whitespace at either end, strip returns exactly that text |
| `PyText.StripIdempotent` | backend/api/main.py:137 | stripping twice is the same as stripping once |
| `PyText.Join` | backend/api/main.py:110 | joining puts exactly one separator between consecutive lines: length is the total line length plus the number of lines minus one; no lines give "" |
| `PyText.JoinAppend` | backend/api/main.py:110 | adding a line adds one separator and the line, so there is no trailing separator |
| `PyText.SplitJoin` | backend/api/main.py:110 | splitting the joined text at the separator gives back the lines, provided there is at least one line and no line contains the separator |
| `Summarizer.Answer` | backend/api/main.py:137 | reading `choices[0].message.content` succeeds exactly when there is a first choice with non-`None` content, and it yields that content |
| `Summarizer.GenerateSummary` | backend/api/main.py:126-139 | on success the summary is the stripped content, with no whitespace at either end; on every failure it is the error marker followed by the reason |
| `Summarizer.AnswerSummary` | backend/api/main.py:137 | a successful answer surrounded by whitespace is reported as exactly its inner text |
| `Summarizer.FailureSummary` | backend/api/main.py:138-139 | a degraded summary starts with "❌ OpenAI API Error: " and the exception's text follows it |
| `Summarizer.MarkerIsNotExclusive` | backend/api/main.py:137-139 | a genuine answer that begins with the marker gives the same string as a failure, so the marker separates the two only by convention |
| `Analysis.CountWhere` | backend/api/main.py:101-102 | a count of matching messages never exceeds the number of messages |
| `Analysis.CountWhereIsIndexCount` | backend/api/main.py:101-102 | the count is the number of positions whose message matches |
| `Analysis.AgentMessagesCountsSenders` | backend/api/main.py:101-102 | an agent's count is the number of messages whose `agent` is exactly that name; a message without `agent` matches no agent |
| `Analysis.TwoAgentTotal` | backend/api/main.py:101-102 | the two counts add up to at most the number of messages, and to exactly that number if and only if every message comes from `agent_1` or `agent_2` |
| `Analysis.Sentiment` | backend/api/main.py:105-107 | reading a label succeeds exactly when the rating is a mapping; otherwise `AttributeError(..., 'get')` is raised |
| `Analysis.RenderLines` | backend/api/main.py:110 | rendering fails with `KeyError('agent')` if and only if some message has text but no agent; otherwise there is one line per message with a `message` key |
| `Analysis.RenderLinePosition` | backend/api/main.py:110 | the line of each message with text is `"agent: message"`, at the position equal to the number of earlier messages with text, so the original order is kept |
| `Analysis.RenderLinesSnoc` | backend/api/main.py:110 | appending a message adds its line when it has a `message` key, and nothing otherwise |
| `Analysis.RenderedLinesAvoid` | backend/api/main.py:110 | a character that no agent name, message text or `": "` contains appears in no rendered line |
| `Analysis.RenderConversation` | backend/api/main.py:110 | the text renders exactly when the lines do; it is "" when no message has a `message` key, including for empty or non-list content |
| `Analysis.RenderedTextSplitsIntoLines` | backend/api/main.py:110 | when no field contains a newline, splitting the text at newlines gives exactly the rendered lines, with no trailing empty line |
| `Analysis.Lookup` | backend/api/main.py:89-92 | lookup succeeds if and only if the id is in the dataset; otherwise it is 404 "Transcript ID <id> not found" |
| `Analysis.Respond` | backend/api/main.py:95-122 | after the lookup the request succeeds if and only if the rating is a mapping and the messages render; every failure is a 500; the URL is passed through; counts are bounded by the number of messages |
| `Analysis.AnalyzeTranscript` | backend/api/main.py:79-122 | an unknown id gives 404; any other failure of a known id is an escaping exception (500) |
| `Analysis.AnalyzeNotFound` | backend/api/main.py:89-90 | the result is 404 if and only if the id is absent, so a present id never gets 404 |
| `Analysis.RatingFromRecord` | backend/api/main.py:105 | the rating read is the record's own value; it is `NaN` when only other records have the field, and `{}` when no record has it |
| `Analysis.AnalyzeSucceeds` | backend/api/main.py:105-113 | a known transcript succeeds if and only if its rating reads as a mapping and every message with text has an agent |
| `Analysis.SummaryNeverFailsRequest` | backend/api/main.py:113 | whether the request succeeds, and how it fails, never depends on the completion call's outcome |
| `Analysis.AnalyzeFields` | backend/api/main.py:96-113 | a response's counts are the numbers of messages from `agent_1` and `agent_2` in the record's content, together at most the number of messages; its summary is the summary of the rendered text |
| `Analysis.AnalyzeDefaults` | backend/api/main.py:95-107 | `article_url` is the record's value; it is `NaN` if only other records have the field and "Unknown" if none does; each sentiment is the rating's entry for that agent, else "Unknown" |
| `Analysis.AnalyzeAfterLoadFailure` | backend/api/main.py:89-90 | after a failed load every id is answered with 404 |
| `Analysis.ExampleCounts` | backend/api/main.py:101-102 | the worked conversation counts 2 messages for `agent_1` and 1 for `agent_2` |
| `Analysis.ExampleRendering` | backend/api/main.py:110 | the worked conversation renders as "agent_1: hi\nagent_2: hello"; the message without text adds no line |
| `Analysis.ExampleRow` | backend/api/main.py:92-107 | the worked transcript's row has its conversation, its rating, and no `article_url` |
| `Analysis.ExampleTranscript` | backend/api/main.py:79-122 | the worked transcript's full response, with URL "Unknown" and sentiments "Positive" and "Unknown" |
| `Analysis.ExampleMissing` | backend/api/main.py:89-90 | an id the dataset lacks gives 404 with the id in the detail |
| `Analysis.TextKeyPresenceDecides` | backend/api/main.py:110 | an empty text still gives a line; a message with no `message` key gives none; text without an agent is `KeyError('agent')` |
| `Analysis.MissingRatingCrashes` | backend/api/main.py:105-106 | as written, a transcript without a rating fails with `AttributeError('float', 'get')` whenever another transcript has a rating |
| `Analysis.RatingGapExample` | backend/api/main.py:105-106 | two transcripts, only the second rated: asking for the first fails |
| `Analysis.ReadCellReadsRecord` | backend/api/main.py:95-105 | reading a padded row with `NaN` treated as missing gives the record's own field or the default |
| `Analysis.AnalyzeTranscriptIntended` | backend/api/main.py:79-122 | the corrected request keeps the same 404 and 500 split |
| `Analysis.IntendedReadsRecord` | backend/api/main.py:95-107 | in the corrected request the response depends only on the transcript's own record, with defaults "Unknown" and `{}` |
| `Analysis.IntendedMissingRatingIsUnknown` | backend/api/main.py:105-107 | in the corrected request, a transcript without a rating succeeds with both sentiments "Unknown" |
| `DatasetSummary.ComputeSummary` | backend/api/main.py:63-76 | fails with 500 `'content'` if and only if no record has `content`; otherwise `total_transcripts` is the number of records, `unique_agents` is exactly the set of agents of messages in list-valued contents ("Unknown" for a missing agent), and `unique_agents_count` is its size |
| `DatasetSummary.NonListContentAddsNoAgent` | backend/api/main.py:65-66 | a record whose content is missing or not a list contributes no agent |
| `DatasetSummary.MessageAgentIsSeen` | backend/api/main.py:67 | every message's agent, or "Unknown" when the agent is missing, is in the set |
| `DatasetSummary.SummaryAfterLoadFailure` | backend/api/main.py:63-76 | after a failed load the summary fails with 500 `'content'` |
| `Eda.Tag` | scripts/eda.py:26 | a tagged turn has `conversation_id` set to the conversation's id and every other field unchanged |
| `Eda.ContentTurns` | scripts/eda.py:25 | missing content yields no turns and a list yields its turns; any other content yields no turns or a `TypeError` |
| `Eda.Flatten` | scripts/eda.py:23-27 | flattening succeeds if and only if every conversation's content can be walked, and then yields as many turns as all contents hold; a failure is the error of the first conversation that cannot be walked |
| `Eda.FlattenEmpty` | scripts/eda.py:23-27 | an empty corpus yields no turns |
| `Eda.FlattenPosition` | scripts/eda.py:24-27 | turn `j` of conversation `c` sits after all turns of earlier conversations, tagged with `c`'s id and otherwise unchanged |
| `Eda.FlattenTagsEveryTurn` | scripts/eda.py:26 | every output turn carries the id of some conversation of the corpus |

## Left out

- The web layer is not modelled: routing, the pydantic request model,
  `home`, and `debug_transcripts`. The 404 and 500 responses are modelled
  only as `Failure` values.
- Start-up I/O is not modelled: `.env` loading, the API-key check and its
  printing, and construction of the completion client. The completion call
  itself is not modelled either. `Analysis.AnalyzeTranscript` takes it as a
  parameter and `Summarizer.Completion` stands for its outcome.
- `asyncio.to_thread` and concurrent requests are not modelled. The model is
  sequential, and the one suspension point does not change any result.
- The request's fixed model name and system instruction are not modelled.
  They are constants of the external call.
- pandas is not modelled: `read_json`, the transpose, and the index setup.
  The dataset is given as an already-built map. The model keeps pandas'
  padding with `NaN` (`Transcripts.Row`).
- `sample_transcripts` is not modelled. It depends on DataFrame row order
  and serialisation.
- `unique_agents` is returned as a list in unspecified order. The model
  returns it as a set.
- Message fields are modelled as strings. List elements that are not
  objects are not modelled; they would make `msg.get` raise. Rating entries
  are also modelled as strings.
- JSON encoding of a response is not modelled. With a `NaN` `article_url`,
  the framework would fail to serialise the response.
- In the EDA script, reading the file, building the DataFrame, plotting,
  printing and creating directories are not modelled. The in-place update
  of the parsed turns is modelled as building new maps.
- `scripts/inspect_data.py` and `scripts/test.py` are not modelled. The
  first is a one-off file conversion and the second an HTTP smoke client.

## Findings

| source | as written | input that shows it | evidently intended | confidence | as-written member | corrected member |
|---|---|---|---|---|---|---|
| backend/api/main.py:105-107 | `transcript_data.get("conversation_rating", {})` reads a pandas row. For a record without the field, the cell is `NaN` whenever another record has the field, so `.get` is called on a float and raises. The request ends in 500. | two transcripts `t1 = {content: []}` and `t2 = {content: [], conversation_rating: {}}`; analyse `t1` | a transcript without a rating reports both sentiments as "Unknown", as the `{}` default shows | medium, not executed (relies on pandas filling missing cells with `NaN`) | `Analysis.MissingRatingCrashes` | `Analysis.IntendedMissingRatingIsUnknown` |

`Analysis.AnalyzeTranscript` models the code as written.
`Analysis.AnalyzeTranscriptIntended` reads a `NaN` cell as a missing field.
`Analysis.IntendedReadsRecord` proves that the corrected response depends
only on the transcript's own record. The same `NaN` reading also fixes
`article_url`: the corrected request returns "Unknown" where the code
returns `NaN`.
