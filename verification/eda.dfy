/** The flattening step of the exploratory analysis: the parsed corpus
    `{conversation_id: {"content": [turn, ...], ...}}`, in the order its keys
    appear, becomes one list of turns, each tagged with the id of the
    conversation it came from. */
module Eda {
  import opened Results
  import opened Transcripts

  /** The parsed JSON document as its `items()`, in order. */
  type Corpus = seq<(string, Record)>

  /** `turn["conversation_id"] = conv_id`: one new (or overwritten) field. */
  function Tag(turn: Message, convId: string): (t: Message)
    ensures "conversation_id" in t && t["conversation_id"] == convId
    ensures forall k :: k != "conversation_id" ==> (k in t <==> k in turn)
    ensures forall k :: k != "conversation_id" && k in turn ==> t[k] == turn[k]
  {
    turn["conversation_id" := convId]
  }

  /** What `for turn in conv_data.get("content", [])` visits.  A missing
      `content` visits nothing; so do an empty string and an empty object.  A
      non-empty string or object yields strings, which refuse the item
      assignment; any other scalar is not iterable. */
  function ContentTurns(conv: Record): (r: Result<seq<Message>, PyError>)
    ensures "content" !in conv ==> r == Ok([])
    ensures "content" in conv && conv["content"].List? ==> r == Ok(conv["content"].items)
    ensures r.Ok? ==> "content" !in conv || conv["content"].List? || |r.value| == 0
  {
    match Get(conv, "content", List([]))
    case List(items) => Ok(items)
    case Str(s) =>
      if |s| == 0 then Ok([]) else Err(TypeError("'str' object does not support item assignment"))
    case Dict(entries) =>
      if |entries| == 0 then Ok([]) else Err(TypeError("'str' object does not support item assignment"))
    case Scalar(t) => Err(TypeError("'" + t + "' object is not iterable"))
    case NaN => Err(TypeError("'float' object is not iterable"))
  }

  /** The number of turns a conversation contributes. */
  function TurnCount(conv: Record): nat
  {
    match ContentTurns(conv)
    case Ok(turns) => |turns|
    case Err(_) => 0
  }

  /** The number of turns of all conversations in `data`. */
  function TotalTurns(data: Corpus): nat
  {
    if |data| == 0 then 0 else TotalTurns(data[..|data| - 1]) + TurnCount(data[|data| - 1].1)
  }

  /** The flattening loop; it stops at the first conversation whose content
      cannot be walked. */
  function Flatten(data: Corpus): (r: Result<seq<Message>, PyError>)
    ensures r.Ok? <==> forall c :: 0 <= c < |data| ==> ContentTurns(data[c].1).Ok?
    ensures r.Ok? ==> |r.value| == TotalTurns(data)
    ensures r.Err? ==> exists c :: 0 <= c < |data| && ContentTurns(data[c].1) == Err(r.error)
                         && forall c' :: 0 <= c' < c ==> ContentTurns(data[c'].1).Ok?
  {
    if |data| == 0 then Ok([])
    else
      var n := |data| - 1;
      assert forall c :: 0 <= c < n ==> data[..n][c] == data[c];
      var before :- Flatten(data[..n]);
      var (convId, conv) := data[n];
      match ContentTurns(conv)
      case Err(e) => Err(e)
      case Ok(turns) => Ok(before + seq(|turns|, j requires 0 <= j < |turns| => Tag(turns[j], convId)))
  }

  /** An empty corpus flattens to no turns. */
  lemma FlattenEmpty()
    ensures Flatten([]) == Ok([])
  {
  }

  /** The `j`-th turn of conversation `c` lands right after all the turns of
      the conversations before it, tagged with `c`'s id and otherwise
      unchanged: conversations keep their order, and turns keep theirs. */
  lemma {:induction false} FlattenPosition(data: Corpus, c: int, j: int)
    requires Flatten(data).Ok?
    requires 0 <= c < |data| && 0 <= j < TurnCount(data[c].1)
    ensures TotalTurns(data[..c]) + j < |Flatten(data).value|
    ensures Flatten(data).value[TotalTurns(data[..c]) + j]
         == Tag(ContentTurns(data[c].1).value[j], data[c].0)
  {
    var n := |data| - 1;
    var prefix := data[..n];
    assert forall k :: 0 <= k < n ==> prefix[k] == data[k];
    if c < n {
      FlattenPosition(prefix, c, j);
      assert prefix[..c] == data[..c];
    } else {
      assert data[..c] == prefix;
    }
  }

  /** Every output turn carries the id of some conversation of the corpus. */
  lemma {:induction false} FlattenTagsEveryTurn(data: Corpus)
    requires Flatten(data).Ok?
    ensures forall k :: 0 <= k < |Flatten(data).value| ==>
              "conversation_id" in Flatten(data).value[k] &&
              exists c :: 0 <= c < |data| && Flatten(data).value[k]["conversation_id"] == data[c].0
  {
    if |data| > 0 {
      var n := |data| - 1;
      var prefix := data[..n];
      assert forall c :: 0 <= c < n ==> prefix[c] == data[c];
      FlattenTagsEveryTurn(prefix);
      var out := Flatten(data).value;
      var before := Flatten(prefix).value;
      forall k | 0 <= k < |out|
        ensures "conversation_id" in out[k]
        ensures exists c :: 0 <= c < |data| && out[k]["conversation_id"] == data[c].0
      {
        if k < |before| {
          assert out[k] == before[k];
          var c :| 0 <= c < n && before[k]["conversation_id"] == prefix[c].0;
          assert data[c].0 == prefix[c].0;
        } else {
          assert out[k]["conversation_id"] == data[n].0;
        }
      }
    }
  }
}
