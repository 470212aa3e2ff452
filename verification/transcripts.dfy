/** The data model: the JSON values a transcript record holds, the dataset as
    the service holds it after start-up, the Python exceptions the service can
    meet, and the failures it reports over HTTP. */
module Transcripts {
  import opened Results

  /** One chat turn, a JSON object such as
      `{"agent": "agent_1", "message": "hi", "sentiment": "Curious"}`. */
  type Message = map<string, string>

  /** A field value of a transcript record.  `Scalar` is any other JSON value
      (a number, a boolean, `null`), named by its Python type; `NaN` is the
      float pandas puts in a cell whose record lacks that column. */
  datatype Value =
    | Str(s: string)
    | List(items: seq<Message>)
    | Dict(entries: map<string, string>)
    | Scalar(pyType: string)
    | NaN

  /** A transcript record: field name to value (`article_url`, `content`,
      `conversation_rating`, ...). */
  type Record = map<string, Value>

  /** The loaded corpus: transcript id to record. */
  type Dataset = map<string, Record>

  /** Python's `type(v).__name__`. */
  function PyType(v: Value): string
  {
    match v
    case Str(_) => "str"
    case List(_) => "list"
    case Dict(_) => "dict"
    case Scalar(t) => t
    case NaN => "float"
  }

  /** The exceptions the modelled code can raise or catch. */
  datatype PyError =
    | KeyError(key: string)
    | AttributeError(onType: string, attr: string)
    | IndexError(msg: string)
    | TypeError(msg: string)
    /** Anything the external completion client raises, by its message. */
    | ClientError(msg: string)

  /** Python's `str(e)`. */
  function Describe(e: PyError): string
  {
    match e
    case KeyError(k) => "'" + k + "'"
    case AttributeError(t, a) => "'" + t + "' object has no attribute '" + a + "'"
    case IndexError(m) => m
    case TypeError(m) => m
    case ClientError(m) => m
  }

  /** What a request ends with when it does not succeed: an `HTTPException`
      the handler raises on purpose, or an exception that escapes the handler
      (which the web framework answers with status 500). */
  datatype Failure =
    | HttpError(status: int, detail: string)
    | Unhandled(error: PyError)
  {
    function Status(): int
    {
      match this
      case HttpError(s, _) => s
      case Unhandled(_) => 500
    }
  }

  /** `d.get(k, default)`. */
  function Get<K, V>(d: map<K, V>, k: K, default: V): V
  {
    if k in d then d[k] else default
  }

  /** The message list of a record or row: its `content` when that is a list,
      and the empty list when `content` is missing or not a list. */
  function Chat(r: map<string, Value>): (chat: seq<Message>)
    ensures "content" in r && r["content"].List? ==> chat == r["content"].items
    ensures !("content" in r && r["content"].List?) ==> chat == []
  {
    match Get(r, "content", List([]))
    case List(items) => items
    case _ => []
  }

  /** The DataFrame's columns: every field name that some record has. */
  function Columns(ds: Dataset): set<string>
  {
    set id, k | id in ds && k in ds[id] :: k
  }

  /** `df.loc[id]`: the record as a DataFrame row, with `NaN` in every column
      that this record lacks but some other record has. */
  function Row(ds: Dataset, id: string): (row: map<string, Value>)
    requires id in ds
    ensures row.Keys == Columns(ds)
    ensures forall k :: k in ds[id] ==> k in row && row[k] == ds[id][k]
    ensures forall k :: k in row && k !in ds[id] ==> row[k] == NaN
  {
    map k | k in Columns(ds) :: if k in ds[id] then ds[id][k] else NaN
  }

  /** Padding a record into a row never changes its message list. */
  lemma RowChat(ds: Dataset, id: string)
    requires id in ds
    ensures Chat(Row(ds, id)) == Chat(ds[id])
  {
  }

  /** How reading the corpus file at start-up went. */
  datatype LoadOutcome = Parsed(ds: Dataset) | Unreadable(reason: string)

  /** The dataset the service runs with: the parsed corpus, or an empty one
      when reading it failed (the service starts either way). */
  function LoadDataset(o: LoadOutcome): (ds: Dataset)
    ensures o.Unreadable? ==> ds == map[]
    ensures o.Parsed? ==> ds == o.ds
  {
    match o
    case Parsed(ds) => ds
    case Unreadable(_) => map[]
  }
}
