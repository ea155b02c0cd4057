/**
 The three agents of the backend. Each owns one in-memory store that its load
 method overwrites and its handle method only reads:

 - IncidentRecallAgent: one global list of spreadsheet records, replaced
   wholesale by every load, queried by case-insensitive substring match;
 - PdfQaAgent: a map from document id to a vector index over the document's
   text chunks, queried by "id::question";
 - ImageVerificationAgent: a map from document id to the heatmaps of the
   document's images.

 The libraries the agents call (spreadsheet parsing, Python's `str` of a
 record, PDF text and image extraction, text splitting, embeddings and vector
 search, the language-model answer, heatmap creation, PNG and base64
 encoding) are function-valued constants of each agent, given when it is
 built. A collaborator that can raise while loading returns an Option.

 What every reply means is stated by a pure function over the store
 (IncidentReply, PdfReply, ImageReply); each handle method is proved to
 return exactly that function's value, and the lemmas state what the backend
 promises about it.
 */
module Agents {
  import opened Wrappers
  import opened PyStr

  // ---------------------------------------------------------------------------
  // Chat messages and errors

  /** What a chat message carries: a text or a base64-encoded PNG heatmap. */
  datatype Body = Text(text: string) | Heatmap(heatmap: string)

  /** `{"sender": ..., "text": ...}` or `{"sender": ..., "heatmap": ...}`. */
  datatype Message = Message(sender: string, body: Body)

  const Bot: string := "bot"

  function BotText(text: string): Message {
    Message(Bot, Text(text))
  }

  function BotHeatmap(b64: string): Message {
    Message(Bot, Heatmap(b64))
  }

  /**
   The ways a request fails: an HTTP error raised on purpose, the ValueError of
   unpacking a payload that has no "::", and an exception from a library call.
   */
  datatype Error = HttpError(status: nat, detail: string) | UnpackError | CollaboratorError

  // ---------------------------------------------------------------------------
  // Opaque values produced by the libraries

  /** One spreadsheet row as `to_dict(orient='records')` yields it: column name and cell value. */
  datatype Record = Record(cells: seq<(string, string)>)

  /** A similarity index over a document's text chunks; the vectors themselves are not modelled. */
  datatype VectorIndex = VectorIndex(chunks: seq<string>)

  /** An image extracted from a PDF, as encoded bytes. */
  datatype Image = Image(data: seq<bv8>)

  /** A grayscale heatmap, one row of pixel intensities per image row. */
  datatype HeatmapImage = HeatmapImage(rows: seq<seq<bv8>>)

  /** The splitter settings used when indexing a PDF. */
  const ChunkSize: nat := 1000
  const ChunkOverlap: nat := 100

  // ---------------------------------------------------------------------------
  // Incident recall: specification

  /** The record's rendering contains the query, both lower-cased. */
  predicate IsMatch(render: Record -> string, query: string, rec: Record) {
    Contains(Lower(render(rec)), Lower(query))
  }

  /** The loaded records that match the query, in load order. */
  function Matching(records: seq<Record>, render: Record -> string, query: string): (r: seq<Record>)
    ensures |r| <= |records|
    ensures forall k :: 0 <= k < |r| ==> IsMatch(render, query, r[k])
  {
    if records == [] then []
    else if IsMatch(render, query, records[0]) then [records[0]] + Matching(records[1..], render, query)
    else Matching(records[1..], render, query)
  }

  /** The text of the first reply message. */
  function CountText(count: nat): string {
    "Found " + DecimalString(count) + " incidents:"
  }

  /** The replies to a query: the count, then each matching record's rendering. */
  function IncidentMessages(records: seq<Record>, render: Record -> string, query: string): seq<Message> {
    var results := Matching(records, render, query);
    [BotText(CountText(|results|))] + seq(|results|, k requires 0 <= k < |results| => BotText(render(results[k])))
  }

  /** What `IncidentRecallAgent.handle(payload)` returns or raises. */
  function IncidentReply(records: seq<Record>, render: Record -> string, payload: string): Result<seq<Message>, Error> {
    match SplitOnce(payload, Sep)
    case None => Failure(UnpackError)
    case Some((_, query)) => Success(IncidentMessages(records, render, query))
  }

  /** `a` can be obtained from `b` by deleting elements. */
  predicate IsSubsequence<T(==)>(a: seq<T>, b: seq<T>)
    decreases |b|
  {
    if a == [] then true
    else if b == [] then false
    else (a[0] == b[0] && IsSubsequence(a[1..], b[1..])) || IsSubsequence(a, b[1..])
  }

  /** The matches keep the order of the loaded records. */
  lemma {:induction false} MatchingIsSubsequence(records: seq<Record>, render: Record -> string, query: string)
    ensures IsSubsequence(Matching(records, render, query), records)
  {
    if records != [] {
      var m := Matching(records, render, query);
      MatchingIsSubsequence(records[1..], render, query);
      if IsMatch(render, query, records[0]) {
        assert m[1..] == Matching(records[1..], render, query);
      }
    }
  }

  /**
   A record is matched as often as it was loaded when its rendering contains
   the query, and never otherwise.
   */
  lemma {:induction false} MatchingCounts(records: seq<Record>, render: Record -> string, query: string, rec: Record)
    ensures multiset(Matching(records, render, query))[rec]
         == if IsMatch(render, query, rec) then multiset(records)[rec] else 0
  {
    if records != [] {
      MatchingCounts(records[1..], render, query, rec);
      assert records == [records[0]] + records[1..];
    }
  }

  /** A record is among the matches exactly when it was loaded and its rendering contains the query. */
  lemma MatchingMembers(records: seq<Record>, render: Record -> string, query: string, rec: Record)
    ensures rec in Matching(records, render, query) <==> rec in records && IsMatch(render, query, rec)
  {
    MatchingCounts(records, render, query, rec);
    assert rec in Matching(records, render, query) <==> multiset(Matching(records, render, query))[rec] > 0;
    assert rec in records <==> multiset(records)[rec] > 0;
  }

  /** Matching ignores the case of the query's ASCII letters. */
  lemma MatchingIgnoresCase(records: seq<Record>, render: Record -> string, query: string)
    ensures Matching(records, render, Lower(query)) == Matching(records, render, query)
  {
    LowerIdempotent(query);
  }

  /**
   A well-formed query payload is answered by 1 + k messages: first
   "Found k incidents:", then the rendering of each of the k matches in load
   order. A payload without "::" raises.
   */
  lemma IncidentReplyShape(records: seq<Record>, render: Record -> string, payload: string)
    ensures IncidentReply(records, render, payload).Failure? <==> !Contains(payload, Sep)
    ensures IncidentReply(records, render, payload).Failure? ==> IncidentReply(records, render, payload).error == UnpackError
    ensures IncidentReply(records, render, payload).Success? ==>
      var query := SplitOnce(payload, Sep).value.1;
      var results := Matching(records, render, query);
      var msgs := IncidentReply(records, render, payload).value;
      && |msgs| == 1 + |results|
      && msgs[0] == BotText(CountText(|results|))
      && forall k :: 0 <= k < |results| ==> msgs[k + 1] == BotText(render(results[k]))
  {
  }

  /**
   The id part of an incident payload is ignored: whatever id the payload
   carries, the reply depends only on the query and the loaded records.
   */
  lemma IncidentIgnoresId(records: seq<Record>, render: Record -> string, id1: string, id2: string, query: string)
    requires IsUuidText(id1) && IsUuidText(id2)
    ensures IncidentReply(records, render, id1 + Sep + query) == IncidentReply(records, render, id2 + Sep + query)
    ensures IncidentReply(records, render, id1 + Sep + query) == Success(IncidentMessages(records, render, query))
  {
    UuidJoinThenSplit(id1, query);
    UuidJoinThenSplit(id2, query);
  }

  /** A query that matches nothing is answered by the count message alone. */
  lemma IncidentNoMatch(records: seq<Record>, render: Record -> string, query: string)
    requires forall k :: 0 <= k < |records| ==> !IsMatch(render, query, records[k])
    ensures IncidentMessages(records, render, query) == [BotText(CountText(0))]
  {
    if Matching(records, render, query) != [] {
      MatchingMembers(records, render, query, Matching(records, render, query)[0]);
    }
  }

  // ---------------------------------------------------------------------------
  // PDF question answering: specification

  const NotFoundText: string := "Document not found."

  /** What `PDFQAAgent.handle(payload)` returns or raises. */
  function PdfReply(vectors: map<string, VectorIndex>, answer: (VectorIndex, string) -> string, payload: string)
    : Result<seq<Message>, Error>
  {
    match SplitOnce(payload, Sep)
    case None => Failure(UnpackError)
    case Some((fileId, question)) =>
      if fileId !in vectors then Success([BotText(NotFoundText)])
      else Success([BotText(answer(vectors[fileId], question))])
  }

  /**
   A well-formed payload is answered by exactly one message: "Document not
   found." when no index is stored under its id, the model's answer from that
   id's index otherwise.
   */
  lemma PdfReplyShape(vectors: map<string, VectorIndex>, answer: (VectorIndex, string) -> string, payload: string)
    ensures PdfReply(vectors, answer, payload).Failure? <==> !Contains(payload, Sep)
    ensures PdfReply(vectors, answer, payload).Success? ==>
      var (fileId, question) := SplitOnce(payload, Sep).value;
      PdfReply(vectors, answer, payload).value
        == [BotText(if fileId in vectors then answer(vectors[fileId], question) else NotFoundText)]
  {
  }

  /** An id with no stored index is answered "Document not found.", whatever the question. */
  lemma PdfUnknownId(vectors: map<string, VectorIndex>, answer: (VectorIndex, string) -> string, id: string, question: string)
    requires !Contains(id, Sep) && (id == [] || id[|id| - 1] != ':')
    requires id !in vectors
    ensures PdfReply(vectors, answer, id + Sep + question) == Success([BotText(NotFoundText)])
  {
    JoinThenSplit(id, question);
  }

  /** Once an index is stored under an id, a question about that id is answered from that index. */
  lemma PdfAnswerAfterLoad(vectors: map<string, VectorIndex>, answer: (VectorIndex, string) -> string,
                           id: string, index: VectorIndex, question: string)
    requires IsUuidText(id)
    ensures PdfReply(vectors[id := index], answer, id + Sep + question) == Success([BotText(answer(index, question))])
  {
    UuidJoinThenSplit(id, question);
  }

  // ---------------------------------------------------------------------------
  // Image verification: specification

  const NoImagesText: string := "No images found."

  /** What `ImageVerificationAgent.handle(file_id)` returns. */
  function ImageReply(heatmaps: map<string, seq<HeatmapImage>>, encodePng: HeatmapImage -> string, fileId: string)
    : seq<Message>
  {
    if fileId !in heatmaps || heatmaps[fileId] == [] then [BotText(NoImagesText)]
    else
      var hms := heatmaps[fileId];
      seq(|hms|, k requires 0 <= k < |hms| => BotHeatmap(encodePng(hms[k])))
  }

  /**
   The reply is never empty. It is the single text "No images found." exactly
   when nothing, or an empty list, is stored under the id; otherwise it holds
   one heatmap message per stored heatmap, in stored order, and no text.
   */
  lemma ImageReplyShape(heatmaps: map<string, seq<HeatmapImage>>, encodePng: HeatmapImage -> string, fileId: string)
    ensures ImageReply(heatmaps, encodePng, fileId) != []
    ensures ImageReply(heatmaps, encodePng, fileId) == [BotText(NoImagesText)]
        <==> fileId !in heatmaps || heatmaps[fileId] == []
    ensures fileId in heatmaps && heatmaps[fileId] != [] ==>
      var msgs := ImageReply(heatmaps, encodePng, fileId);
      && |msgs| == |heatmaps[fileId]|
      && forall k :: 0 <= k < |msgs| ==> msgs[k] == BotHeatmap(encodePng(heatmaps[fileId][k]))
  {
    var msgs := ImageReply(heatmaps, encodePng, fileId);
    if fileId in heatmaps && heatmaps[fileId] != [] {
      assert msgs[0].body.Heatmap?;
    }
  }

  // ---------------------------------------------------------------------------
  // The agents

  class IncidentRecallAgent {
    /** `pd.read_excel(path).to_dict(orient='records')`; None when the file does not parse. */
    const readRecords: string -> Option<seq<Record>>
    /** `str(inc)`: Python's rendering of a record. */
    const render: Record -> string
    var incidents: seq<Record>

    constructor (readRecords: string -> Option<seq<Record>>, render: Record -> string)
      ensures this.readRecords == readRecords && this.render == render
      ensures incidents == []
    {
      this.readRecords := readRecords;
      this.render := render;
      incidents := [];
    }

    /**
     Replaces every loaded record by the rows of the spreadsheet at `path`; no
     earlier record survives. When the file does not parse nothing changes and
     the caller sees the failure.
     */
    method LoadIncidents(path: string) returns (loaded: bool)
      modifies this
      ensures loaded == readRecords(path).Some?
      ensures incidents == if loaded then readRecords(path).value else old(incidents)
    {
      var rows := readRecords(path);
      if rows.None? {
        return false;
      }
      incidents := rows.value;
      return true;
    }

    /** Answers "id::query" from the loaded records. */
    method Handle(payload: string) returns (r: Result<seq<Message>, Error>)
      ensures r == IncidentReply(incidents, render, payload)
    {
      var parts := SplitOnce(payload, Sep);
      if parts.None? {
        return Failure(UnpackError);
      }
      var query := parts.value.1;
      var results := Matching(incidents, render, query);
      var messages := [BotText(CountText(|results|))];
      for k := 0 to |results|
        invariant |messages| == k + 1
        invariant messages[0] == BotText(CountText(|results|))
        invariant forall j :: 0 <= j < k ==> messages[j + 1] == BotText(render(results[j]))
      {
        messages := messages + [BotText(render(results[k]))];
      }
      assert messages == IncidentMessages(incidents, render, query);
      return Success(messages);
    }
  }

  class PdfQaAgent {
    /** `extract_text(path)`: the text of every page; None when the file cannot be opened. */
    const extractText: string -> Option<string>
    /** `CharacterTextSplitter(chunk_size, chunk_overlap).split_text(text)` */
    const splitText: (string, nat, nat) -> seq<string>
    /** `FAISS.from_texts(chunks, OpenAIEmbeddings())`; None when embedding fails. */
    const buildIndex: seq<string> -> Option<VectorIndex>
    /** `similarity_search` on the index, then the "stuff" QA chain on the hits and the question. */
    const answer: (VectorIndex, string) -> string
    var vectors: map<string, VectorIndex>

    constructor (extractText: string -> Option<string>, splitText: (string, nat, nat) -> seq<string>,
                 buildIndex: seq<string> -> Option<VectorIndex>, answer: (VectorIndex, string) -> string)
      ensures this.extractText == extractText && this.splitText == splitText
      ensures this.buildIndex == buildIndex && this.answer == answer
      ensures vectors == map[]
    {
      this.extractText := extractText;
      this.splitText := splitText;
      this.buildIndex := buildIndex;
      this.answer := answer;
      vectors := map[];
    }

    /** The index `load_document` builds for the PDF at `path`, or None when a step raises. */
    function IndexFor(path: string): Option<VectorIndex> {
      match extractText(path)
      case None => None
      case Some(text) => buildIndex(splitText(text, ChunkSize, ChunkOverlap))
    }

    /**
     Stores the PDF's index under `docId`, overwriting any earlier one; every
     other id keeps its entry. When a step raises nothing changes.
     */
    method LoadDocument(docId: string, path: string) returns (loaded: bool)
      modifies this
      ensures loaded == IndexFor(path).Some?
      ensures vectors == if loaded then old(vectors)[docId := IndexFor(path).value] else old(vectors)
    {
      var text := extractText(path);
      if text.None? {
        return false;
      }
      var chunks := splitText(text.value, ChunkSize, ChunkOverlap);
      var index := buildIndex(chunks);
      if index.None? {
        return false;
      }
      vectors := vectors[docId := index.value];
      return true;
    }

    /** Answers "id::question" from the index stored under id. */
    method Handle(payload: string) returns (r: Result<seq<Message>, Error>)
      ensures r == PdfReply(vectors, answer, payload)
      ensures r.Success? ==> |r.value| == 1
    {
      var parts := SplitOnce(payload, Sep);
      if parts.None? {
        return Failure(UnpackError);
      }
      var fileId, question := parts.value.0, parts.value.1;
      if fileId !in vectors {
        return Success([BotText(NotFoundText)]);
      }
      var text := answer(vectors[fileId], question);
      return Success([BotText(text)]);
    }
  }

  class ImageVerificationAgent {
    /** `extract_images(path)`: every embedded image, page by page; None when the file cannot be opened. */
    const extractImages: string -> Option<seq<Image>>
    /** `create_heatmap(img)` */
    const createHeatmap: Image -> HeatmapImage
    /** `hm.save(buf, format='PNG')` followed by base64 encoding and UTF-8 decoding. */
    const encodePng: HeatmapImage -> string
    var heatmaps: map<string, seq<HeatmapImage>>

    constructor (extractImages: string -> Option<seq<Image>>, createHeatmap: Image -> HeatmapImage,
                 encodePng: HeatmapImage -> string)
      ensures this.extractImages == extractImages && this.createHeatmap == createHeatmap
      ensures this.encodePng == encodePng
      ensures heatmaps == map[]
    {
      this.extractImages := extractImages;
      this.createHeatmap := createHeatmap;
      this.encodePng := encodePng;
      heatmaps := map[];
    }

    /** `[create_heatmap(img) for img in imgs]` */
    function HeatmapsOf(imgs: seq<Image>): seq<HeatmapImage> {
      seq(|imgs|, k requires 0 <= k < |imgs| => createHeatmap(imgs[k]))
    }

    /**
     Stores one heatmap per extracted image, in extraction order, under
     `docId`, overwriting any earlier list; every other id keeps its entry.
     When extraction raises nothing changes.
     */
    method LoadDocument(docId: string, path: string) returns (loaded: bool)
      modifies this
      ensures loaded == extractImages(path).Some?
      ensures heatmaps == if loaded then old(heatmaps)[docId := HeatmapsOf(extractImages(path).value)]
                          else old(heatmaps)
    {
      var imgs := extractImages(path);
      if imgs.None? {
        return false;
      }
      heatmaps := heatmaps[docId := HeatmapsOf(imgs.value)];
      return true;
    }

    /** Replies with the heatmaps stored under `fileId`, one message each. */
    method Handle(fileId: string) returns (msgs: seq<Message>)
      ensures msgs == ImageReply(heatmaps, encodePng, fileId)
    {
      if fileId !in heatmaps || heatmaps[fileId] == [] {
        return [BotText(NoImagesText)];
      }
      var hms := heatmaps[fileId];
      msgs := [];
      for k := 0 to |hms|
        invariant |msgs| == k
        invariant forall j :: 0 <= j < k ==> msgs[j] == BotHeatmap(encodePng(hms[j]))
      {
        msgs := msgs + [BotHeatmap(encodePng(hms[k]))];
      }
    }
  }
}
