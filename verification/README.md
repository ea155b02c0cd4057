# Agentic dashboard backend: the orchestration layer in Dafny

This project models the in-memory core of a small FastAPI backend. The backend
holds three agents and a dispatcher:

- the **incident recall agent** keeps one global list of spreadsheet records.
  Each upload replaces the whole list. It answers `"id::query"` with a count
  message and then one message per record whose lower-cased rendering contains
  the lower-cased query;
- the **PDF Q&A agent** keeps a map from document id to a vector index. It
  answers `"id::question"` with one message: the language model's answer, or
  "Document not found.";
- the **image verification agent** keeps a map from document id to a list of
  heatmaps. It answers a bare id with one base64 PNG message per heatmap, or
  "No images found.";
- the **dispatcher** holds the three agents. A spreadsheet upload loads the
  incident agent. A PDF upload loads the Q&A agent and then the image agent
  under the same new id. A chat request is forwarded to the agent its scenario
  names, and an unknown scenario is answered with HTTP 400.

Files:

- `wrappers.dfy`: `Option` and `Result`.
- `pystr.dfy` (module `PyStr`): the Python string operations the core relies on.
  These are `.lower()` on ASCII letters, `pat in s`, `s.split("::", 1)` unpacked
  into two names, `str(n)` of a count, and the canonical text of a UUID.
- `agents.dfy` (module `Agents`): the messages, the error kinds and the three
  agent classes. Each agent's library collaborators are function-valued
  constants, supplied when the agent is built. The reply of each agent is
  specified by a pure function over its store: `IncidentReply`, `PdfReply` and
  `ImageReply`. Each `Handle` method is proved to return exactly that value.
  The lemmas state what those functions promise.
- `app.dfy` (module `App`): scenario routing, upload paths, and the
  `Dispatcher` class with its two upload routes and its chat route.

Errors that the backend raises are `Failure` values of type `Agents.Error`:

- `HttpError(400, "Invalid scenario")` for an unknown scenario;
- `UnpackError` for the `ValueError` raised when a payload has no `"::"`;
- `CollaboratorError` for an exception from a library call while loading.

`Dispatcher.Chat` has no `modifies` clause. Dafny therefore proves that a chat
request changes no store. The `Handle` methods have no `modifies` clause either.
The chat route forwards the message unchanged; the incident and Q&A agents
split it on `"::"` themselves.

## Model

| member | source | states |
|---|---|---|
| `PyStr.Lower` | backend/agents.py:20 | lower-casing keeps the length, turns each upper-case ASCII letter into its own lower-case letter, and changes no other character |
| `PyStr.Contains` | backend/agents.py:20 | `pat in s` holds exactly when `pat` occurs in `s` at some index; the empty pattern occurs in every string |
| `PyStr.SplitOnce` | backend/agents.py:19 | `split("::", 1)` fails to give two parts exactly when `"::"` does not occur; otherwise the parts rejoin to the input and the cut is at the first occurrence |
| `PyStr.SplitOnceOfJoin` | backend/agents.py:39 | splitting `a + sep + b` gives back `(a, b)` whenever `sep` does not occur before the end of `a` |
| `PyStr.JoinThenSplit` | backend/agents.py:19 | an id with no `"::"` and no trailing `':'`, joined to any query, splits back into that id and query, even when the query contains `"::"` |
| `PyStr.TrailingColonMovesToQuery` | backend/agents.py:19 | no id ending in `':'` survives being joined to a query and split again |
| `PyStr.SepInIdMovesToQuery` | backend/agents.py:19 | no id that holds `"::"` itself survives being joined to a query and split again: the cut comes at the id's own separator |
| `PyStr.JoinThenSplitExactly` | backend/agents.py:19 | an id joined to a query with `"::"` splits back into that id and query if and only if the id has no `"::"` and does not end in `':'` |
| `PyStr.UuidJoinThenSplit` | backend/agents.py:39 | an id of the form `str(uuid4())` produces always survives being joined to a query and split again |
| `PyStr.DecimalString` | backend/agents.py:21 | `str(n)` is a non-empty string of digits with no leading zero: it starts with `'0'` exactly when n is 0, and then it is `"0"` |
| `PyStr.DecimalRoundTrip` | backend/agents.py:21 | the count in the first incident message reads back as the number of matches |
| `Agents.Matching` | backend/agents.py:20 | the filter keeps no more records than were loaded, and every record it keeps contains the query case-insensitively |
| `Agents.MatchingIsSubsequence` | backend/agents.py:20 | the matches keep the order of the loaded records |
| `Agents.MatchingCounts` | backend/agents.py:20 | a matching record is kept as many times as it was loaded; a non-matching record is never kept |
| `Agents.MatchingMembers` | backend/agents.py:20 | a record is among the matches exactly when it was loaded and its lower-cased rendering contains the lower-cased query |
| `Agents.MatchingIgnoresCase` | backend/agents.py:20 | lower-casing the query first does not change which records match |
| `Agents.IncidentReplyShape` | backend/agents.py:18-24 | a payload without `"::"` raises; any other payload gets 1 + k messages: `"Found k incidents:"`, then the rendering of each of the k matches in load order |
| `Agents.IncidentIgnoresId` | backend/agents.py:19-20 | the id part of an incident payload is ignored: two payloads with the same query and any generated ids get the same reply |
| `Agents.IncidentNoMatch` | backend/agents.py:20-24 | a query that matches no record is answered by `"Found 0 incidents:"` alone |
| `Agents.PdfReplyShape` | backend/agents.py:38-46 | a payload without `"::"` raises; any other payload gets exactly one message, the answer from the id's index or `"Document not found."` when the id has none |
| `Agents.PdfUnknownId` | backend/agents.py:39-42 | a question about any id that has no `"::"`, no trailing `':'` and no stored index is answered exactly `[{"sender": "bot", "text": "Document not found."}]` |
| `Agents.PdfAnswerAfterLoad` | backend/agents.py:36-46 | once an index is stored under a generated id, a question about that id is answered from that index |
| `Agents.ImageReplyShape` | backend/agents.py:56-66 | the reply is never empty; it is exactly `"No images found."` when the id is missing or its list is empty, and otherwise one heatmap message per stored heatmap, in stored order |
| `Agents.IncidentRecallAgent.constructor` | backend/agents.py:11-12 | a new agent has no records |
| `Agents.IncidentRecallAgent.LoadIncidents` | backend/agents.py:14-16 | a load replaces every record by the parsed rows; no earlier record survives; a file that does not parse changes nothing |
| `Agents.IncidentRecallAgent.Handle` | backend/agents.py:18-24 | the reply is exactly `IncidentReply` of the loaded records and the payload |
| `Agents.PdfQaAgent.constructor` | backend/agents.py:27-28 | a new agent stores no index |
| `Agents.PdfQaAgent.LoadDocument` | backend/agents.py:30-36 | the index built from the PDF's text, split into chunks of 1000 with overlap 100, is stored under the id, overwriting any earlier one; every other id keeps its entry; a failing step changes nothing |
| `Agents.PdfQaAgent.Handle` | backend/agents.py:38-46 | the reply is exactly `PdfReply` of the stored indexes and the payload, and a successful reply has one message |
| `Agents.ImageVerificationAgent.constructor` | backend/agents.py:49-50 | a new agent stores no heatmaps |
| `Agents.ImageVerificationAgent.LoadDocument` | backend/agents.py:52-54 | one heatmap per extracted image, in extraction order, is stored under the id, overwriting any earlier list; every other id keeps its entry; a failing extraction changes nothing |
| `Agents.ImageVerificationAgent.Handle` | backend/agents.py:56-66 | the reply is exactly `ImageReply` of the stored heatmaps and the id |
| `App.ParseScenario` | backend/app.py:43-50 | a recognised scenario tag is the tag of the scenario it selects; an unrecognised tag is the tag of no scenario |
| `App.ParseScenarioTag` | backend/app.py:43-48 | each scenario is selected by its own tag and by no other tag |
| `App.JoinPath` | backend/app.py:25 | `os.path.join(folder, name)` starts with `folder`, ends with `name`, and has a `'/'` right before `name` unless the folder is empty, in which case it is `name`; its length is the folder's plus the name's, plus one only when the folder does not already end in `'/'`, so nothing else is inserted |
| `App.UploadPathsDistinct` | backend/app.py:24-25 | uploads with different ids are saved at different paths |
| `App.Dispatcher.constructor` | backend/app.py:18-20 | the dispatcher owns the three given agents |
| `App.Dispatcher.UploadIncidents` | backend/app.py:22-28 | the incident agent's records become the parsed rows of `<id>.xlsx` and the id is returned; a parse failure changes nothing; the PDF and image stores are untouched |
| `App.Dispatcher.UploadPdf` | backend/app.py:30-37 | the Q&A agent and then the image agent load `<id>.pdf` under the same id, and the id is returned when both succeed; if the Q&A load fails neither store changes; if only the image load fails, the Q&A index stays stored; the incident records are untouched |
| `App.Dispatcher.Chat` | backend/app.py:39-51 | `incident`, `pdf_qa` and `image_verify` each return the reply of their own agent to the unchanged message; any other scenario fails with HTTP 400 "Invalid scenario"; no store changes |
| `App.UploadPdfThenAsk` | backend/app.py:30-51 | after a successful PDF upload, a `pdf_qa` question about the returned id is answered from the index just stored, not by the not-found branch |

## Left out

- The bytes of an upload and `save_upload_file` (backend/utils.py:6-8) are file I/O and are not modelled. Each load collaborator takes the saved file's path.
- PDF text and image extraction, text splitting, embeddings, FAISS, the QA chain and OpenAI call, `create_heatmap`, PNG saving and base64 encoding are library calls. Each is a function-valued constant of its agent, and nothing is assumed about it. So the model does not say that a heatmap payload is non-empty.
- `pd.read_excel(...).to_dict(orient='records')` and Python's `str(dict)` rendering of a record are the constants `readRecords` and `render`.
- The zero-range division in `create_heatmap` (backend/utils.py:29) is inside that opaque collaborator.
- Exceptions from the QA chain, the PNG and base64 encoding and `create_heatmap` are not modelled. They change no store and would only become an HTTP 500.
- `.lower()` is modelled on ASCII letters only. Unicode case mapping is not modelled.
- `if not vs` (backend/agents.py:41) is modelled as "no index stored under the id". A stored FAISS index is treated as truthy.
- A chat body with a missing or non-string `message` is not modelled, and neither is a non-string `scenario`. A missing `scenario` is `None`, which equals no tag, so it behaves like an unknown tag.
- The JSON envelopes `{"messages": ...}` and `{"file_id": ...}`, FastAPI routing and request validation, and the CORS middleware are not modelled.
- `uuid.uuid4()` randomness is replaced by an id parameter of the canonical UUID form. Uniqueness of generated ids is not modelled.
- The frontend (frontend/app.py) is presentation and HTTP plumbing. It is not part of this model.
- There is no concurrency in the code, so none is modelled.
