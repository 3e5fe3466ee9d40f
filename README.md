# Hybrid search and chunked summarization: a verified model

This project models the query side of a small document service (`api/app.py`): the
`search` query, which sends a hybrid k-NN plus keyword query to an OpenSearch index and maps
the hits to `Document` records, and the `summarize` query, which fetches documents by id,
joins their texts, cuts the result into chunks of at most 5000 characters, asks a language
model (Ollama, model `mistral`) to summarize each chunk and joins the partial summaries.

Everything outside the process is a parameter of the model:

- the document lookup `client.get(...)["_source"]["text"]` is `fetch: string -> Option<string>`,
  None meaning the lookup raised (missing id, missing field, unreachable store);
- the chat call `ollama.chat(...)` is `llm: ChatRequest -> Option<ChatResponse>`, None meaning
  the call raised;
- the embedding model is `embed: string -> V`, where `V` is left abstract (the vector's numbers
  are never inspected by the code);
- the search call `client.search(...)` is `engine: Json<V> -> Option<Json<V>>`.

Modules, one per concern of `api/app.py`:

- `Wrappers` (`wrappers.dfy`): `Option` and `Result`.
- `Text` (`text.dfy`): Python's `" ".join(parts)` (`JoinWithSpace`) and string concatenation,
  with the layout of a joined string: each part at its offset, one space between neighbours.
- `Chunking` (`chunking.dfy`): Python's `range(0, n, 5000)`, slicing with Python's clamping of
  out-of-range bounds, and the chunk comprehension; proved facts: the chunk count is
  ceil(n / 5000), every chunk holds 1 to 5000 characters, every chunk but the last exactly 5000,
  chunk `j` starts at character `5000 * j`, and the chunks concatenate back to the body.
- `Calls` (`calls.dfy`): a sequence of backend calls made in order that stops at the first one
  that raises (the per-id fetch comprehension and the per-chunk chat loop both behave this way),
  with a characterisation that determines the run uniquely.
- `Summarize` (`summarize.dfy`): the `summarize` query. `SummarizeSpec` gives the result and
  the list of backend calls made (`FetchText(id)`, `Chat(request)`) as a function of the inputs;
  the method `Summarize` is proved equal to it, and its imperative per-chunk loop that appends
  to `summaries` is the method `SummarizeChunks`, proved equal to `SummarizeChunksSpec`. The
  per-chunk text is the response's `message` entry when the response is a dict holding one,
  and the response's `str()` form otherwise
  (`SummaryText`). Python's `" ".join` raises a TypeError on an item that is not a `str`; the
  model keeps that error path (`NotAString`), which is taken when a dict response's `message`
  entry is itself not a string.
- `Json` (`json.dfy`) and `Search` (`search.dfy`): the request body and the engine response are
  the Python dicts of the source, modelled as JSON values without a floating-point case (the
  engine's `_score` and `max_score` fields are floats, but the code never reads them, so a
  response is modelled without them); `SearchQuery` builds the body,
  `ParseResponse` maps the response to a `DocumentPagination`, `Search` chains them.
  `Document` and `DocumentPagination` are the records of lines 69-78.

Notes on the code's behaviour that the model follows:

- The instruction sent with each chunk is the Russian prefix of the source
  ("Суммаризируй этот текст: "), followed directly by the chunk.
- `search` does not check `offset >= 0` or `limit > 0`: any integers are passed through as
  `from` and `size`.
- The errors are those the code raises: the bound check raises a ValueError
  (`TooManyDocuments`), and a failed lookup propagates whatever the store client raises
  (`DocumentNotFound`); there is no separate error taxonomy in the code.

## Model

| member | source | states |
|---|---|---|
| `Text.JoinWithSpaceLength` | api/app.py:114 | the joined body is as long as the fetched texts plus one separator between each neighbouring pair |
| `Text.JoinWithSpacePart` | api/app.py:114 | text `i` appears unchanged at its offset (after all earlier texts and their separators), followed by exactly one space unless it is the last |
| `Chunking.ChunkStartsShape` | api/app.py:117 | `range(start, stop, 5000)` has ceil((stop - start) / 5000) elements and its j-th element is `start + 5000 * j`, below `stop` |
| `Chunking.ChunkAt` | api/app.py:116-117 | chunk `j` is the body's characters from `5000 * j`; it is non-empty, at most 5000 long, and exactly 5000 long unless it is the last |
| `Chunking.ChunkCount` | api/app.py:116-117 | the number of chunks is ceil(len(body) / 5000): zero exactly for an empty body, and (count - 1) * 5000 < len(body) <= count * 5000 otherwise |
| `Chunking.ChunksPrefix` | api/app.py:117 | the first `k` chunks concatenate to the body's first `5000 * k` characters (or the whole body) |
| `Chunking.ChunksConcat` | api/app.py:117 | the chunks concatenated in order give back exactly the body, so they are contiguous and do not overlap |
| `Chunking.ChunksOfShortBody` | api/app.py:117 | a non-empty body of at most 5000 characters is a single chunk equal to the body |
| `Calls.RunAll` | api/app.py:113 | calling a backend on each input in order until the first exception: each recorded output is the call's result for the input at that position, and the run ends at the end of the inputs or at the first input whose call raised |
| `Calls.RunAllCompletes` | api/app.py:113 | the calls complete exactly when every call succeeds |
| `Calls.RunAllStopsAtFirstFailure` | api/app.py:113 | when the call on input `k` is the first to raise, the run fails there after exactly `k + 1` calls |
| `Summarize.SummaryText` | api/app.py:129 | a chunk's summary is the response's `message` entry when the response is a dict holding one, and the response's string form in every other case |
| `Summarize.FirstNonString` | api/app.py:132 | `" ".join` fails at the first summary that is not a string, every earlier one being a string |
| `Summarize.SummarizeChunks` | api/app.py:119-132 | the per-chunk loop, appending one summary per chunk, returns exactly the result and the chat calls of `SummarizeChunksSpec`: one call per chunk in order until the first that raises, then the summaries joined in chunk order |
| `Summarize.Summarize` | api/app.py:108-132 | the summarize query (bound check, in-order lookups, join, chunking, then the per-chunk loop) returns exactly the result and the backend calls of `SummarizeSpec` |
| `Summarize.SummarizeIdBound` | api/app.py:110-113 | more than 50 ids fail with the bound error and make no backend call; up to 50 ids (exactly 50 included) pass the check and the first call is the lookup of the first id |
| `Summarize.SummarizeMissingDocument` | api/app.py:113 | when the lookup of id `k` is the first to fail, the request fails with that id, only the lookups of ids `0..k` were made, and no chat call was made |
| `Summarize.SummarizeWhenAllAvailable` | api/app.py:113-132 | with all lookups succeeding and every chat call the request sends succeeding: each id is looked up once in order; the body is the texts in id order joined by single spaces; it is cut into ceil(len / 5000) chunks that concatenate back to it; one chat call per chunk, in chunk order, with model `mistral`, one user message, the fixed prefix followed by the chunk; the result is the chunk summaries joined in chunk order |
| `Summarize.SummarizeChatFailure` | api/app.py:119-130 | when the chat call for chunk `k` is the first to raise, the request fails after all lookups and the chat calls for chunks `0..k` only |
| `Summarize.SummarizeNoIds` | api/app.py:110-132 | no ids: empty body, no backend call, and the empty string as the result |
| `Summarize.SummarizeSingleChunk` | api/app.py:116-132 | a body of 1 to 5000 characters makes exactly one chat call, on the whole body, and a string summary of it is returned unchanged |
| `Search.KnnClause` | api/app.py:93 | the k-NN clause has only the keys `knn` / `vector` / `vector`, `k`, carries the embedding unchanged and asks for k = 12 |
| `Search.MatchClause` | api/app.py:94-95 | a match clause has only the keys `match` / field / `query` (and `boost` exactly when one is given), carrying the search string unchanged and the given boost |
| `Search.SearchQuery` | api/app.py:87-99 | the request has exactly the keys `size`, `from`, `query`; `size` is `limit` and `from` is `offset` unchanged; the query is a `bool` with exactly three `should` clauses in order: k-NN on the embedding, title match with boost 2, text match without boost |
| `Search.ParseResponse` | api/app.py:101-105 | the mapping succeeds exactly when every hit has string `_id`, `_source.title`, `_source.text` and the total is an integer; then one Document per hit, in hit order, with those fields copied, and `total` is `hits.total.value` |
| `Search.ParseHitJson` | api/app.py:102 | a hit carrying a document's fields maps back to that document |
| `Search.ParseResponseJson` | api/app.py:101-105 | a response built from a page maps back to exactly that page: no document added, dropped, altered or reordered, total kept |
| `Search.Search` | api/app.py:84-105 | the engine is asked exactly the query built from the string, its embedding, `offset` and `limit`; the search reports the engine unavailable exactly when that call raises, succeeds only with the mapping of the engine's answer, and reports a malformed response only when that mapping fails |
| `Search.SearchReturnsEngineHits` | api/app.py:84-105 | when the engine answers the query built from the string, its embedding, `offset` and `limit` with a page of hits, the search returns exactly that page |

## Left out

- Connecting to OpenSearch, the ping-and-sleep wait loop and the index creation with its
  k-NN/HNSW settings (api/app.py:17-63): network I/O and engine configuration.
- The SentenceTransformer embedding (api/app.py:66, 86): a floating-point model behind a
  foreign library; it is the parameter `embed`, and the vector's elements are an abstract type.
  `embed` is total, so the model does not capture an exception raised by `vectorizer.encode`
  at api/app.py:86, which would end the search before the engine is called.
- The stored `text` of a document is assumed to be a `str` (`fetch` returns a string or
  None); both writers store strings (api/app.py:142, api/load_lenta.py:39). A non-string text
  would let Python fetch the remaining ids and then raise a TypeError in the join at
  api/app.py:114, which the model cannot express.
- The OpenSearch `get`/`search` calls and the Ollama chat call (api/app.py:100, 113, 121-126):
  foreign network calls, modelled only as the parameters `fetch`, `engine` and `llm`; these
  are functions, so the model assumes a backend answers the same request the same way within
  one summarize or search request.
- Relevance scoring, the effect of the boost on ranking, the pagination window over the
  ranking and read-after-write visibility: these are the search engine's behaviour, not the
  code's.
- `Mutation.indexDocument` (api/app.py:139-144): embedding plus an index write, with no local
  logic beyond building a record.
- The GraphQL schema, the FastAPI application, CORS and route wiring (api/app.py:148-160), and
  the default argument values `offset = 0`, `limit = 20`, which belong to that layer.
- api/load_lenta.py: a one-off bulk ingestion script made of file and network I/O.
- Search.ParseResponse: treats a `hits.hits` value that is not a list as malformed, whereas
  Python would iterate an empty dict or string without error; it also requires the three
  document fields and the total to be a string and an integer, which the code itself does not
  check; values of other kinds are passed through by the code and are not modelled.
- Strings are sequences of Unicode scalar values, which matches Python's code-point indexing
  for the chunk slices except for lone surrogates.
