/**
 * `Query.summarize` (api/app.py, lines 107-132): check the number of ids, fetch each
 * document's text in order, join the texts with single spaces, cut the body into chunks of
 * at most 5000 characters, ask the language model to summarize each chunk, and join the
 * summaries with single spaces.
 *
 * The document store lookup and the chat call are parameters: `fetch` gives a document's
 * `text` field, or None when the lookup raises; `llm` gives the chat response, or None when
 * the call raises.
 */
module Summarize {
  import opened Wrappers
  import opened Text
  import opened Chunking
  import opened Calls

  /** Most ids one request may name. */
  const MaxDocuments: nat := 50

  /** Model every chat request names. */
  const ChatModel: string := "mistral"

  /** Instruction placed in front of each chunk ("Summarize this text: "). */
  const PromptPrefix: string := "Суммаризируй этот текст: "

  datatype Message = Message(role: string, content: string)

  /** The arguments of one `ollama.chat` call. */
  datatype ChatRequest = ChatRequest(model: string, messages: seq<Message>)

  /** A Python value that may or may not be a `str`; `shown` is what `str()` gives for the other kinds. */
  datatype Value = Str(s: string) | NonStr(shown: string)

  /** What a chat call returns: a dict with its entries, or any other object; `shown` is its `str()` form. */
  datatype ChatResponse =
    | DictResponse(entries: map<string, Value>, shown: string)
    | OtherResponse(shown: string)

  datatype Error =
    | TooManyDocuments          // ValueError raised by the bound check
    | DocumentNotFound(id: string)  // the lookup of this id raised
    | ChatFailed                // a chat call raised
    | NotAString(index: nat)    // `" ".join` met a summary that is not a `str` at this position

  /** A backend call, in the order the core makes them. */
  datatype Call = FetchText(id: string) | Chat(request: ChatRequest)

  /** The outcome of one summarize request and the backend calls it made. */
  datatype Outcome = Outcome(result: Result<string, Error>, calls: seq<Call>)

  /** The single user message sent for one chunk. */
  function RequestFor(chunk: string): ChatRequest
  {
    ChatRequest(ChatModel, [Message("user", PromptPrefix + chunk)])
  }

  function ChatRequests(chunks: seq<string>): seq<ChatRequest>
  {
    seq(|chunks|, j requires 0 <= j < |chunks| => RequestFor(chunks[j]))
  }

  /** The response's `message` entry if it is a dict holding one, its string form otherwise. */
  function SummaryText(response: ChatResponse): (r: Value)
    ensures response.DictResponse? && "message" in response.entries ==> r == response.entries["message"]
    ensures !(response.DictResponse? && "message" in response.entries) ==> r == Str(response.shown)
  {
    if response.DictResponse? && "message" in response.entries then response.entries["message"]
    else Str(response.shown)
  }

  function SummaryTexts(responses: seq<ChatResponse>): seq<Value>
  {
    seq(|responses|, j requires 0 <= j < |responses| => SummaryText(responses[j]))
  }

  function FetchCalls(ids: seq<string>): seq<Call>
  {
    seq(|ids|, i requires 0 <= i < |ids| => FetchText(ids[i]))
  }

  function ChatCalls(requests: seq<ChatRequest>): seq<Call>
  {
    seq(|requests|, j requires 0 <= j < |requests| => Chat(requests[j]))
  }

  predicate AllStrings(vs: seq<Value>)
  {
    forall i :: 0 <= i < |vs| ==> vs[i].Str?
  }

  function Strings(vs: seq<Value>): (r: seq<string>)
    requires AllStrings(vs)
  {
    seq(|vs|, i requires 0 <= i < |vs| => vs[i].s)
  }

  /** Position of the first value that is not a `str`. */
  function FirstNonString(vs: seq<Value>): (k: nat)
    requires !AllStrings(vs)
    ensures k < |vs| && vs[k].NonStr?
    ensures forall i :: 0 <= i < k ==> vs[i].Str?
  {
    if vs[0].NonStr? then 0 else 1 + FirstNonString(vs[1..])
  }

  /** Python's `" ".join(summaries)`, which raises a TypeError at the first item that is not a `str`. */
  function JoinSummaries(vs: seq<Value>): Result<string, Error>
  {
    if AllStrings(vs) then Success(JoinWithSpace(Strings(vs)))
    else Failure(NotAString(FirstNonString(vs)))
  }

  /** The body that is cut into chunks: the fetched texts joined with single spaces. */
  function Body(texts: seq<string>): string
  {
    JoinWithSpace(texts)
  }

  /**
   * The per-chunk part of `summarize`: one chat call per chunk, in order, stopping at the
   * first that raises, then the summaries joined with single spaces. The calls are the chat
   * calls made.
   */
  function SummarizeChunksSpec(chunks: seq<string>, llm: ChatRequest -> Option<ChatResponse>): Outcome
  {
    var requests := ChatRequests(chunks);
    var chatted := RunAll(requests, llm);
    var calls := ChatCalls(requests[..CallsMade(chatted)]);
    if chatted.failed then Outcome(Failure(ChatFailed), calls)
    else Outcome(JoinSummaries(SummaryTexts(chatted.results)), calls)
  }

  /** What `summarize` returns and which backend calls it makes, as a function of its inputs. */
  function SummarizeSpec(ids: seq<string>, fetch: string -> Option<string>,
                         llm: ChatRequest -> Option<ChatResponse>): Outcome
  {
    if |ids| > MaxDocuments then Outcome(Failure(TooManyDocuments), [])
    else
      var fetched := RunAll(ids, fetch);
      var fetchCalls := FetchCalls(ids[..CallsMade(fetched)]);
      if fetched.failed then Outcome(Failure(DocumentNotFound(ids[|fetched.results|])), fetchCalls)
      else
        var chatted := SummarizeChunksSpec(Chunks(Body(fetched.results)), llm);
        Outcome(chatted.result, fetchCalls + chatted.calls)
  }

  /**
   * The per-chunk loop of `summarize`: it appends one summary per chunk, as the source does,
   * and returns the joined summaries with the chat calls it made.
   */
  method SummarizeChunks(chunks: seq<string>, llm: ChatRequest -> Option<ChatResponse>)
    returns (result: Result<string, Error>, calls: seq<Call>)
    ensures Outcome(result, calls) == SummarizeChunksSpec(chunks, llm)
  {
    ghost var requests := ChatRequests(chunks);
    ghost var responses: seq<ChatResponse> := [];
    var summaries: seq<Value> := [];
    calls := [];
    for i := 0 to |chunks|
      invariant |responses| == i
      invariant forall j :: 0 <= j < i ==> llm(requests[j]) == Some(responses[j])
      invariant summaries == SummaryTexts(responses)
      invariant calls == ChatCalls(requests[..i])
    {
      var request := RequestFor(chunks[i]);
      calls := calls + [Chat(request)];
      assert ChatCalls(requests[..i + 1]) == ChatCalls(requests[..i]) + [Chat(request)];
      var response := llm(request);
      if response.None? {
        RunUnique(Run(responses, true), RunAll(requests, llm), requests, llm);
        return Failure(ChatFailed), calls;
      }
      responses := responses + [response.value];
      summaries := summaries + [SummaryText(response.value)];
    }
    RunUnique(Run(responses, false), RunAll(requests, llm), requests, llm);
    assert requests[..|chunks|] == requests;
    result := JoinSummaries(summaries);
  }

  /** The summarize operation, with the backend calls it makes returned alongside the result. */
  method Summarize(ids: seq<string>, fetch: string -> Option<string>,
                   llm: ChatRequest -> Option<ChatResponse>)
    returns (result: Result<string, Error>, calls: seq<Call>)
    ensures Outcome(result, calls) == SummarizeSpec(ids, fetch, llm)
  {
    if |ids| > MaxDocuments {
      return Failure(TooManyDocuments), [];
    }
    var fetched := RunAll(ids, fetch);
    calls := FetchCalls(ids[..CallsMade(fetched)]);
    if fetched.failed {
      return Failure(DocumentNotFound(ids[|fetched.results|])), calls;
    }
    var inputText := Body(fetched.results);
    var chunks := Chunks(inputText);
    var chatCalls;
    result, chatCalls := SummarizeChunks(chunks, llm);
    calls := calls + chatCalls;
  }

  /** The texts of the documents, in the order of their ids, when every lookup succeeds. */
  function FetchedTexts(ids: seq<string>, fetch: string -> Option<string>): (texts: seq<string>)
    requires forall i :: 0 <= i < |ids| ==> fetch(ids[i]).Some?
  {
    seq(|ids|, i requires 0 <= i < |ids| => fetch(ids[i]).value)
  }

  /** The chat requests a request whose lookups all succeed sends: one per chunk of the body, in order. */
  function ChunkRequests(ids: seq<string>, fetch: string -> Option<string>): seq<ChatRequest>
    requires forall i :: 0 <= i < |ids| ==> fetch(ids[i]).Some?
  {
    ChatRequests(Chunks(Body(FetchedTexts(ids, fetch))))
  }

  /** The summary of each request when no chat call fails. */
  function Summaries(requests: seq<ChatRequest>, llm: ChatRequest -> Option<ChatResponse>): seq<Value>
    requires forall j :: 0 <= j < |requests| ==> llm(requests[j]).Some?
  {
    seq(|requests|, j requires 0 <= j < |requests| => SummaryText(llm(requests[j]).value))
  }

  /**
   * More than 50 ids fail with the bound error before any backend call; up to 50 (exactly 50
   * included) pass the check, and then the first call made is the lookup of the first id.
   */
  lemma SummarizeIdBound(ids: seq<string>, fetch: string -> Option<string>,
                         llm: ChatRequest -> Option<ChatResponse>)
    ensures SummarizeSpec(ids, fetch, llm).result == Failure(TooManyDocuments) <==> |ids| > MaxDocuments
    ensures |ids| > MaxDocuments ==> SummarizeSpec(ids, fetch, llm).calls == []
    ensures 0 < |ids| <= MaxDocuments ==>
      |SummarizeSpec(ids, fetch, llm).calls| > 0 && SummarizeSpec(ids, fetch, llm).calls[0] == FetchText(ids[0])
  {
    if |ids| <= MaxDocuments {
      var fetched := RunAll(ids, fetch);
      if 0 < |ids| {
        assert CallsMade(fetched) > 0;
      }
    }
  }

  /**
   * When the lookup of `ids[k]` is the first to fail, the request fails with that id, the
   * lookups of `ids[0..k]` were the only calls made, and the model was never called.
   */
  lemma SummarizeMissingDocument(ids: seq<string>, fetch: string -> Option<string>,
                                 llm: ChatRequest -> Option<ChatResponse>, k: nat)
    requires |ids| <= MaxDocuments
    requires k < |ids| && fetch(ids[k]).None?
    requires forall i :: 0 <= i < k ==> fetch(ids[i]).Some?
    ensures SummarizeSpec(ids, fetch, llm) == Outcome(Failure(DocumentNotFound(ids[k])), FetchCalls(ids[..k + 1]))
  {
    RunAllStopsAtFirstFailure(ids, fetch, k);
  }

  /**
   * When every lookup and every chat call the request sends succeeds: each id is looked up once, in order; the
   * body is the texts in id order joined with single spaces; it is cut into ceil(len / 5000)
   * chunks that concatenate back to it; the model is called once per chunk, in chunk order,
   * with the fixed prefix followed by that chunk; and the result is the chunk summaries
   * joined in chunk order.
   */
  lemma SummarizeWhenAllAvailable(ids: seq<string>, fetch: string -> Option<string>,
                                  llm: ChatRequest -> Option<ChatResponse>)
    requires |ids| <= MaxDocuments
    requires forall i :: 0 <= i < |ids| ==> fetch(ids[i]).Some?
    requires forall j :: 0 <= j < |ChunkRequests(ids, fetch)| ==> llm(ChunkRequests(ids, fetch)[j]).Some?
    ensures var body := Body(FetchedTexts(ids, fetch));
            var requests := ChunkRequests(ids, fetch);
            && |Chunks(body)| == CeilDiv(|body|, MaxChunkSize)
            && Concat(Chunks(body)) == body
            && (forall j :: 0 <= j < |requests| ==>
                  requests[j] == ChatRequest(ChatModel, [Message("user", PromptPrefix + Chunks(body)[j])]))
            && SummarizeSpec(ids, fetch, llm) ==
                 Outcome(JoinSummaries(Summaries(requests, llm)), FetchCalls(ids) + ChatCalls(requests))
  {
    var fetched := RunAll(ids, fetch);
    var texts := FetchedTexts(ids, fetch);
    RunAllCompletes(ids, fetch);
    assert fetched.results == texts;
    assert ids[..CallsMade(fetched)] == ids;
    var body := Body(texts);
    ChunkCount(body);
    ChunksConcat(body);
    var requests := ChunkRequests(ids, fetch);
    assert requests == ChatRequests(Chunks(body));
    var chatted := RunAll(requests, llm);
    RunAllCompletes(requests, llm);
    assert requests[..CallsMade(chatted)] == requests;
    assert SummaryTexts(chatted.results) == Summaries(requests, llm);
  }

  /**
   * When every lookup succeeds and the chat call for chunk `k` is the first to fail, the
   * request fails and the calls made are all lookups and the chat calls for chunks 0..k.
   */
  lemma SummarizeChatFailure(ids: seq<string>, fetch: string -> Option<string>,
                             llm: ChatRequest -> Option<ChatResponse>, k: nat)
    requires |ids| <= MaxDocuments
    requires forall i :: 0 <= i < |ids| ==> fetch(ids[i]).Some?
    requires k < |ChunkRequests(ids, fetch)| && llm(ChunkRequests(ids, fetch)[k]).None?
    requires forall j :: 0 <= j < k ==> llm(ChunkRequests(ids, fetch)[j]).Some?
    ensures var requests := ChunkRequests(ids, fetch);
            SummarizeSpec(ids, fetch, llm) ==
              Outcome(Failure(ChatFailed), FetchCalls(ids) + ChatCalls(requests[..k + 1]))
  {
    var fetched := RunAll(ids, fetch);
    RunAllCompletes(ids, fetch);
    assert fetched.results == FetchedTexts(ids, fetch);
    assert ids[..CallsMade(fetched)] == ids;
    var requests := ChatRequests(Chunks(Body(FetchedTexts(ids, fetch))));
    RunAllStopsAtFirstFailure(requests, llm, k);
  }

  /** No ids: an empty body, no backend call at all, and the empty string as the summary. */
  lemma SummarizeNoIds(fetch: string -> Option<string>, llm: ChatRequest -> Option<ChatResponse>)
    ensures SummarizeSpec([], fetch, llm) == Outcome(Success(""), [])
  {
    ChunkCount("");
  }

  /**
   * A body of at most 5000 characters makes one chat call, and a string summary of it is
   * returned unchanged.
   */
  lemma SummarizeSingleChunk(ids: seq<string>, fetch: string -> Option<string>,
                             llm: ChatRequest -> Option<ChatResponse>, summary: string)
    requires |ids| <= MaxDocuments
    requires forall i :: 0 <= i < |ids| ==> fetch(ids[i]).Some?
    requires 0 < |Body(FetchedTexts(ids, fetch))| <= MaxChunkSize
    requires var request := RequestFor(Body(FetchedTexts(ids, fetch)));
             llm(request).Some? && SummaryText(llm(request).value) == Str(summary)
    ensures SummarizeSpec(ids, fetch, llm) ==
              Outcome(Success(summary), FetchCalls(ids) + [Chat(RequestFor(Body(FetchedTexts(ids, fetch))))])
  {
    var fetched := RunAll(ids, fetch);
    var texts := FetchedTexts(ids, fetch);
    RunAllCompletes(ids, fetch);
    assert fetched.results == texts;
    assert ids[..CallsMade(fetched)] == ids;
    var body := Body(texts);
    ChunksOfShortBody(body);
    var requests := ChatRequests(Chunks(body));
    assert requests == [RequestFor(body)];
    var chatted := RunAll(requests, llm);
    assert chatted.results == [llm(RequestFor(body)).value];
    assert SummaryTexts(chatted.results) == [Str(summary)];
    assert Strings([Str(summary)]) == [summary];
  }
}
