/** The realtime search agent: the remembered search term, the formatting of
    the first result blocks, and the shaping of the chat reply. The page
    fetch and the answer synthesis are parameters. */
module RealtimeSearch {
  import opened Wrappers
  import opened Text

  /** The agent's one mutable field, `last_search_term`. */
  datatype SearchState = SearchState(lastSearchTerm: Option<string>)

  /** The result page fetch: the texts of the result blocks in page order,
      or the text of the network fault that stopped it. */
  datatype FetchOutcome = Snippets(texts: seq<string>) | NetworkFault(message: string)

  const NoTermMessage: string := "Web search failed. Please provide a search term."
  const MaxResults: nat := 5

  // ================================================================ formatting

  /** One formatted entry per text, in order. */
  function Entries(texts: seq<string>): (entries: seq<string>)
    ensures |entries| == |texts|
    ensures forall k :: 0 <= k < |texts| ==> entries[k] == "Result:\n" + texts[k]
  {
    if |texts| == 0 then []
    else
      var rest := Entries(texts[1..]);
      assert forall k :: 0 < k < |texts| ==> texts[1..][k - 1] == texts[k];
      ["Result:\n" + texts[0]] + rest
  }

  /** The entries for the first five result blocks, joined by a blank line. */
  function FormatResults(texts: seq<string>): string {
    var shown := if |texts| <= MaxResults then texts else texts[..MaxResults];
    Join("\n\n", Entries(shown))
  }

  /** The page fetch as the text the search returns. */
  function Render(fetched: FetchOutcome): string {
    match fetched
    case Snippets(texts) => FormatResults(texts)
    case NetworkFault(m) => "Error performing web search: " + m
  }

  /** The formatted text is made of `min(5, |texts|)` entries
      `"Result:\n" + text`, in page order, joined by `"\n\n"`; it is empty
      exactly when there are no result blocks, and blocks after the fifth
      never show. */
  lemma FormatResultsShape(texts: seq<string>)
    ensures var n := if |texts| < MaxResults then |texts| else MaxResults;
            exists entries: seq<string> ::
              && FormatResults(texts) == Join("\n\n", entries)
              && |entries| == n
              && forall k :: 0 <= k < n ==> entries[k] == "Result:\n" + texts[k]
    ensures FormatResults(texts) == "" <==> texts == []
    ensures |texts| > 0 ==> "Result:\n" + texts[0] <= FormatResults(texts)
    ensures |texts| > MaxResults ==> FormatResults(texts) == FormatResults(texts[..MaxResults])
  {
    var shown := if |texts| <= MaxResults then texts else texts[..MaxResults];
    var entries := Entries(shown);
    if |texts| > 0 {
      assert entries[0] == "Result:\n" + texts[0];
    }
    if |texts| > MaxResults {
      assert texts[..MaxResults][..MaxResults] == texts[..MaxResults];
    }
  }

  // ================================================================ perform_search

  /** `perform_search`: a supplied term is remembered and searched; without
      one the remembered term is searched; with neither, a fixed message is
      returned, nothing is fetched and the state is left alone. A network
      fault comes back as text. `fetch` stands for the page request and the
      extraction of the result blocks. */
  function PerformSearch(st: SearchState, term: Option<string>, fetch: string -> FetchOutcome)
    : (out: (SearchState, string))
    ensures term.Some? ==> out.0 == SearchState(term)
    ensures term.None? ==> out.0 == st
    ensures term.None? && st.lastSearchTerm.None? ==> out.1 == NoTermMessage
    ensures term.Some? || st.lastSearchTerm.Some? ==>
              var t := if term.Some? then term.value else st.lastSearchTerm.value;
              && (fetch(t).Snippets? ==> out.1 == FormatResults(fetch(t).texts))
              && (fetch(t).NetworkFault? ==> out.1 == "Error performing web search: " + fetch(t).message)
  {
    match term
    case Some(t) => (SearchState(Some(t)), Render(fetch(t)))
    case None =>
      match st.lastSearchTerm
      case None => (st, NoTermMessage)
      case Some(t) => (st, Render(fetch(t)))
  }

  /** With no term at all nothing is fetched: the outcome is the same for any
      fetch. */
  lemma NoTermFetchesNothing(st: SearchState, fetch1: string -> FetchOutcome, fetch2: string -> FetchOutcome)
    requires st.lastSearchTerm.None?
    ensures PerformSearch(st, None, fetch1) == PerformSearch(st, None, fetch2) == (st, NoTermMessage)
  {
  }

  /** A search without a term repeats the last search with a term. */
  lemma RepeatSearchesLastTerm(st: SearchState, t: string, fetch: string -> FetchOutcome)
    ensures var first := PerformSearch(st, Some(t), fetch);
            PerformSearch(first.0, None, fetch) == first
  {
  }

  // ================================================================ chat

  /** The chat request as a mapping: its `prompt` (absent or a mapping whose
      `content` may be absent or JSON `null`). */
  datatype ChatData = ChatData(prompt: Option<map<string, Option<string>>>)

  /** The chat response: the answer, or an error body (under the key `key`)
      with a status. */
  datatype SearchResponse =
    | Answer(role: string, content: string)
    | ErrorBody(key: string, message: string, status: int)

  /** `chat`: search for the prompt's content, then have the model synthesise
      an answer from the results. `synthesize` stands for the model call on
      the term and the results (`Err` carrying the text of what it raised);
      its answer is stripped. A synthesis fault is a 500, but the term has
      already been remembered. */
  function Chat(st: SearchState, data: ChatData, fetch: string -> FetchOutcome,
                synthesize: (Option<string>, string) -> Result<string, string>)
    : (out: (SearchState, SearchResponse))
    ensures out.1.ErrorBody? ==> out.1.status in {400, 500}
    ensures data.prompt.None? <==> out.1 == ErrorBody("error", "Missing parameters", 400)
    ensures data.prompt.None? ==> out.0 == st
    ensures data.prompt.Some? && "content" !in data.prompt.value ==>
              out == (st, ErrorBody("Error", "'content'", 500))
    ensures data.prompt.Some? && "content" in data.prompt.value ==>
              var term := data.prompt.value["content"];
              var searched := PerformSearch(st, term, fetch);
              && out.0 == searched.0
              && (synthesize(term, searched.1).Err? ==>
                    out.1 == ErrorBody("Error", synthesize(term, searched.1).error, 500))
              && (synthesize(term, searched.1).Ok? ==>
                    out.1 == Answer("assistant", Strip(synthesize(term, searched.1).value)))
    ensures out.1.Answer? ==> out.1.role == "assistant"
                              && (out.1.content == [] || (!IsSpace(out.1.content[0]) && !IsSpace(out.1.content[|out.1.content| - 1])))
  {
    match data.prompt
    case None => (st, ErrorBody("error", "Missing parameters", 400))
    case Some(prompt) =>
      if "content" !in prompt then (st, ErrorBody("Error", "'content'", 500))
      else
        var term := prompt["content"];
        var (st', results) := PerformSearch(st, term, fetch);
        match synthesize(term, results)
        case Ok(answer) => (st', Answer("assistant", Strip(answer)))
        case Err(e) => (st', ErrorBody("Error", e, 500))
  }

  /** A network fault is not raised: the synthesis still runs, on the fault's
      text, and the term is remembered. */
  lemma NetworkFaultIsText(
    st: SearchState, term: string, message: string, fetch: string -> FetchOutcome,
    synthesize: (Option<string>, string) -> Result<string, string>)
    requires fetch(term) == NetworkFault(message)
    requires synthesize(Some(term), "Error performing web search: " + message).Ok?
    ensures var out := Chat(st, ChatData(Some(map["content" := Some(term)])), fetch, synthesize);
            && out.0 == SearchState(Some(term))
            && out.1 == Answer("assistant", Strip(synthesize(Some(term), "Error performing web search: " + message).value))
  {
  }

  /** A failing synthesis gives a 500, yet the new term is kept for the next
      search. */
  lemma SynthesisFailureKeepsTerm(
    st: SearchState, term: string, fetch: string -> FetchOutcome,
    synthesize: (Option<string>, string) -> Result<string, string>)
    requires synthesize(Some(term), Render(fetch(term))).Err?
    ensures var out := Chat(st, ChatData(Some(map["content" := Some(term)])), fetch, synthesize);
            && out.0.lastSearchTerm == Some(term)
            && out.1 == ErrorBody("Error", synthesize(Some(term), Render(fetch(term))).error, 500)
  {
  }
}
