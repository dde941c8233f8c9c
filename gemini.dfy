/**
 * `GeminiService`: the static context (the documentation text and the sitemap
 * links), the prompt built around each message, and the call to the text
 * generation backend, which is an oracle here.
 */
module Gemini {
  import opened Wrappers
  import opened PyText

  /** What `generate_response` is given: a string, or a list of strings (a history). */
  datatype Message = Str(text: string) | List(entries: seq<string>)

  /** What the generation backend gives back for a prompt: text, or a raised error. */
  datatype Reply = Text(text: string) | Failure

  /** The errors `generate_response` raises. */
  datatype GenerationError =
    | ContextNotLoaded  // the documentation text or the sitemap links are empty
    | BackendError      // the backend call raised

  const Indent := "            "

  /** The first part of every prompt: what the documents are and how they mark right and wrong information. */
  const Preamble: string :=
    "\n"
    + Indent + "Below are documents from XYZ, a financial services company offering payment aggregation services through API, dashboard, and mobile SDK solutions for businesses.\n"
    + Indent + "Base link for the documentation: https://xyz.com. In this documentation, \U{2705} indicates the correct information, and \U{274C} indicates incorrect information.\n"
    + Indent

  /** The line that introduces the sitemap links. */
  const LinksHeader := "Here are some relevant links from the sitemap:\n"

  /** The persona and the rules the answer must follow, ending with the lead-in to the query. */
  const Persona: string :=
    "\n"
    + Indent + "You are a super helpful customer support representative bot on Discord and Slack for PortOne.\n"
    + Indent + "Be friendly and fun to talk to, and provide helpful information to users who reach out to you.\n"
    + Indent + "Also, provide code snippets or links to the documentation when necessary. Do not give invalid links or code snippets.\n"
    + Indent + "Adhere strictly to the content provided in the documentation, and do not provide any information that is not present in the documentation.\n"
    + Indent + "A user has reached out with the following query:\n"
    + Indent

  /** The line for one sitemap url. */
  function LinkLine(url: string): string
  {
    "Link: " + url
  }

  /** The link lines, one per url, in the order of the urls. */
  function LinkLines(urls: seq<string>): seq<string>
  {
    seq(|urls|, i requires 0 <= i < |urls| => LinkLine(urls[i]))
  }

  /** `load_sitemap_links`, once the urls are extracted: the link lines joined by newlines. */
  function SitemapLinks(urls: seq<string>): string
  {
    Join("\n", LinkLines(urls))
  }

  /** The links are empty exactly when there are no urls. */
  lemma SitemapLinksEmpty(urls: seq<string>)
    ensures SitemapLinks(urls) == "" <==> urls == []
  {
    if urls != [] {
      JoinEnds("\n", LinkLines(urls));
      assert |LinkLines(urls)[0]| > 0;
    }
  }

  /** Reading the links back line by line gives one "Link: <url>" line per url, in order. */
  lemma SitemapLinksLines(urls: seq<string>)
    requires urls != []
    requires forall i :: 0 <= i < |urls| ==> '\n' !in urls[i]
    ensures Split(SitemapLinks(urls), '\n') == LinkLines(urls)
  {
    var lines := LinkLines(urls);
    forall i | 0 <= i < |lines|
      ensures '\n' !in lines[i]
    {
      assert lines[i] == "Link: " + urls[i];
    }
    SplitJoin(lines, '\n');
  }

  /** A list message is joined with newlines; a string message is used as it is. */
  function MessageText(message: Message): (text: string)
    ensures message.Str? ==> text == message.text
    ensures message.List? && |message.entries| == 1 ==> text == message.entries[0]
  {
    match message
    case Str(s) => s
    case List(entries) => Join("\n", entries)
  }

  /** A joined history starts with its first entry and ends with its last, so the newest line closes the text. */
  lemma HistoryEnds(entries: seq<string>)
    requires |entries| >= 1
    ensures var text := MessageText(List(entries));
      && |text| >= |entries[0]| && text[..|entries[0]|] == entries[0]
      && |text| >= |entries[|entries| - 1]| && text[|text| - |entries[|entries| - 1]|..] == entries[|entries| - 1]
  {
    JoinEnds("\n", entries);
  }

  /** A history whose entries hold no newline can be read back from the joined text, entry by entry. */
  lemma HistoryReadBack(entries: seq<string>)
    requires |entries| >= 1
    requires forall i :: 0 <= i < |entries| ==> '\n' !in entries[i]
    ensures Split(MessageText(List(entries)), '\n') == entries
  {
    SplitJoin(entries, '\n');
  }

  /** The fixed texts the prompt wraps around the context and the message. */
  datatype PromptTexts = PromptTexts(preamble: string, linksHeader: string, persona: string)

  /** The texts `generate_response` uses. */
  const SourceTexts := PromptTexts(Preamble, LinksHeader, Persona)

  /**
   * The service's static context, loaded once at start-up and never changed
   * afterwards, with the fixed prompt texts it uses (`SourceTexts` for every
   * service the bots are built with).
   */
  datatype GeminiService = GeminiService(pdfContext: string, sitemapLinks: string, texts: PromptTexts)
  {
    /** Both parts of the context are non-empty. */
    predicate ContextLoaded()
    {
      pdfContext != "" && sitemapLinks != ""
    }

    /** The prompt: five parts joined by newlines, the message last. */
    function Prompt(message: Message): string
    {
      JoinPrompt(texts.preamble, pdfContext, texts.linksHeader, sitemapLinks, texts.persona, MessageText(message))
    }

    /**
     * `generate_response`: refuse when the context is not loaded, otherwise pass
     * the prompt to the backend and return its text, or raise its failure.
     */
    function GenerateResponse(message: Message, backend: string -> Reply): (r: Result<string, GenerationError>)
      ensures !ContextLoaded() ==> r == Err(ContextNotLoaded)
      ensures ContextLoaded() ==> var reply := backend(Prompt(message));
        && (r.Ok? <==> reply.Text?)
        && (r.Ok? ==> r.value == reply.text)
        && (reply == Failure ==> r == Err(BackendError))
    {
      if !ContextLoaded() then Err(ContextNotLoaded)
      else
        var reply := backend(Prompt(message));
        match reply
        case Text(s) => Ok(s)
        case Failure => Err(BackendError)
    }
  }

  /** A five-part newline join, spelled out. */
  lemma {:induction false} JoinFive(a: string, b: string, c: string, d: string, e: string)
    ensures Join("\n", [a, b, c, d, e]) == a + "\n" + b + "\n" + c + "\n" + d + "\n" + e
  {
    var parts := [a, b, c, d, e];
    assert parts[1..] == [b, c, d, e];
    assert parts[1..][1..] == [c, d, e];
    assert parts[1..][1..][1..] == [d, e];
    assert parts[1..][1..][1..][1..] == [e];
    calc {
      Join("\n", parts);
      a + "\n" + Join("\n", [b, c, d, e]);
      a + "\n" + (b + "\n" + Join("\n", [c, d, e]));
      a + "\n" + (b + "\n" + (c + "\n" + Join("\n", [d, e])));
      a + "\n" + (b + "\n" + (c + "\n" + (d + "\n" + e)));
    }
  }

  /**
   * The prompt's newline join of its five parts, in order: the preamble, the
   * documentation text, the links after their header, the persona, the
   * message. It ends with the message and holds the documentation text and the
   * links at the places given.
   */
  function JoinPrompt(preamble: string, pdfContext: string, linksHeader: string, links: string, persona: string, message: string): (p: string)
    ensures p == preamble + "\n" + pdfContext + "\n" + linksHeader + links + "\n" + persona + "\n" + message
    ensures |p| >= |message| && p[|p| - |message|..] == message
    ensures |p| >= |preamble| + 1 + |pdfContext| + 1 + |linksHeader| + |links|
    ensures p[|preamble| + 1..|preamble| + 1 + |pdfContext|] == pdfContext
    ensures var at := |preamble| + 1 + |pdfContext| + 1 + |linksHeader|;
      p[at..at + |links|] == links
  {
    JoinFive(preamble, pdfContext, linksHeader + links, persona, message);
    var p := Join("\n", [preamble, pdfContext, linksHeader + links, persona, message]);
    assert (linksHeader + links)[|linksHeader|..] == links;
    p
  }

  /** Without a loaded context, the outcome is the same whatever the backend would say: it is never asked. */
  lemma ContextCheckedFirst(service: GeminiService, message: Message, b1: string -> Reply, b2: string -> Reply)
    requires !service.ContextLoaded()
    ensures service.GenerateResponse(message, b1) == service.GenerateResponse(message, b2) == Err(ContextNotLoaded)
  {
  }

  /** Links loaded from an empty url list leave the context not loaded. */
  lemma NoUrlsNoContext(pdfContext: string)
    ensures !GeminiService(pdfContext, SitemapLinks([]), SourceTexts).ContextLoaded()
  {
    SitemapLinksEmpty([]);
  }
}
