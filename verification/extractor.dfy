/**
 * The content combiner and truncator (core/extractor.py): the text of
 * several scraped pages is joined into numbered sections, cut to a size
 * limit, and handed to the chat model with a fixed extraction instruction.
 *
 * The chat model is an oracle `chat` from the request it is sent to what it
 * answers or the message of the exception it raises.
 */
module Extractor {
  import opened Optional
  import opened Strings
  import opened Numbers

  // ---------------------------------------------------------------------------
  // Constants
  // ---------------------------------------------------------------------------

  /** Content longer than this is cut before it is sent. */
  const CONTENT_LIMIT: nat := 12000
  /** What replaces the part that was cut. */
  const TRUNCATION_MARKER: string := "\n[truncated]"
  /** Each page contributes at most this much of its content. */
  const SOURCE_LIMIT: nat := 4000
  /** The text in front of the content in the prompt. */
  const PROMPT_HEADER: string := "Content to analyze:\n\n"
  /** The system prompt of every extraction. */
  const EXTRACTION_PROMPT: string :=
    "Extract key information from the content below.\n\n"
    + "Provide:\n"
    + "1. A brief summary (2-3 sentences)\n"
    + "2. Key facts and findings (bullet points)\n"
    + "3. Any relevant locations, dates, or numbers mentioned\n\n"
    + "Be concise and factual."
  const ERROR_PREFIX: string := "Error: "
  const NO_CONTENT: string := "No content to analyze"
  const NO_CONTENT_EXTRACTED: string := "No content extracted from URLs"

  // ---------------------------------------------------------------------------
  // Data
  // ---------------------------------------------------------------------------

  /** The arguments of one call of `chat`. */
  datatype ChatRequest = ChatRequest(prompt: string, systemPrompt: string, model: Option<string>)

  /** What `chat` does: answer with a text, or raise an exception with a message. */
  datatype ChatOutcome = Answered(text: string) | Raised(message: string)

  /** One scraped page; an absent `url` or `content` is the empty string. */
  datatype ScrapedPage = ScrapedPage(url: string, content: string)

  // ---------------------------------------------------------------------------
  // extract_from_content
  // ---------------------------------------------------------------------------

  /** Python's `s[:n]`. */
  function Head(s: string, n: nat): (r: string)
    ensures |r| == Min(|s|, n)
    ensures r == s[..|r|]
  {
    if |s| <= n then s else s[..n]
  }

  /**
   * Content of at most 12000 characters is kept whole; longer content keeps
   * its first 12000 characters, followed by the truncation marker.
   */
  function Truncate(content: string): (r: string)
    ensures |r| <= CONTENT_LIMIT + |TRUNCATION_MARKER|
    ensures |content| <= CONTENT_LIMIT ==> r == content
    ensures |content| > CONTENT_LIMIT ==>
              |r| == CONTENT_LIMIT + |TRUNCATION_MARKER|
              && r[..CONTENT_LIMIT] == content[..CONTENT_LIMIT]
              && r[CONTENT_LIMIT..] == TRUNCATION_MARKER
  {
    if |content| > CONTENT_LIMIT then Head(content, CONTENT_LIMIT) + TRUNCATION_MARKER else content
  }

  /**
   * The request `extract_from_content` sends: the prompt is the header
   * followed by the truncated content, under the extraction instruction,
   * with the caller's model.
   */
  function ExtractionRequest(content: string, model: Option<string>): (req: ChatRequest)
    ensures |req.prompt| == |PROMPT_HEADER| + |Truncate(content)|
    ensures req.prompt[..|PROMPT_HEADER|] == PROMPT_HEADER
    ensures req.prompt[|PROMPT_HEADER|..] == Truncate(content)
    ensures req.systemPrompt == EXTRACTION_PROMPT && req.model == model
  {
    ChatRequest(PROMPT_HEADER + Truncate(content), EXTRACTION_PROMPT, model)
  }

  /**
   * `extract_from_content`: it never raises. A chat answer is returned
   * unchanged; when the chat call raises, the result is "Error: " followed
   * by the exception's message.
   */
  function ExtractFromContent(content: string, model: Option<string>, chat: ChatRequest -> ChatOutcome): (r: string)
    ensures chat(ExtractionRequest(content, model)).Answered? ==>
              r == chat(ExtractionRequest(content, model)).text
    ensures chat(ExtractionRequest(content, model)).Raised? ==>
              && |r| >= |ERROR_PREFIX| && r[..|ERROR_PREFIX|] == ERROR_PREFIX
              && r[|ERROR_PREFIX|..] == chat(ExtractionRequest(content, model)).message
  {
    match chat(ExtractionRequest(content, model))
    case Answered(text) => text
    case Raised(message) => ERROR_PREFIX + message
  }

  /**
   * Beyond 12000 characters only the first 12000 matter: two long contents
   * that agree on them produce the same request and the same result.
   */
  lemma OnlyTheHeadIsSent(a: string, b: string, model: Option<string>, chat: ChatRequest -> ChatOutcome)
    requires |a| > CONTENT_LIMIT && |b| > CONTENT_LIMIT
    requires a[..CONTENT_LIMIT] == b[..CONTENT_LIMIT]
    ensures ExtractionRequest(a, model) == ExtractionRequest(b, model)
    ensures ExtractFromContent(a, model, chat) == ExtractFromContent(b, model, chat)
  {
    assert Truncate(a) == Truncate(b);
  }

  // ---------------------------------------------------------------------------
  // extract_from_urls: specification
  // ---------------------------------------------------------------------------

  /** The header of the section for source number `number`. */
  function SectionHeader(number: nat, url: string): string
  {
    "\n\n=== SOURCE " + NatToString(number) + ": " + url + " ===\n"
  }

  /** The section a page with content contributes as source number `number`. */
  function Section(number: nat, page: ScrapedPage): (r: string)
    ensures |r| == |SectionHeader(number, page.url)| + Min(|page.content|, SOURCE_LIMIT)
    ensures r[..|SectionHeader(number, page.url)|] == SectionHeader(number, page.url)
    ensures r[|SectionHeader(number, page.url)|..] == page.content[..Min(|page.content|, SOURCE_LIMIT)]
  {
    SectionHeader(number, page.url) + Head(page.content, SOURCE_LIMIT)
  }

  /**
   * The sections of `pages`, where the page at index `k` is source number
   * `offset + k + 1` and a page without content contributes nothing.
   */
  function Sources(pages: seq<ScrapedPage>, offset: nat): string
    decreases |pages|
  {
    if pages == [] then ""
    else
      var prev := Sources(pages[..|pages| - 1], offset);
      var last := pages[|pages| - 1];
      if last.content == "" then prev else prev + Section(offset + |pages|, last)
  }

  // ---------------------------------------------------------------------------
  // extract_from_urls: the loop
  // ---------------------------------------------------------------------------

  /**
   * `extract_from_urls`: the summary it returns, and the chat request it
   * made, if any.
   */
  method ExtractFromUrls(pages: seq<ScrapedPage>, model: Option<string>, chat: ChatRequest -> ChatOutcome)
    returns (summary: string, asked: Option<ChatRequest>)
    ensures pages == [] ==> summary == NO_CONTENT && asked == None
    ensures pages != [] && Sources(pages, 0) == "" ==> summary == NO_CONTENT_EXTRACTED && asked == None
    ensures Sources(pages, 0) != "" ==>
              && asked == Some(ExtractionRequest(Sources(pages, 0), model))
              && summary == ExtractFromContent(Sources(pages, 0), model, chat)
  {
    if pages == [] {
      return NO_CONTENT, None;
    }
    var combined := "";
    var i := 0;
    while i < |pages|
      invariant 0 <= i <= |pages|
      invariant combined == Sources(pages[..i], 0)
    {
      assert pages[..i + 1][..i] == pages[..i];
      var page := pages[i];
      if page.content != "" {
        combined := combined + Section(i + 1, page);
      }
      i := i + 1;
    }
    assert pages[..i] == pages;
    if combined == "" {
      return NO_CONTENT_EXTRACTED, None;
    }
    asked := Some(ExtractionRequest(combined, model));
    summary := ExtractFromContent(combined, model, chat);
  }

  // ---------------------------------------------------------------------------
  // Properties of the sections
  // ---------------------------------------------------------------------------

  /** The sections of two lists one after the other: the second list's numbers continue the first's. */
  lemma {:induction false} SourcesAppend(a: seq<ScrapedPage>, b: seq<ScrapedPage>, offset: nat)
    ensures Sources(a + b, offset) == Sources(a, offset) + Sources(b, offset + |a|)
    decreases |b|
  {
    if b == [] {
      assert a + b == a;
    } else {
      var b' := b[..|b| - 1];
      var last := b[|b| - 1];
      assert (a + b)[..|a + b| - 1] == a + b';
      assert (a + b)[|a + b| - 1] == last;
      SourcesAppend(a, b', offset);
      if last.content != "" {
        var section := Section(offset + |a| + |b|, last);
        calc {
          Sources(a + b, offset);
          Sources(a + b', offset) + section;
          (Sources(a, offset) + Sources(b', offset + |a|)) + section;
          Sources(a, offset) + (Sources(b', offset + |a|) + section);
          Sources(a, offset) + Sources(b, offset + |a|);
        }
      }
    }
  }

  /** There is nothing to send exactly when no page has content. */
  lemma {:induction false} SourcesEmptyIff(pages: seq<ScrapedPage>, offset: nat)
    ensures Sources(pages, offset) == "" <==> forall k :: 0 <= k < |pages| ==> pages[k].content == ""
    decreases |pages|
  {
    if pages != [] {
      var prev := pages[..|pages| - 1];
      SourcesEmptyIff(prev, offset);
      assert forall k :: 0 <= k < |prev| ==> prev[k] == pages[k];
      var last := pages[|pages| - 1];
      if last.content != "" {
        assert |Section(offset + |pages|, last)| > 0;
      }
    }
  }

  /**
   * A page without content uses up its number: the pages after it are
   * numbered by their position in the whole list.
   */
  lemma SkippedPageKeepsItsNumber(before: seq<ScrapedPage>, skipped: ScrapedPage, after: seq<ScrapedPage>)
    requires skipped.content == ""
    ensures Sources(before + [skipped] + after, 0) == Sources(before, 0) + Sources(after, |before| + 1)
  {
    SourcesAppend(before + [skipped], after, 0);
    SourcesAppend(before, [skipped], 0);
    assert [skipped][..0] == [];
  }

  /** The number in a section's header reads back as the page's position. */
  lemma SectionNamesItsPosition(number: nat, page: ScrapedPage)
    ensures var s := Section(number, page);
            var prefix := "\n\n=== SOURCE ";
            && s[..|prefix|] == prefix
            && AllDigits(LeadingDigits(s[|prefix|..]))
            && ParseNat(LeadingDigits(s[|prefix|..])) == number
  {
    var prefix := "\n\n=== SOURCE ";
    var digits := NatToString(number);
    var rest := ": " + page.url + " ===\n" + Head(page.content, SOURCE_LIMIT);
    var s := Section(number, page);
    assert s == prefix + digits + rest;
    assert s[|prefix|..] == digits + rest;
    LeadingDigitsOfRun(digits, rest);
    ParseNatToString(number);
  }
}
