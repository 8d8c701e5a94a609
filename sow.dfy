/**
 * The SOW web handler (`sow.py`): the web-search fallback, chunk retrieval,
 * and the request logic of the `/` endpoint once the form fields are read —
 * the three-chunk gate, the technology list, per-technology context, the
 * context string, the two prompts and the clean-up of the model's reply.
 * The module-level `texts` list is a parameter; the services are function values.
 */
module Sow {
  import opened Common
  import opened Text
  import Retrieval
  import Prompts

  // ---------------------------------------------------------------------------
  // search_web

  /** `search_web` asks for three results unless told otherwise. */
  const DefaultSearchCount: nat := 3

  /** The snippets that are present and non-empty, in result order
      (results without a snippet, or with an empty one, are dropped). */
  function Snippets(results: seq<Option<string>>): (r: seq<string>)
    ensures |r| <= |results|
    ensures forall s :: s in r <==> s != "" && Some(s) in results
  {
    if results == [] then []
    else
      var rest := Snippets(results[1..]);
      assert forall x :: x in results[1..] ==> x in results;
      match results[0]
      case Some(s) => if s != "" then [s] + rest else rest
      case None => rest
  }

  /** One result keeps its snippet exactly when it has a non-empty one. */
  lemma SnippetsOne(x: Option<string>)
    ensures Snippets([x]) == if x.Some? && x.value != "" then [x.value] else []
  {
    assert [x][1..] == [];
  }

  /** Filtering is done result by result, so the kept snippets keep their order:
      the snippets of two runs of results are those of the first, then those
      of the second. */
  lemma {:induction false} SnippetsAppend(a: seq<Option<string>>, b: seq<Option<string>>)
    ensures Snippets(a + b) == Snippets(a) + Snippets(b)
  {
    if a == [] {
      assert a + b == b;
    } else {
      assert (a + b)[1..] == a[1..] + b;
      SnippetsAppend(a[1..], b);
    }
  }

  /** `search_web(query, count)`: the non-empty snippets joined by line breaks;
      "" when the search raises or returns nothing. */
  function SearchWeb(query: string, count: nat, web: (string, nat) -> SearchOutcome): (r: string)
    ensures web(query, count).SearchRaised? ==> r == ""
    ensures web(query, count).SearchResults? ==> r == Join("\n", Snippets(web(query, count).snippets))
  {
    match web(query, count)
    case SearchRaised => ""
    case SearchResults(results) => if results == [] then "" else Join("\n", Snippets(results))
  }

  /** The fallback text is empty exactly when the search raised or found no
      result with a non-empty snippet. */
  lemma SearchWebEmptyIff(query: string, count: nat, web: (string, nat) -> SearchOutcome)
    ensures SearchWeb(query, count, web) == "" <==>
            web(query, count).SearchRaised? || Snippets(web(query, count).snippets) == []
  {
    if web(query, count).SearchResults? {
      var found := Snippets(web(query, count).snippets);
      assert forall i :: 0 <= i < |found| ==> found[i] in found;
      JoinEmptyIff("\n", found);
    }
  }

  // ---------------------------------------------------------------------------
  // retrieve_chunks

  /** `retrieve_chunks(query)`: the default k of five ids, each mapped through `texts`. */
  function RetrieveChunks(query: string, texts: seq<string>, svc: Services): (r: Result<seq<string>>)
    ensures svc.embed(query).None? ==> r == Err(EmbeddingFailed)
    ensures svc.embed(query).Some? ==>
              r == Retrieval.MapIds(texts, svc.search(svc.embed(query).value, 5))
  {
    Retrieval.Retrieve(query, Retrieval.DefaultK, texts, svc)
  }

  // ---------------------------------------------------------------------------
  // the GTM stack field

  /** A technology name as the parser yields it: non-empty, no outer whitespace. */
  predicate CleanItem(x: string) {
    x != "" && NoOuterSpace(x)
  }

  /** The items of a split, stripped, with the empty ones dropped, in order. */
  function CleanItems(parts: seq<string>): (r: seq<string>)
    ensures |r| <= |parts|
    ensures forall x :: x in r ==> CleanItem(x)
  {
    if parts == [] then []
    else
      var t := Strip(parts[0]);
      var rest := CleanItems(parts[1..]);
      if t != "" then [t] + rest else rest
  }

  /** One part yields its stripped text, unless that is empty. */
  lemma CleanItemsOne(p: string)
    ensures CleanItems([p]) == if Strip(p) == "" then [] else [Strip(p)]
  {
    assert [p][1..] == [];
  }

  /** Parts are cleaned one by one, in order: the items of two runs of parts
      are those of the first, then those of the second. */
  lemma {:induction false} CleanItemsAppend(a: seq<string>, b: seq<string>)
    ensures CleanItems(a + b) == CleanItems(a) + CleanItems(b)
  {
    if a == [] {
      assert a + b == b;
    } else {
      assert (a + b)[1..] == a[1..] + b;
      CleanItemsAppend(a[1..], b);
    }
  }

  /** A character that no part contains is in no cleaned item. */
  lemma {:induction false} CleanItemsAvoid(parts: seq<string>, d: char)
    requires forall i :: 0 <= i < |parts| ==> d !in parts[i]
    ensures forall x :: x in CleanItems(parts) ==> d !in x
  {
    if parts != [] {
      StripKeepsCharacters(parts[0], d);
      CleanItemsAvoid(parts[1..], d);
    }
  }

  /** The GTM stack field split at commas, each item trimmed, empty items dropped. */
  function StackItems(gtmStack: string): (r: seq<string>)
    ensures forall x :: x in r ==> CleanItem(x) && ',' !in x
  {
    var parts := Split(gtmStack, ',');
    CleanItemsAvoid(parts, ',');
    CleanItems(parts)
  }

  lemma {:induction false} StripIdentity(x: string)
    requires NoOuterSpace(x)
    ensures Strip(x) == x
  {
    assert "" + x + "" == x;
    StripExact("", x, "");
  }

  lemma {:induction false} CleanItemsKeepsClean(xs: seq<string>)
    requires forall x :: x in xs ==> CleanItem(x)
    ensures CleanItems(xs) == xs
  {
    if xs != [] {
      var rest := xs[1..];
      assert xs == [xs[0]] + rest;
      assert CleanItem(xs[0]);
      StripIdentity(xs[0]);
      CleanItemsKeepsClean(rest);
    }
  }

  /** Writing a list of clean technology names comma-separated and parsing the
      field gives back the list, in order. */
  lemma StackItemsRoundTrip(xs: seq<string>)
    requires forall x :: x in xs ==> CleanItem(x) && ',' !in x
    ensures StackItems(Join([','], xs)) == xs
  {
    if xs == [] {
      assert Split("", ',') == [""];
      assert Strip("") == "";
    } else {
      SplitJoin(xs, ',');
      CleanItemsKeepsClean(xs);
    }
  }

  // ---------------------------------------------------------------------------
  // per-technology context

  /** The retrieved chunks that mention the technology, compared ignoring ASCII case. */
  function Mentioning(tech: string, chunks: seq<string>): (r: seq<string>)
    ensures |r| <= |chunks|
    ensures forall c :: c in r <==> c in chunks && ContainsIgnoringCase(c, tech)
  {
    if chunks == [] then []
    else
      var rest := Mentioning(tech, chunks[1..]);
      assert forall c :: c in chunks ==> c == chunks[0] || c in chunks[1..];
      if ContainsIgnoringCase(chunks[0], tech) then [chunks[0]] + rest else rest
  }

  /** One chunk is kept exactly when it mentions the technology. */
  lemma MentioningOne(tech: string, c: string)
    ensures Mentioning(tech, [c]) == if ContainsIgnoringCase(c, tech) then [c] else []
  {
    assert [c][1..] == [];
  }

  /** The chunks are tested one by one, in retrieval order: the matches in two
      runs of chunks are those of the first, then those of the second. */
  lemma {:induction false} MentioningAppend(tech: string, a: seq<string>, b: seq<string>)
    ensures Mentioning(tech, a + b) == Mentioning(tech, a) + Mentioning(tech, b)
  {
    if a == [] {
      assert a + b == b;
    } else {
      assert (a + b)[1..] == a[1..] + b;
      MentioningAppend(tech, a[1..], b);
    }
  }

  /** The context for one technology: the retrieved chunks that mention it,
      one per line, or else the web search for it. */
  function TechContext(tech: string, chunks: seq<string>, web: (string, nat) -> SearchOutcome): string
  {
    var found := Mentioning(tech, chunks);
    if found != [] then Join("\n", found) else SearchWeb(tech, DefaultSearchCount, web)
  }

  /** The web is searched for a technology exactly when no retrieved chunk
      mentions it. */
  lemma TechContextCases(tech: string, chunks: seq<string>, web: (string, nat) -> SearchOutcome)
    ensures (exists c :: c in chunks && ContainsIgnoringCase(c, tech)) ==>
              TechContext(tech, chunks, web) == Join("\n", Mentioning(tech, chunks))
    ensures (forall c :: c in chunks ==> !ContainsIgnoringCase(c, tech)) ==>
              TechContext(tech, chunks, web) == SearchWeb(tech, DefaultSearchCount, web)
  {
  }

  /** Specification of the loop that fills `tech_contexts`: one context per technology. */
  ghost function TechContexts(techs: seq<string>, chunks: seq<string>, web: (string, nat) -> SearchOutcome): seq<string>
  {
    seq(|techs|, i requires 0 <= i < |techs| => TechContext(techs[i], chunks, web))
  }

  /** The loop of the handler: one context appended per technology, in order. */
  method BuildTechContexts(techs: seq<string>, chunks: seq<string>, web: (string, nat) -> SearchOutcome)
    returns (contexts: seq<string>)
    ensures |contexts| == |techs|
    ensures forall i :: 0 <= i < |techs| ==> contexts[i] == TechContext(techs[i], chunks, web)
    ensures contexts == TechContexts(techs, chunks, web)
  {
    contexts := [];
    for i := 0 to |techs|
      invariant |contexts| == i
      invariant forall j :: 0 <= j < i ==> contexts[j] == TechContext(techs[j], chunks, web)
    {
      var found := Mentioning(techs[i], chunks);
      var context := if found != [] then Join("\n", found) else SearchWeb(techs[i], DefaultSearchCount, web);
      contexts := contexts + [context];
    }
  }

  // ---------------------------------------------------------------------------
  // the context string

  const ExcerptTag := "[Document Excerpt]\n"
  const LiveTag := "[Live Search]\n"
  const EntrySeparator := "\n---\n"

  /** One live-search entry per non-empty technology context, in order. */
  function LiveEntries(contexts: seq<string>): seq<string> {
    if contexts == [] then []
    else
      var rest := LiveEntries(contexts[1..]);
      if contexts[0] != "" then [LiveTag + contexts[0]] + rest else rest
  }

  /** One context gives one tagged entry, unless it is empty. */
  lemma LiveEntriesOne(c: string)
    ensures LiveEntries([c]) == if c != "" then [LiveTag + c] else []
  {
    assert [c][1..] == [];
  }

  /** The entries follow the technologies' order: the entries of two runs of
      contexts are those of the first, then those of the second. */
  lemma {:induction false} LiveEntriesAppend(a: seq<string>, b: seq<string>)
    ensures LiveEntries(a + b) == LiveEntries(a) + LiveEntries(b)
  {
    if a == [] {
      assert a + b == b;
    } else {
      assert (a + b)[1..] == a[1..] + b;
      LiveEntriesAppend(a[1..], b);
    }
  }

  /** Each entry is the tag followed by a non-empty context, and every
      non-empty context has its entry. */
  lemma {:induction false} LiveEntriesShape(contexts: seq<string>)
    ensures |LiveEntries(contexts)| <= |contexts|
    ensures forall i :: 0 <= i < |LiveEntries(contexts)| ==>
              var e := LiveEntries(contexts)[i];
              StartsWith(e, LiveTag) && e[|LiveTag|..] != "" && e[|LiveTag|..] in contexts
    ensures forall c :: c in contexts && c != "" ==> LiveTag + c in LiveEntries(contexts)
  {
    if contexts != [] {
      LiveEntriesShape(contexts[1..]);
      assert forall c :: c in contexts ==> c == contexts[0] || c in contexts[1..];
      if contexts[0] != "" {
        assert (LiveTag + contexts[0])[|LiveTag|..] == contexts[0];
      }
    }
  }

  /** Every retrieved chunk under the excerpt tag, in order. */
  function Excerpts(chunks: seq<string>): (r: seq<string>)
    ensures |r| == |chunks|
    ensures forall i :: 0 <= i < |chunks| ==> r[i] == ExcerptTag + chunks[i]
  {
    seq(|chunks|, i requires 0 <= i < |chunks| => ExcerptTag + chunks[i])
  }

  /** `formatted_chunks`: the excerpts, then the live-search entries. */
  function FormattedChunks(chunks: seq<string>, contexts: seq<string>): seq<string> {
    Excerpts(chunks) + LiveEntries(contexts)
  }

  /** `context_str` */
  function ContextString(chunks: seq<string>, contexts: seq<string>): string
  {
    Join(EntrySeparator, FormattedChunks(chunks, contexts))
  }

  /** The excerpts come first: with at least one live entry, the context string is
      the joined excerpts, one separator, then the joined live entries. */
  lemma ExcerptsPrecedeLiveSearch(chunks: seq<string>, contexts: seq<string>)
    requires chunks != [] && LiveEntries(contexts) != []
    ensures ContextString(chunks, contexts) ==
            Join(EntrySeparator, Excerpts(chunks)) + EntrySeparator + Join(EntrySeparator, LiveEntries(contexts))
  {
    JoinAppend(EntrySeparator, Excerpts(chunks), LiveEntries(contexts));
  }

  /** With at least one retrieved chunk, the context string starts with the
      first excerpt, whatever the live entries. */
  lemma ContextStartsWithFirstExcerpt(chunks: seq<string>, contexts: seq<string>)
    requires chunks != []
    ensures StartsWith(ContextString(chunks, contexts), ExcerptTag + chunks[0])
  {
    JoinStartsWithFirst(EntrySeparator, FormattedChunks(chunks, contexts));
  }

  // ---------------------------------------------------------------------------
  // cleaning the model's reply

  const Fence := "```"
  const HtmlFence := "```html"

  /** The reply cleaned up: trimmed, an opening ```html fence and then a bare
      opening fence removed, a closing fence removed, and trimmed again. */
  function StripFences(raw: string): (r: string)
    ensures NoOuterSpace(r)
  {
    Strip(RemoveSuffix(RemovePrefix(RemovePrefix(Strip(raw), HtmlFence), Fence), Fence))
  }

  /** A text opening with the ```html fence opens with a bare fence. */
  lemma HtmlFenceOpensWithFence(t: string)
    requires StartsWith(t, HtmlFence)
    ensures StartsWith(t, Fence)
  {
    assert t[..3] == t[..|HtmlFence|][..3];
    assert HtmlFence[..3] == Fence;
  }

  /** A reply with no fence at either end is only trimmed. */
  lemma UnfencedIsOnlyTrimmed(raw: string)
    requires !StartsWith(Strip(raw), Fence) && !EndsWith(Strip(raw), Fence)
    ensures StripFences(raw) == Strip(raw)
  {
    var t := Strip(raw);
    assert !StartsWith(t, HtmlFence) by {
      if StartsWith(t, HtmlFence) {
        HtmlFenceOpensWithFence(t);
      }
    }
    assert RemovePrefix(t, HtmlFence) == t;
    assert RemovePrefix(t, Fence) == t;
    assert RemoveSuffix(t, Fence) == t;
    StripIdentity(t);
  }

  lemma {:induction false} BodyBetweenNewlines(b: string)
    requires NoOuterSpace(b)
    ensures Strip("\n" + b + "\n") == b
  {
    assert AllSpace("\n");
    StripExact("\n", b, "\n");
  }

  /** After the fence that opens the reply is removed, what remains starts with a
      line break, so the second `removeprefix` leaves it alone, and the closing
      fence comes off with `removesuffix`. */
  lemma {:induction false} AfterOpeningFence(b: string)
    requires NoOuterSpace(b)
    ensures Strip(RemoveSuffix(RemovePrefix("\n" + b + "\n" + Fence, Fence), Fence)) == b
  {
    var inner := "\n" + b + "\n" + Fence;
    assert !StartsWith(inner, Fence) by {
      assert inner[0] == '\n';
    }
    assert inner == ("\n" + b + "\n") + Fence;
    assert EndsWith(inner, Fence);
    BodyBetweenNewlines(b);
  }

  /** A reply wrapped in a fence has no whitespace at either end. */
  lemma {:induction false} FencedStrips(w1: string, open: string, b: string, w2: string)
    requires AllSpace(w1) && AllSpace(w2) && StartsWith(open, Fence)
    ensures Strip(w1 + open + "\n" + b + "\n" + Fence + w2) == open + "\n" + b + "\n" + Fence
  {
    var fenced := open + "\n" + b + "\n" + Fence;
    assert fenced[0] == open[0] == '`';
    assert fenced[|fenced| - 1] == '`';
    assert w1 + open + "\n" + b + "\n" + Fence + w2 == w1 + fenced + w2;
    StripExact(w1, fenced, w2);
  }

  /** The three fence removals and the final trim, once the reply has been trimmed. */
  lemma StripFencesAfterTrim(raw: string, t: string, b: string)
    requires Strip(raw) == t
    requires Strip(RemoveSuffix(RemovePrefix(RemovePrefix(t, HtmlFence), Fence), Fence)) == b
    ensures StripFences(raw) == b
  {
  }

  lemma {:induction false} HtmlFenceRemoved(b: string)
    requires NoOuterSpace(b)
    ensures Strip(RemoveSuffix(RemovePrefix(RemovePrefix(HtmlFence + "\n" + b + "\n" + Fence, HtmlFence), Fence), Fence)) == b
  {
    var inner := "\n" + b + "\n" + Fence;
    assert HtmlFence + "\n" + b + "\n" + Fence == HtmlFence + inner;
    assert RemovePrefix(HtmlFence + inner, HtmlFence) == inner;
    AfterOpeningFence(b);
  }

  /** A bare fence followed by a line break is not an ```html fence. */
  lemma {:induction false} BareFenceIsNotHtml(inner: string)
    requires inner != [] && inner[0] == '\n'
    ensures !StartsWith(Fence + inner, HtmlFence)
  {
    assert (Fence + inner)[3] == '\n';
  }

  lemma {:induction false} PlainFenceRemoved(b: string)
    requires NoOuterSpace(b)
    ensures Strip(RemoveSuffix(RemovePrefix(RemovePrefix(Fence + "\n" + b + "\n" + Fence, HtmlFence), Fence), Fence)) == b
  {
    var inner := "\n" + b + "\n" + Fence;
    assert Fence + "\n" + b + "\n" + Fence == Fence + inner;
    BareFenceIsNotHtml(inner);
    assert RemovePrefix(Fence + inner, HtmlFence) == Fence + inner;
    assert RemovePrefix(Fence + inner, Fence) == inner;
    AfterOpeningFence(b);
  }

  /** A body wrapped in an ```html fence, with any whitespace around it, comes
      back exactly. */
  lemma HtmlFenceRoundTrip(w1: string, b: string, w2: string)
    requires AllSpace(w1) && AllSpace(w2) && NoOuterSpace(b)
    ensures StripFences(w1 + HtmlFence + "\n" + b + "\n" + Fence + w2) == b
  {
    FencedStrips(w1, HtmlFence, b, w2);
    HtmlFenceRemoved(b);
    StripFencesAfterTrim(w1 + HtmlFence + "\n" + b + "\n" + Fence + w2, HtmlFence + "\n" + b + "\n" + Fence, b);
  }

  /** The same for a bare ``` fence. */
  lemma PlainFenceRoundTrip(w1: string, b: string, w2: string)
    requires AllSpace(w1) && AllSpace(w2) && NoOuterSpace(b)
    ensures StripFences(w1 + Fence + "\n" + b + "\n" + Fence + w2) == b
  {
    FencedStrips(w1, Fence, b, w2);
    PlainFenceRemoved(b);
    StripFencesAfterTrim(w1 + Fence + "\n" + b + "\n" + Fence + w2, Fence + "\n" + b + "\n" + Fence, b);
  }

  // ---------------------------------------------------------------------------
  // the request

  /** The minimum number of retrieved chunks for drafting. */
  const MinChunks := 3

  const NotEnoughInfo :=
    "I’m sorry, I don’t have enough information from our AI Enhanced Library to craft a proper SOW. "
    + "Please email dm@gtmharmony.com with additional context."

  /** What `home()` renders as `answer` (None: no answer), or the exception it raises.
      `isPost` is the request method; `hasAnswerHtml` says the form has an
      `answer_html` field; `date` is today's date, already formatted. */
  ghost function HomeAnswer(isPost: bool, hasAnswerHtml: bool, form: Prompts.SowForm, date: string,
                            texts: seq<string>, prompts: Prompts.PromptTexts, svc: Services): Result<Option<string>>
  {
    if !isPost || hasAnswerHtml then Ok(None)
    else match RetrieveChunks(form.problem, texts, svc)
      case Err(e) => Err(e)
      case Ok(chunks) =>
        if |chunks| < MinChunks then Ok(Some(NotEnoughInfo))
        else DraftAnswer(chunks, form, date, prompts, svc)
  }

  /** The drafting step, once enough chunks were retrieved: per-technology
      context, the context string, one completion, the fences removed. */
  ghost function DraftAnswer(chunks: seq<string>, form: Prompts.SowForm, date: string,
                             prompts: Prompts.PromptTexts, svc: Services): Result<Option<string>>
  {
    var contexts := TechContexts(StackItems(form.gtmStack), chunks, svc.web);
    match svc.complete(Prompts.SowRequest(prompts, date, ContextString(chunks, contexts), form))
    case None => Err(CompletionFailed)
    case Some(raw) => Ok(Some(StripFences(raw)))
  }

  /** The handler's request logic; `sow.py` passes `Prompts.SowTexts` as the prompt texts. */
  method Home(isPost: bool, hasAnswerHtml: bool, form: Prompts.SowForm, date: string,
              texts: seq<string>, prompts: Prompts.PromptTexts, svc: Services) returns (answer: Result<Option<string>>)
    ensures answer == HomeAnswer(isPost, hasAnswerHtml, form, date, texts, prompts, svc)
  {
    answer := Ok(None);
    if isPost && !hasAnswerHtml {
      var retrieved := RetrieveChunks(form.problem, texts, svc);
      if retrieved.Err? {
        return Err(retrieved.error);
      }
      var chunks := retrieved.value;
      if |chunks| < MinChunks {
        answer := Ok(Some(NotEnoughInfo));
      } else {
        answer := Draft(chunks, form, date, prompts, svc);
      }
    }
  }

  /** The drafting step of the handler. */
  method Draft(chunks: seq<string>, form: Prompts.SowForm, date: string,
               prompts: Prompts.PromptTexts, svc: Services) returns (answer: Result<Option<string>>)
    ensures answer == DraftAnswer(chunks, form, date, prompts, svc)
  {
    var contexts := BuildTechContexts(StackItems(form.gtmStack), chunks, svc.web);
    var contextStr := ContextString(chunks, contexts);
    var res := svc.complete(Prompts.SowRequest(prompts, date, contextStr, form));
    if res.None? {
      return Err(CompletionFailed);
    }
    answer := Ok(Some(StripFences(res.value)));
  }

  /** A GET, or a POST carrying `answer_html`, generates nothing. */
  lemma NoGenerationWithoutDraftRequest(isPost: bool, hasAnswerHtml: bool, form: Prompts.SowForm, date: string,
                                        texts: seq<string>, prompts: Prompts.PromptTexts, svc: Services)
    requires !isPost || hasAnswerHtml
    ensures HomeAnswer(isPost, hasAnswerHtml, form, date, texts, prompts, svc) == Ok(None)
  {
  }

  /** Fewer than three chunks: the fixed message, whatever the web search and the
      completion service would have done, so neither is consulted. */
  lemma GateSkipsGeneration(form: Prompts.SowForm, date: string, texts: seq<string>,
                            prompts: Prompts.PromptTexts, svc: Services,
                            web: (string, nat) -> SearchOutcome, complete: ChatRequest -> Option<string>)
    requires RetrieveChunks(form.problem, texts, svc).Ok?
    requires |RetrieveChunks(form.problem, texts, svc).value| < MinChunks
    ensures HomeAnswer(true, false, form, date, texts, prompts, svc) == Ok(Some(NotEnoughInfo))
    ensures HomeAnswer(true, false, form, date, texts, prompts, svc.(web := web, complete := complete)) ==
            Ok(Some(NotEnoughInfo))
  {
    assert RetrieveChunks(form.problem, texts, svc.(web := web, complete := complete)) ==
           RetrieveChunks(form.problem, texts, svc);
  }

  /** With enough chunks, a successful request yields a drafted answer, and it
      carries no surrounding whitespace. */
  lemma DraftIsTrimmed(form: Prompts.SowForm, date: string, texts: seq<string>,
                       prompts: Prompts.PromptTexts, svc: Services)
    requires RetrieveChunks(form.problem, texts, svc).Ok?
    requires |RetrieveChunks(form.problem, texts, svc).value| >= MinChunks
    requires HomeAnswer(true, false, form, date, texts, prompts, svc).Ok?
    ensures HomeAnswer(true, false, form, date, texts, prompts, svc).value.Some?
    ensures NoOuterSpace(HomeAnswer(true, false, form, date, texts, prompts, svc).value.value)
  {
  }
}
