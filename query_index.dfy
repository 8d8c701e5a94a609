/**
 * The command-line question answerer (`scripts/query_index.py`): retrieve
 * five chunks for the question, put them into a fixed prompt, and print the
 * completion's content as the service returned it.
 * The loaded index and chunk list are parameters; the services are function values.
 */
module QueryIndex {
  import opened Common
  import opened Text
  import Retrieval
  import Sow

  const AnswerModel := "gpt-4o-mini"
  const Instruction := "You are a RevOps expert. Use the context below to answer.\n\n"
  const ContextHeading := "Context:\n"
  const ChunkSeparator := "\n---\n"
  const Usage := "Usage: python query_index.py \"Your question here\""

  /** `retrieve(question)`: the default k of five, ids mapped through `texts`. */
  function Retrieve(question: string, texts: seq<string>, svc: Services): (r: Result<seq<string>>)
    ensures svc.embed(question).None? <==> r == Err(EmbeddingFailed)
    ensures svc.embed(question).Some? ==> r == Retrieval.MapIds(texts, svc.search(svc.embed(question).value, 5))
  {
    Retrieval.Retrieve(question, Retrieval.DefaultK, texts, svc)
  }

  /** What follows the context block: a blank line, the question line and the answer cue. */
  function QuestionTail(question: string): string {
    "\n\nQuestion: " + question + "\nAnswer:"
  }

  /** The prompt: instruction, context heading, the chunks separated by
      `---` lines, a blank line, then the question and the answer cue. */
  function Prompt(question: string, chunks: seq<string>): (r: string)
    ensures StartsWith(r, Instruction + ContextHeading)
    ensures EndsWith(r, QuestionTail(question))
    ensures |r| == |Instruction + ContextHeading| + |Join(ChunkSeparator, chunks)| + |QuestionTail(question)|
  {
    var head := Instruction + ContextHeading;
    var body := Join(ChunkSeparator, chunks);
    assert (head + body + QuestionTail(question))[..|head|] == head;
    assert (head + body + QuestionTail(question))[|head| + |body|..] == QuestionTail(question);
    head + body + QuestionTail(question)
  }

  /** The joined chunks can be read back from the prompt between its fixed
      head and the question tail. */
  lemma PromptContext(question: string, chunks: seq<string>)
    ensures var r := Prompt(question, chunks);
            r[|Instruction + ContextHeading|..|r| - |QuestionTail(question)|] == Join(ChunkSeparator, chunks)
  {
    var head := Instruction + ContextHeading;
    var body := Join(ChunkSeparator, chunks);
    assert Prompt(question, chunks) == head + body + QuestionTail(question);
    assert (head + body + QuestionTail(question))[|head|..|head| + |body|] == body;
  }

  /** The single user message sent, deterministically, to the small model. */
  function AnswerRequest(prompt: string): (r: ChatRequest)
    ensures r.model == AnswerModel && r.temperature == 0
    ensures |r.messages| == 1 && r.messages[0] == Message(User, prompt)
  {
    ChatRequest(AnswerModel, [Message(User, prompt)], 0)
  }

  /** `answer(question)`: the retrieval's and the completion's failures
      propagate; otherwise the completion's content, unmodified. */
  function Answer(question: string, texts: seq<string>, svc: Services): (r: Result<string>)
    ensures Retrieve(question, texts, svc).Err? ==> r == Err(Retrieve(question, texts, svc).error)
    ensures Retrieve(question, texts, svc).Ok? ==>
              var reply := svc.complete(AnswerRequest(Prompt(question, Retrieve(question, texts, svc).value)));
              (reply.None? <==> r == Err(CompletionFailed)) && (reply.Some? ==> r == Ok(reply.value))
  {
    match Retrieve(question, texts, svc)
    case Err(e) => Err(e)
    case Ok(chunks) =>
      match svc.complete(AnswerRequest(Prompt(question, chunks)))
      case None => Err(CompletionFailed)
      case Some(content) => Ok(content)
  }

  /** Unlike the SOW handler, the answer keeps any fences and surrounding
      whitespace the model produced. */
  lemma AnswerKeepsRawReply(question: string, texts: seq<string>, svc: Services, raw: string)
    requires Retrieve(question, texts, svc).Ok?
    requires svc.complete(AnswerRequest(Prompt(question, Retrieve(question, texts, svc).value))) == Some(raw)
    requires raw != [] && IsSpace(raw[0])
    ensures Answer(question, texts, svc) == Ok(raw)
    ensures Answer(question, texts, svc).value != Sow.StripFences(raw)
  {
    var s := Sow.StripFences(raw);
    assert NoOuterSpace(s);
  }

  /** What running the script ends with: text printed and an exit status, or
      an uncaught exception. */
  datatype RunOutcome = Printed(output: string, status: nat) | Raised(error: Failure)

  /** The `__main__` block; `argv[0]` is the script's own name. */
  function Run(argv: seq<string>, texts: seq<string>, svc: Services): (r: RunOutcome)
    ensures |argv| < 2 <==> r == Printed(Usage, 1)
    ensures |argv| >= 2 && Answer(argv[1], texts, svc).Ok? ==> r == Printed(Answer(argv[1], texts, svc).value, 0)
    ensures |argv| >= 2 && Answer(argv[1], texts, svc).Err? ==> r == Raised(Answer(argv[1], texts, svc).error)
  {
    if |argv| < 2 then Printed(Usage, 1)
    else match Answer(argv[1], texts, svc)
      case Ok(a) => Printed(a, 0)
      case Err(e) => Raised(e)
  }
}
