# RevOps SOW generator: a verified model of its bookkeeping and string logic

The repository has two parts. The first is a small Flask service (`sow.py`). It drafts a Statement of Work from a form, using chunks retrieved from a FAISS index of company documents, DuckDuckGo snippets about the customer's GTM stack, and a chat-completion call. The second is three scripts: one builds the index (`scripts/build_index.py`), one appends new documents to it (`scripts/append.py`), and one answers a question from the command line (`scripts/query_index.py`).

This project models the logic those files write themselves. The external services are function values that the model calls and never looks inside:
- the embedding call, `string -> Option<Vec>`, where None means the call raised;
- the FAISS search, returning a row of ids;
- DuckDuckGo, which raises or returns snippets;
- the chat completion;
- the document loaders;
- the text splitter.

Modules, one per file:

- `Text` (`text.dfy`): the Python string operations the code uses. That is `strip`, `join`, `split` on one character, `removeprefix`/`removesuffix`, `in`, ASCII `lower`, and the code-point ordering `sorted` uses.
- `Common` (`common.dfy`): Option and Result, the failures an uncaught exception stands for, chat requests, and the service bundle.
- `Retrieval` (`retrieval.dfy`): embed the query, search, and map each id through the chunk list with Python's indexing rules. Negative ids count from the end, and an id out of range is an `IndexError`.
- `Sow` (`sow.dfy`) and `Prompts` (`prompts.dfy`): the `/` endpoint from the form fields to the rendered answer. This covers the web-search fallback, retrieval, the fewer-than-three-chunks gate, stack parsing, the per-technology contexts (an imperative loop), the context string, the two prompts and fence stripping.
- `QueryIndex` (`query_index.dfy`): retrieval with k = 5, the prompt, the raw answer, and the usage exit.
- `Store` (`store.dfy`): what the two ingestion scripts share:
  - `Path.suffix` as CPython computes it;
  - each script's loader dispatch;
  - the splitter settings;
  - the vectors kept for the chunks whose embedding succeeds;
  - the in-memory index, as a class whose `Add` appends;
  - the output directory, as a class with the index, chunk and manifest files.
- `BuildIndex` (`build_index.dfy`): the load-or-skip loop, the embed-or-skip loop that keeps vectors and texts aligned, the exit with status 1 when nothing embedded, and the save.
- `Append` (`append.dfy`): candidate and new-file selection against the manifest, the per-file load/split/embed/append loop, the abort on an embedding error, and the manifest written back sorted.

The scripts run top to bottom over a directory listing. The model takes the listing as a sequence of file names in iteration order. The scripts' file reads and writes are assignments to an `OutputDir` object's fields.

Retrieval does not cap the number of results at min(k, n). The code maps every id the search returns (`sow.py:51`, `scripts/query_index.py:29`), so the model does the same: whatever row the search oracle returns is mapped id by id, with Python's indexing rules.

## Model

| member | source | states |
|---|---|---|
| Text.Strip | sow.py:166-170 | the result has no leading or trailing whitespace and is no longer than the input |
| Text.TrimStart | sow.py:166 | the result is a suffix of the input; what was removed is all whitespace; the result does not start with whitespace |
| Text.TrimEnd | sow.py:170 | the result is a prefix of the input; what was removed is all whitespace; the result does not end with whitespace |
| Text.StripExact | sow.py:166-170 | stripping whitespace-only padding from around a trimmed text gives back exactly that text |
| Text.StripKeepsCharacters | sow.py:119 | a character absent from the input is absent from the stripped text |
| Text.JoinAppend | sow.py:125 | joining two non-empty lists is joining each and putting one separator between them |
| Text.JoinStartsWithFirst | sow.py:125 | a join starts with its first part |
| Text.JoinEmptyIff | sow.py:45 | joining non-empty parts yields "" exactly when there are no parts |
| Text.Split | sow.py:119 | splitting yields at least one part and no part contains the separator |
| Text.JoinSplit | sow.py:119 | joining the parts of a split by the separator gives back the input |
| Text.SplitJoin | sow.py:119 | splitting a join of separator-free parts gives back the parts |
| Text.SplitPrefix | sow.py:119 | a separator-free text before a separator becomes the first part of the split |
| Text.SplitNoSeparator | sow.py:119 | a text without the separator splits into itself alone |
| Text.RemovePrefix | sow.py:167-168 | with the prefix present, the prefix followed by the result is the input; otherwise the input is unchanged |
| Text.RemoveSuffix | sow.py:169 | the result is a prefix of the input; a present non-empty suffix is removed exactly; otherwise the input is unchanged |
| Text.ContainsIff | sow.py:120 | the scanning `in` test holds exactly when the needle occurs at some position |
| Text.Lower | scripts/append.py:51 | lower-casing keeps the length |
| Text.LessIrreflexive | scripts/append.py:111 | no name sorts before itself |
| Text.LessTransitive | scripts/append.py:111 | the order `sorted` uses is transitive |
| Text.LessTotal | scripts/append.py:111 | of two different names, one sorts before the other |
| Text.LessAsymmetric | scripts/append.py:111 | two names never sort before each other |
| Retrieval.PyPosition | sow.py:51 | an index Python accepts names a position inside the list; negative ones count from the end |
| Retrieval.MapIds | sow.py:51 | succeeds exactly when every id is in Python's range; then one text per id, in id order, each the text at that id's position; otherwise `IndexError` |
| Retrieval.MapIdsLookup | scripts/query_index.py:29 | with all ids non-negative and in range, the i-th text is `texts[ids[i]]` |
| Retrieval.MinusOneReadsLast | sow.py:51 | an id of -1, which FAISS returns for a missing neighbour, reads the last chunk text rather than failing |
| Retrieval.Retrieve | sow.py:47-51 | a failed embedding call is the run's failure; otherwise the search row for k is mapped through the texts |
| Sow.Snippets | sow.py:45 | a text is kept exactly when it is the snippet of some result and not empty, and there are no more texts than results |
| Sow.SnippetsOne | sow.py:45 | one result contributes its snippet exactly when it has a non-empty one |
| Sow.SnippetsAppend | sow.py:45 | the snippets of two runs of results are those of the first then those of the second, so result order and repeats are kept |
| Sow.SearchWeb | sow.py:38-45 | a raised search gives ""; otherwise the kept snippets joined by line breaks |
| Sow.SearchWebEmptyIff | sow.py:38-45 | the fallback is "" exactly when the search raised or no result had a non-empty snippet |
| Sow.RetrieveChunks | sow.py:47-51 | a failed embedding propagates; otherwise the search row for k = 5 is mapped through `texts` |
| Sow.CleanItems | sow.py:119 | every kept item is trimmed and non-empty, and there are no more items than parts |
| Sow.CleanItemsOne | sow.py:119 | one part yields its stripped text, or nothing when that is empty |
| Sow.CleanItemsAppend | sow.py:119 | the items of two runs of parts are those of the first then those of the second, so part order is kept |
| Sow.StackItems | sow.py:119 | every technology is trimmed, non-empty and free of commas |
| Sow.CleanItemsKeepsClean | sow.py:119 | items that are already trimmed and non-empty are all kept, in order |
| Sow.StackItemsRoundTrip | sow.py:119 | parsing a comma-join of clean, comma-free items gives back those items in order |
| Sow.Mentioning | sow.py:120 | a text is kept exactly when it is a retrieved chunk containing the technology, ignoring ASCII case, and there are no more texts than chunks |
| Sow.MentioningOne | sow.py:120 | one chunk is kept exactly when it mentions the technology |
| Sow.MentioningAppend | sow.py:120 | the matches in two runs of chunks are those of the first then those of the second, so chunk order and repeats are kept |
| Sow.TechContextCases | sow.py:121 | if some chunk mentions the technology, the mentioning chunks joined by line breaks; otherwise the web fallback for it |
| Sow.BuildTechContexts | sow.py:118-121 | the loop yields exactly one context per technology, in order, each that technology's context |
| Sow.LiveEntriesShape | sow.py:124 | each live entry is the tag followed by a non-empty context, and every non-empty context has its entry |
| Sow.LiveEntriesOne | sow.py:124 | one context gives the tagged entry, or nothing when it is empty |
| Sow.LiveEntriesAppend | sow.py:124 | the entries of two runs of contexts are those of the first then those of the second, so technology order is kept |
| Sow.Excerpts | sow.py:123 | one excerpt per chunk, in order, each the tag followed by the chunk |
| Sow.ExcerptsPrecedeLiveSearch | sow.py:123-125 | the context string is the joined excerpts, one separator, then the joined live entries |
| Sow.ContextStartsWithFirstExcerpt | sow.py:123-125 | the context string starts with the first chunk as an excerpt |
| Sow.StripFences | sow.py:165-171 | the cleaned reply has no leading or trailing whitespace |
| Sow.UnfencedIsOnlyTrimmed | sow.py:165-171 | a reply with no fence at either end after trimming is only trimmed |
| Sow.AfterOpeningFence | sow.py:168-170 | once the opening fence is gone, the second prefix removal leaves the text alone and the closing fence is removed |
| Sow.FencedStrips | sow.py:166 | the first trim removes only the whitespace around a fenced reply |
| Sow.HtmlFenceRemoved | sow.py:167-170 | an ```html-fenced body comes out exactly |
| Sow.BareFenceIsNotHtml | sow.py:167 | a bare fence followed by a line break is not taken for an ```html fence |
| Sow.PlainFenceRemoved | sow.py:168-170 | a body in a bare fence comes out exactly |
| Sow.HtmlFenceRoundTrip | sow.py:165-171 | any trimmed body wrapped in an ```html fence and any whitespace is recovered exactly |
| Sow.PlainFenceRoundTrip | sow.py:165-171 | any trimmed body wrapped in a bare fence and any whitespace is recovered exactly |
| Sow.Home | sow.py:102-171 | the handler's answer, or its failure, is the one the request logic defines for the form, date, chunk texts, prompt texts and services |
| Sow.Draft | sow.py:116-171 | the drafting branch's answer, or its failure, is the one the request logic defines once enough chunks were retrieved |
| Sow.NoGenerationWithoutDraftRequest | sow.py:107-109 | a GET, or a POST carrying `answer_html`, leaves the answer empty |
| Sow.GateSkipsGeneration | sow.py:110-115 | with fewer than three chunks the answer is the fixed apology, whatever the search and completion services would do |
| Sow.DraftIsTrimmed | sow.py:164-171 | a generated draft has no leading or trailing whitespace |
| Prompts.SystemMessage | sow.py:127-139 | the system prompt is the fixed head, the date, then the fixed tail, and the date can be read back from it |
| Prompts.UserMessage | sow.py:141-154 | the user prompt has exactly the length of its parts; it starts with the date line, the instructions, the context and the problem heading; the problem, participants, GTM stack and timeline can each be read back right after their headings; it ends with the closing instruction |
| Prompts.SowRequest | sow.py:156-163 | the request goes to gpt-4-turbo at temperature 0 with the system then the user message |
| QueryIndex.Retrieve | scripts/query_index.py:23-29 | a failed embedding propagates; otherwise the search row for k = 5 is mapped through `texts` |
| QueryIndex.Prompt | scripts/query_index.py:35-39 | the prompt starts with the instruction and "Context:", ends with the question and answer cue, and has exactly their lengths plus the joined chunks' |
| QueryIndex.PromptContext | scripts/query_index.py:37 | the chunks joined by `---` lines can be read back between the head and the question |
| QueryIndex.AnswerRequest | scripts/query_index.py:41-45 | one user message with the prompt, to gpt-4o-mini at temperature 0 |
| QueryIndex.Answer | scripts/query_index.py:31-46 | failures propagate; a reply comes back exactly as the service returned it |
| QueryIndex.AnswerKeepsRawReply | scripts/query_index.py:46 | a reply with leading whitespace is returned as is, unlike the SOW handler's cleaned reply |
| QueryIndex.Run | scripts/query_index.py:48-54 | without a question it prints the usage line with status 1; otherwise it prints the answer with status 0 or ends in the answer's failure |
| Store.LastDotFinds | scripts/append.py:51 | the last-dot search finds a dot exactly when the name has one, and no dot follows the one it finds |
| Store.SuffixShape | scripts/append.py:51 | a suffix is empty, or a dot followed by at least one dot-free character that ends the name; it is empty exactly when there is no dot or the last dot starts or ends the name |
| Store.SuffixOfExtension | scripts/build_index.py:35 | a stem, a dot and a dot-free extension have the dot and extension as suffix |
| Store.HiddenFileHasNoSuffix | scripts/build_index.py:35 | a name whose only dot is its first character has no suffix |
| Store.BuildLoader | scripts/build_index.py:37-51 | `.pdf`, `.html`/`.htm`, `.docx` and `.txt`/`.md` each get their loader; every other suffix is skipped |
| Store.AppendLoader | scripts/append.py:73-81 | `.pdf`, `.docx`/`.doc` and `.csv` each get their loader; every other suffix is skipped |
| Store.ScriptsAcceptDifferentKinds | scripts/build_index.py:37-51 | `.doc` and `.csv` are appended but never built; HTML, text and Markdown are built but never appended; only `.pdf` and `.docx` are shared |
| Store.GatherAppend | scripts/build_index.py:54 | what a listing contributes is what its two halves contribute, in order |
| Store.GatherStep | scripts/build_index.py:54 | one more file adds its own contribution at the end |
| Store.EmbeddedAppend | scripts/build_index.py:70-81 | the vectors of two chunk lists are the vectors of each, in order |
| Store.VectorIndex.constructor | scripts/build_index.py:89 | a fresh index has the given dimension and no vectors |
| Store.VectorIndex.Read | scripts/append.py:60 | a read index has the saved dimension and vectors |
| Store.VectorIndex.Add | scripts/append.py:99 | adding appends the batch behind the existing vectors |
| BuildIndex.LoadedPagesAppend | scripts/build_index.py:33-57 | loading two listings one after the other yields their pages one after the other |
| BuildIndex.SkippedFileAddsNothing | scripts/build_index.py:49-57 | a file without a loader, or whose loader raises, adds no pages |
| BuildIndex.LoadedFileAddsItsPages | scripts/build_index.py:53-54 | a loaded file adds all its pages behind those before it |
| BuildIndex.LoadDocs | scripts/build_index.py:33-57 | the loop's `docs` is the pages of every loaded file in listing order |
| BuildIndex.KeptTexts | scripts/build_index.py:68-81 | no more texts are kept than there are chunks |
| BuildIndex.KeptAligned | scripts/build_index.py:68-81 | kept texts and vectors have the same length, and the i-th vector is the embedding of the i-th text |
| BuildIndex.KeptExactlyEmbedded | scripts/build_index.py:70-81 | a chunk's text is kept exactly when its embedding succeeds |
| BuildIndex.KeptIsSubsequence | scripts/build_index.py:68-81 | the kept texts are the chunks in order with the failures left out |
| BuildIndex.EmbedChunks | scripts/build_index.py:67-81 | the loop keeps a vector and its text together or neither, so both lists stay the same length |
| BuildIndex.Outcome | scripts/build_index.py:83-96 | nothing is saved exactly when no embedding succeeded; otherwise the saved index holds every kept vector, with the first vector's dimension, beside the kept texts |
| BuildIndex.SavedFilesAligned | scripts/build_index.py:88-96 | the saved index holds one vector per saved text, that text's embedding, and there is at least one |
| BuildIndex.RetrievedTextMatchesVector | scripts/build_index.py:88-96 | mapping in-range ids through the saved texts yields, for each id, the text whose embedding is the vector stored at that id |
| BuildIndex.Build | scripts/build_index.py:32-96 | status 1 exactly when nothing embedded, and then nothing is created or written; otherwise the index and chunk files are overwritten with the outcome and the manifest is untouched |
| Append.CandidatesMembers | scripts/append.py:50-51 | the candidates are exactly the listed files whose lower-cased suffix is `.pdf`, `.docx`, `.doc` or `.csv` |
| Append.NewFilesMembers | scripts/append.py:52 | the new files are exactly the candidates the manifest does not name |
| Append.NewFilesEmpty | scripts/append.py:52-55 | with every candidate in the manifest there are no new files |
| Append.PendingMembers | scripts/append.py:50-52 | a run works on exactly the listed, accepted files the manifest does not name |
| Append.PendingFilesHaveLoaders | scripts/append.py:73-81 | every file a run works on gets a loader, so the unsupported-type branch is never taken |
| Append.FileChunks | scripts/append.py:71-89 | a file without a loader yields nothing |
| Append.IngestedMembers | scripts/append.py:102 | the names recorded are exactly the files that loaded |
| Append.EmbeddedOneEach | scripts/append.py:92-95 | when every chunk embeds there is one vector per chunk, that chunk's own |
| Append.AllEmbedIffComplete | scripts/append.py:92-94 | every chunk embeds exactly when no vector is missing |
| Append.AppendOne | scripts/append.py:69-102 | one more file appends its chunks and records its name if it loaded, and changes nothing otherwise |
| Append.NewChunksAppend | scripts/append.py:69-95 | the chunks of a listing are those of its two halves, in order |
| Append.NewChunksPrefix | scripts/append.py:69-95 | the chunks of the files done so far are among the chunks of the whole run |
| Append.SecondRunFindsOnlyFailures | scripts/append.py:47-52 | after a completed run, a rerun over the same listing works on exactly the files that failed to load |
| Append.SecondRunIsEmpty | scripts/append.py:53-55 | if every file loaded, a rerun has no new files |
| Append.FailedLoadRetried | scripts/append.py:84-86 | a file whose loader raised is not recorded, so the next run works on it again |
| Append.Insert | scripts/append.py:111 | inserting a new name into a strictly sorted list keeps it strictly sorted, one longer, with exactly the old names and the new one |
| Append.SortedNames | scripts/append.py:111 | the manifest list is strictly sorted, has exactly the processed names, and has no duplicates |
| Append.CreatedManifest | scripts/append.py:41-43 | an absent manifest is created empty; an existing one is kept; either way the processed names are unchanged |
| Append.EmbedFileChunks | scripts/append.py:91-95 | raises exactly when some chunk fails to embed; otherwise one vector per chunk and the chunk texts appended in order |
| Append.IngestFile | scripts/append.py:69-102 | the file is recorded exactly when it loaded; a skipped file changes nothing; a loaded one raises exactly when a chunk fails to embed, and otherwise appends its texts and vectors together |
| Append.ProgressSkip | scripts/append.py:79-86 | a skipped file leaves texts, vectors, names and count as they were |
| Append.ProgressLoad | scripts/append.py:88-102 | a loaded file whose chunks all embed extends texts, vectors, names and count by exactly that file |
| Append.FailureInRun | scripts/append.py:93 | an embedding failure in any file is a failure of the run's chunks |
| Append.IngestStep | scripts/append.py:69-102 | one pass of the loop either raises because a chunk of the run fails to embed, or keeps the loop invariant for one more file |
| Append.IngestFiles | scripts/append.py:67-102 | raises exactly when some new chunk fails to embed; otherwise the texts, the index's vectors, the processed names and the chunk count have grown by exactly the loaded files' contributions |
| Append.AppendedStaysAligned | scripts/append.py:91-99 | appending keeps the gap between vector count and text count, and each new vector is the embedding of the text appended with it |
| Append.AppendNewFiles | scripts/append.py:57-111 | a missing index or chunk file raises; an embedding failure raises; otherwise the saved lists grow by the new chunks and their vectors, and the manifest is sorted with the old names plus the loaded files |
| Append.Append | scripts/append.py:39-113 | the directory exists afterwards; "no new files", the missing store and the embedding error each happen exactly in their case and write nothing but the empty manifest; otherwise the index, the chunk list and the sorted, grown manifest are written |

## Left out

- External services are function values the model never looks inside: the OpenAI embedding and chat APIs, the FAISS search and its L2 distances, DuckDuckGo, the LangChain loaders and the text splitter. Each call is treated as deterministic, so a text embedded twice gets the same answer both times.
- Flask routing, the form-field plumbing, template rendering, the rate limiter, its error page and the IP allow-list are not modelled. Neither is the HTML-to-PDF export.
- The current date is a parameter, already formatted. `datetime.now()` and `strftime` are not modelled.
- File I/O, pickle and JSON (de)serialisation, `.env` loading and the API-key check at start-up are not modelled. A file's contents are a field of `OutputDir`, and None means the file does not exist.
- The directory listing is a parameter in iteration order. The model does not say what that order is.
- Printed progress lines and the final summary line are not modelled. Only the exit status and the counts in the summary are.
- Unicode: `strip`, `isspace` and `lower` are modelled on ASCII only.
- Integer widths and float32 conversion of vectors are not modelled. A vector is a sequence of reals.
- The long prompt instructions are constant strings (`Prompts.SowTexts`), and the handler takes them as a parameter. The model proves that the date, the context and each form field can be read back at their place between those strings. It says nothing about the wording of the instructions.
- FAISS refuses a batch whose width differs from the index dimension, or an empty batch. The model's `Add` always appends, so a file that yields no chunks adds nothing and does not raise.
- Append.AppendNewFiles: does not check that the new vectors' dimension matches the saved index, because the embedding service's vector width is outside the model.
- Append.FileChunks: its contract states only the no-loader case. What a loaded file yields is whatever the loader and splitter oracles return.
- Sow.StripFences: its contract states only that the result is trimmed. The exact results for fenced and unfenced replies are the round-trip lemmas beside it.
- Text.Lower: its contract states only the length. ASCII case folding is the definition.
