/**
 * The index builder (`scripts/build_index.py`): load every supported input
 * file, split the pages into chunks, embed each chunk, keeping a chunk's text
 * only when its embedding succeeded, and save a fresh index with the kept
 * texts beside it; with nothing embedded, exit with status 1 and write nothing.
 * The input directory's listing is a parameter, in iteration order.
 */
module BuildIndex {
  import opened Common
  import opened Text
  import opened Store
  import Retrieval

  // ---------------------------------------------------------------------------
  // loading

  /** The pages one input file adds to `docs`: none when its suffix has no
      loader or its loader raises. */
  function PagesOf(name: string, load: (Loader, string) -> Option<seq<string>>): seq<string> {
    match BuildLoader(Kind(name))
    case None => []
    case Some(loader) =>
      match load(loader, name)
      case None => []
      case Some(pages) => pages
  }

  /** `docs` once the loading loop has seen `names`. */
  function LoadedPages(names: seq<string>, load: (Loader, string) -> Option<seq<string>>): seq<string> {
    Gather(names, name => PagesOf(name, load))
  }

  /** Loading two listings one after the other loads their pages one after the other. */
  lemma LoadedPagesAppend(a: seq<string>, b: seq<string>, load: (Loader, string) -> Option<seq<string>>)
    ensures LoadedPages(a + b, load) == LoadedPages(a, load) + LoadedPages(b, load)
  {
    GatherAppend(a, b, name => PagesOf(name, load));
  }

  /** A file that is skipped, for its suffix or because its loader raised, adds nothing. */
  lemma SkippedFileAddsNothing(names: seq<string>, name: string, load: (Loader, string) -> Option<seq<string>>)
    requires BuildLoader(Kind(name)).None? || load(BuildLoader(Kind(name)).value, name).None?
    ensures LoadedPages(names + [name], load) == LoadedPages(names, load)
  {
    assert (names + [name])[..|names|] == names;
  }

  /** A loaded file adds all its pages, behind those loaded before it. */
  lemma LoadedFileAddsItsPages(names: seq<string>, name: string, load: (Loader, string) -> Option<seq<string>>)
    requires BuildLoader(Kind(name)).Some? && load(BuildLoader(Kind(name)).value, name).Some?
    ensures LoadedPages(names + [name], load) == LoadedPages(names, load) + load(BuildLoader(Kind(name)).value, name).value
  {
    assert (names + [name])[..|names|] == names;
  }

  /** Step 1, the loading loop. */
  method LoadDocs(names: seq<string>, load: (Loader, string) -> Option<seq<string>>) returns (docs: seq<string>)
    ensures docs == LoadedPages(names, load)
  {
    ghost var pages := name => PagesOf(name, load);
    docs := [];
    for i := 0 to |names|
      invariant docs == Gather(names[..i], pages)
    {
      GatherStep(names, i, pages);
      assert pages(names[i]) == PagesOf(names[i], load);
      var loader := BuildLoader(Kind(names[i]));
      if loader.None? {
        assert pages(names[i]) == [];
        continue;
      }
      var loaded := load(loader.value, names[i]);
      if loaded.None? {
        assert pages(names[i]) == [];
        continue;
      }
      assert pages(names[i]) == loaded.value;
      docs := docs + loaded.value;
    }
    assert names[..|names|] == names;
  }

  // ---------------------------------------------------------------------------
  // embedding

  /** `texts` once the embedding loop has seen `chunks`: the chunks whose
      embedding succeeded, in order. */
  function KeptTexts(chunks: seq<string>, embed: string -> Option<Vec>): (r: seq<string>)
    ensures |r| <= |chunks|
  {
    if chunks == [] then []
    else
      var c := chunks[|chunks| - 1];
      KeptTexts(chunks[..|chunks| - 1], embed) + (if embed(c).Some? then [c] else [])
  }

  /** The two lists stay aligned: as long as each other, and the i-th vector
      is the embedding of the i-th text. */
  lemma {:induction false} KeptAligned(chunks: seq<string>, embed: string -> Option<Vec>)
    ensures |KeptTexts(chunks, embed)| == |Embedded(chunks, embed)|
    ensures forall i :: 0 <= i < |KeptTexts(chunks, embed)| ==>
              embed(KeptTexts(chunks, embed)[i]) == Some(Embedded(chunks, embed)[i])
  {
    if chunks != [] {
      KeptAligned(chunks[..|chunks| - 1], embed);
    }
  }

  /** A chunk's text is kept exactly when its embedding succeeds. */
  lemma {:induction false} KeptExactlyEmbedded(chunks: seq<string>, embed: string -> Option<Vec>)
    ensures forall c :: c in KeptTexts(chunks, embed) <==> c in chunks && embed(c).Some?
  {
    if chunks != [] {
      var init := chunks[..|chunks| - 1];
      KeptExactlyEmbedded(init, embed);
      assert chunks == init + [chunks[|chunks| - 1]];
    }
  }

  /** `a` is `b` with some elements left out, the rest in their order. */
  predicate SubsequenceOf(a: seq<string>, b: seq<string>)
    decreases |b|
  {
    if b == [] then a == []
    else (a != [] && a[|a| - 1] == b[|b| - 1] && SubsequenceOf(a[..|a| - 1], b[..|b| - 1]))
         || SubsequenceOf(a, b[..|b| - 1])
  }

  /** Adding the same last element to both sides, or any element to the
      longer side only, keeps a subsequence a subsequence. */
  lemma SubsequenceExtend(a: seq<string>, b: seq<string>, x: string)
    requires SubsequenceOf(a, b)
    ensures SubsequenceOf(a + [x], b + [x])
    ensures SubsequenceOf(a, b + [x])
  {
    assert (a + [x])[..|a|] == a && (b + [x])[..|b|] == b;
  }

  /** The kept texts are the chunks in their order, with the failures left out. */
  lemma {:induction false} KeptIsSubsequence(chunks: seq<string>, embed: string -> Option<Vec>)
    ensures SubsequenceOf(KeptTexts(chunks, embed), chunks)
  {
    if chunks != [] {
      var init := chunks[..|chunks| - 1];
      var c := chunks[|chunks| - 1];
      KeptIsSubsequence(init, embed);
      SubsequenceExtend(KeptTexts(init, embed), init, c);
      assert chunks == init + [c];
      if embed(c).Some? {
        assert KeptTexts(chunks, embed) == KeptTexts(init, embed) + [c];
      } else {
        assert KeptTexts(chunks, embed) == KeptTexts(init, embed);
      }
    }
  }

  /** Step 3, the embedding loop: a vector and its text are appended together
      or not at all. */
  method EmbedChunks(chunks: seq<string>, embed: string -> Option<Vec>) returns (embeddings: seq<Vec>, texts: seq<string>)
    ensures embeddings == Embedded(chunks, embed)
    ensures texts == KeptTexts(chunks, embed)
    ensures |embeddings| == |texts|
  {
    embeddings, texts := [], [];
    for i := 0 to |chunks|
      invariant embeddings == Embedded(chunks[..i], embed)
      invariant texts == KeptTexts(chunks[..i], embed)
      invariant |embeddings| == |texts|
    {
      assert chunks[..i + 1][..i] == chunks[..i];
      var txt := chunks[i];
      var resp := embed(txt);
      if resp.Some? {
        embeddings := embeddings + [resp.value];
        texts := texts + [txt];
      }
    }
    assert chunks[..|chunks|] == chunks;
  }

  // ---------------------------------------------------------------------------
  // the whole run

  /** Step 2: the splitter's chunk texts for everything loaded. */
  function Chunks(names: seq<string>, ing: Ingestors): seq<string> {
    ing.split(ChunkSize, ChunkOverlap, LoadedPages(names, ing.load))
  }

  /** What a run saves, the index file and the chunk list, or None for the
      "No embeddings created" exit. */
  function Outcome(names: seq<string>, ing: Ingestors): (r: Option<(IndexFile, seq<string>)>)
    ensures r.None? <==> Embedded(Chunks(names, ing), ing.embed) == []
    ensures r.Some? ==> r.value.0.vectors == Embedded(Chunks(names, ing), ing.embed)
    ensures r.Some? ==> r.value.1 == KeptTexts(Chunks(names, ing), ing.embed)
    ensures r.Some? ==> r.value.0.dim == |r.value.0.vectors[0]|
  {
    var vectors := Embedded(Chunks(names, ing), ing.embed);
    if vectors == [] then None
    else Some((IndexFile(|vectors[0]|, vectors), KeptTexts(Chunks(names, ing), ing.embed)))
  }

  /** The saved index holds one vector per saved text, the embedding of that
      text, and its dimension is that of the first vector. */
  lemma SavedFilesAligned(names: seq<string>, ing: Ingestors)
    requires Outcome(names, ing).Some?
    ensures var (file, texts) := Outcome(names, ing).value;
            |file.vectors| == |texts| > 0 &&
            file.dim == |file.vectors[0]| &&
            forall i :: 0 <= i < |texts| ==> ing.embed(texts[i]) == Some(file.vectors[i])
  {
    KeptAligned(Chunks(names, ing), ing.embed);
  }

  /** Searching the saved index and mapping the ids through the saved texts
      yields, for every id, the text whose embedding is the vector at that id. */
  lemma RetrievedTextMatchesVector(names: seq<string>, ing: Ingestors, ids: seq<int>)
    requires Outcome(names, ing).Some?
    requires forall j :: 0 <= j < |ids| ==> 0 <= ids[j] < |Outcome(names, ing).value.0.vectors|
    ensures var (file, texts) := Outcome(names, ing).value;
            var r := Retrieval.MapIds(texts, ids);
            r.Ok? && |r.value| == |ids| &&
            forall j :: 0 <= j < |ids| ==> ing.embed(r.value[j]) == Some(file.vectors[ids[j]])
  {
    SavedFilesAligned(names, ing);
    var (file, texts) := Outcome(names, ing).value;
    Retrieval.MapIdsLookup(texts, ids);
  }

  /** The script's exit status. */
  const NoEmbeddingsStatus: nat := 1

  /** The whole script: load, split, embed, and either exit with status 1
      or build the index and overwrite the two output files. */
  method Build(names: seq<string>, ing: Ingestors, out: OutputDir) returns (status: nat)
    modifies out
    ensures status == NoEmbeddingsStatus <==> Outcome(names, ing).None?
    ensures status == NoEmbeddingsStatus ==>
              out.present == old(out.present) && out.index == old(out.index) && out.chunks == old(out.chunks)
    ensures status != NoEmbeddingsStatus ==>
              status == 0 && out.present &&
              out.index == Some(Outcome(names, ing).value.0) && out.chunks == Some(Outcome(names, ing).value.1)
    ensures out.manifest == old(out.manifest)
  {
    var docs := LoadDocs(names, ing.load);
    var chunks := ing.split(ChunkSize, ChunkOverlap, docs);
    var embeddings, texts := EmbedChunks(chunks, ing.embed);
    assert chunks == Chunks(names, ing);
    if embeddings == [] {
      return NoEmbeddingsStatus;
    }
    var index := new VectorIndex(|embeddings[0]|);
    index.Add(embeddings);
    assert index.vectors == embeddings;
    assert index.Saved() == Outcome(names, ing).value.0;
    out.present := true;
    out.index := Some(index.Saved());
    out.chunks := Some(texts);
    status := 0;
  }
}
