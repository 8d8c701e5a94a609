/**
 * The incremental ingester (`scripts/append.py`): find the input files with
 * an accepted suffix that the manifest does not list yet, load, split and
 * embed each, append its vectors and chunk texts to the saved index and chunk
 * list, and record its name in the manifest, which is written back sorted.
 * The input directory's listing is a parameter, in iteration order.
 */
module Append {
  import opened Common
  import opened Text
  import opened Store

  // ---------------------------------------------------------------------------
  // choosing the files

  /** `candidates`: the files whose lower-cased suffix is accepted, in listing order. */
  function Candidates(names: seq<string>): seq<string> {
    if names == [] then []
    else
      var n := names[|names| - 1];
      Candidates(names[..|names| - 1]) + (if Kind(n) in AppendKinds then [n] else [])
  }

  lemma {:induction false} CandidatesMembers(names: seq<string>)
    ensures forall n :: n in Candidates(names) <==> n in names && Kind(n) in AppendKinds
  {
    if names != [] {
      var init := names[..|names| - 1];
      CandidatesMembers(init);
      assert names == init + [names[|names| - 1]];
    }
  }

  /** `new_files`: the candidates the manifest does not list, in order. */
  function NewFiles(candidates: seq<string>, processed: set<string>): seq<string> {
    if candidates == [] then []
    else
      var n := candidates[|candidates| - 1];
      NewFiles(candidates[..|candidates| - 1], processed) + (if n !in processed then [n] else [])
  }

  lemma {:induction false} NewFilesMembers(candidates: seq<string>, processed: set<string>)
    ensures forall n :: n in NewFiles(candidates, processed) <==> n in candidates && n !in processed
  {
    if candidates != [] {
      var init := candidates[..|candidates| - 1];
      NewFilesMembers(init, processed);
      assert candidates == init + [candidates[|candidates| - 1]];
    }
  }

  /** With every candidate already listed, nothing is new. */
  lemma {:induction false} NewFilesEmpty(candidates: seq<string>, processed: set<string>)
    requires forall n :: n in candidates ==> n in processed
    ensures NewFiles(candidates, processed) == []
  {
    if candidates != [] {
      NewFilesEmpty(candidates[..|candidates| - 1], processed);
      assert candidates[|candidates| - 1] in candidates;
    }
  }

  /** The names the manifest lists, as a set; an absent manifest reads as empty. */
  function Processed(manifest: Option<seq<string>>): set<string> {
    if manifest.None? then {} else set n | n in manifest.value
  }

  /** The files a run works on, given the listing and the manifest. */
  function Pending(names: seq<string>, processed: set<string>): seq<string> {
    NewFiles(Candidates(names), processed)
  }

  /** A run works on exactly the listed files with an accepted suffix that the
      manifest does not name. */
  lemma PendingMembers(names: seq<string>, processed: set<string>)
    ensures forall n :: n in Pending(names, processed) <==> n in names && Kind(n) in AppendKinds && n !in processed
  {
    CandidatesMembers(names);
    NewFilesMembers(Candidates(names), processed);
  }

  /** Every file a run works on gets a loader, so the loop's "unsupported
      type" branch is never taken. */
  lemma PendingFilesHaveLoaders(names: seq<string>, processed: set<string>)
    ensures forall n :: n in Pending(names, processed) ==> AppendLoader(Kind(n)).Some?
  {
    PendingMembers(names, processed);
  }

  // ---------------------------------------------------------------------------
  // what one file yields

  /** The chunks of one new file, or None when it has no loader or its loader
      raised; such a file is skipped. */
  function FileChunks(name: string, ing: Ingestors): (r: Option<seq<string>>)
    ensures AppendLoader(Kind(name)).None? ==> r.None?
  {
    match AppendLoader(Kind(name))
    case None => None
    case Some(loader) =>
      match ing.load(loader, name)
      case None => None
      case Some(docs) => Some(ing.split(ChunkSize, ChunkOverlap, docs))
  }

  /** The chunk lists of the run's files, as a function value the lemmas
      below are stated over. */
  function ChunksOf(ing: Ingestors): string -> Option<seq<string>> {
    name => FileChunks(name, ing)
  }

  /** The chunk texts appended for `files`, in file and chunk order. */
  function NewChunks(files: seq<string>, chunksOf: string -> Option<seq<string>>): seq<string> {
    if files == [] then []
    else
      var n := files[|files| - 1];
      NewChunks(files[..|files| - 1], chunksOf) + (if chunksOf(n).Some? then chunksOf(n).value else [])
  }

  /** The names the loop adds to `processed`: the files that loaded. */
  function Ingested(files: seq<string>, chunksOf: string -> Option<seq<string>>): set<string> {
    if files == [] then {}
    else
      var n := files[|files| - 1];
      Ingested(files[..|files| - 1], chunksOf) + (if chunksOf(n).Some? then {n} else {})
  }

  /** The recorded names are exactly the files that loaded. */
  lemma {:induction false} IngestedMembers(files: seq<string>, chunksOf: string -> Option<seq<string>>)
    ensures forall n :: n in Ingested(files, chunksOf) <==> n in files && chunksOf(n).Some?
  {
    if files != [] {
      var init := files[..|files| - 1];
      IngestedMembers(init, chunksOf);
      assert files == init + [files[|files| - 1]];
    }
  }

  /** Every chunk can be embedded. */
  predicate AllEmbed(chunks: seq<string>, embed: string -> Option<Vec>) {
    forall c :: c in chunks ==> embed(c).Some?
  }

  /** When every chunk embeds, there is one vector per chunk, the chunk's own. */
  lemma {:induction false} EmbeddedOneEach(chunks: seq<string>, embed: string -> Option<Vec>)
    requires AllEmbed(chunks, embed)
    ensures |Embedded(chunks, embed)| == |chunks|
    ensures forall i :: 0 <= i < |chunks| ==> embed(chunks[i]) == Some(Embedded(chunks, embed)[i])
  {
    if chunks != [] {
      var init := chunks[..|chunks| - 1];
      assert forall c :: c in init ==> c in chunks;
      EmbeddedOneEach(init, embed);
      assert chunks[|chunks| - 1] in chunks;
      forall i | 0 <= i < |chunks|
        ensures embed(chunks[i]) == Some(Embedded(chunks, embed)[i])
      {
        if i < |init| {
          assert chunks[i] == init[i];
        }
      }
    }
  }

  /** Every chunk embeds exactly when no vector goes missing. */
  lemma {:induction false} AllEmbedIffComplete(chunks: seq<string>, embed: string -> Option<Vec>)
    ensures |Embedded(chunks, embed)| <= |chunks|
    ensures AllEmbed(chunks, embed) <==> |Embedded(chunks, embed)| == |chunks|
  {
    if chunks != [] {
      var init := chunks[..|chunks| - 1];
      var c := chunks[|chunks| - 1];
      AllEmbedIffComplete(init, embed);
      assert chunks == init + [c];
      assert forall x :: x in chunks <==> x in init || x == c;
    }
  }

  /** Processing one more file appends its chunks and records its name, if
      it loaded, and changes nothing otherwise. */
  lemma AppendOne(done: seq<string>, name: string, chunksOf: string -> Option<seq<string>>)
    ensures NewChunks(done + [name], chunksOf) ==
            NewChunks(done, chunksOf) + (if chunksOf(name).Some? then chunksOf(name).value else [])
    ensures Ingested(done + [name], chunksOf) == Ingested(done, chunksOf) + (if chunksOf(name).Some? then {name} else {})
  {
    assert (done + [name])[..|done|] == done;
  }

  /** The chunks of a listing are those of its parts, in order. */
  lemma {:induction false} NewChunksAppend(a: seq<string>, b: seq<string>, chunksOf: string -> Option<seq<string>>)
    ensures NewChunks(a + b, chunksOf) == NewChunks(a, chunksOf) + NewChunks(b, chunksOf)
    decreases |b|
  {
    if b == [] {
      assert a + b == a;
    } else {
      var b' := b[..|b| - 1];
      assert (a + b)[..|a + b| - 1] == a + b';
      assert (a + b)[|a + b| - 1] == b[|b| - 1];
      NewChunksAppend(a, b', chunksOf);
    }
  }

  /** The chunks of the files processed so far all come from the run's files. */
  lemma NewChunksPrefix(files: seq<string>, i: nat, chunksOf: string -> Option<seq<string>>)
    requires i <= |files|
    ensures forall c :: c in NewChunks(files[..i], chunksOf) ==> c in NewChunks(files, chunksOf)
  {
    assert files == files[..i] + files[i..];
    NewChunksAppend(files[..i], files[i..], chunksOf);
  }

  // ---------------------------------------------------------------------------
  // what a rerun sees

  /** After a run that appended, a second run over the same listing finds
      only the files that failed to load. */
  lemma SecondRunFindsOnlyFailures(names: seq<string>, processed: set<string>, chunksOf: string -> Option<seq<string>>)
    ensures var pending := Pending(names, processed);
            forall n :: n in Pending(names, processed + Ingested(pending, chunksOf)) <==>
                          n in pending && chunksOf(n).None?
  {
    PendingMembers(names, processed);
    PendingMembers(names, processed + Ingested(Pending(names, processed), chunksOf));
    IngestedMembers(Pending(names, processed), chunksOf);
  }

  /** If every file loaded, a second run has nothing to do. */
  lemma SecondRunIsEmpty(names: seq<string>, processed: set<string>, chunksOf: string -> Option<seq<string>>)
    requires forall n :: n in Pending(names, processed) ==> chunksOf(n).Some?
    ensures Pending(names, processed + Ingested(Pending(names, processed), chunksOf)) == []
  {
    PendingMembers(names, processed);
    CandidatesMembers(names);
    IngestedMembers(Pending(names, processed), chunksOf);
    NewFilesEmpty(Candidates(names), processed + Ingested(Pending(names, processed), chunksOf));
  }

  /** A file whose loader raised is not recorded, so the next run retries it. */
  lemma FailedLoadRetried(names: seq<string>, processed: set<string>, chunksOf: string -> Option<seq<string>>, n: string)
    requires n in Pending(names, processed) && chunksOf(n).None?
    ensures n in Pending(names, processed + Ingested(Pending(names, processed), chunksOf))
  {
    PendingMembers(names, processed);
    PendingMembers(names, processed + Ingested(Pending(names, processed), chunksOf));
    IngestedMembers(Pending(names, processed), chunksOf);
  }

  // ---------------------------------------------------------------------------
  // the sorted manifest

  /** Inserts a new name into a strictly sorted list, keeping it strictly sorted. */
  function Insert(s: seq<string>, x: string): (r: seq<string>)
    requires StrictlySorted(s) && x !in s
    ensures StrictlySorted(r)
    ensures |r| == |s| + 1
    ensures forall y :: y in r <==> y in s || y == x
  {
    if s == [] then [x]
    else if Less(x, s[0]) then
      assert forall j :: 0 < j < |s| ==> Less(x, s[j]) by {
        forall j | 0 < j < |s| {
          LessTransitive(x, s[0], s[j]);
        }
      }
      [x] + s
    else
      LessTotal(x, s[0]);
      var rest := Insert(s[1..], x);
      forall y | y in rest
        ensures Less(s[0], y)
      {
        assert y in s[1..] || y == x;
      }
      [s[0]] + rest
  }

  /** `sorted(processed)`: the names in code-point order, each once. */
  method SortedNames(names: set<string>) returns (r: seq<string>)
    ensures StrictlySorted(r)
    ensures forall y :: y in r <==> y in names
    ensures |r| == |names|
  {
    r := [];
    var rest := names;
    while rest != {}
      invariant StrictlySorted(r)
      invariant forall y :: y in names <==> y in r || y in rest
      invariant forall y :: y in r ==> y !in rest
      invariant |r| + |rest| == |names|
      decreases |rest|
    {
      var x :| x in rest;
      r := Insert(r, x);
      rest := rest - {x};
    }
  }

  // ---------------------------------------------------------------------------
  // the whole run

  /** How a run ends: "No new files" (exit 0), the RuntimeError for a missing
      index or chunk file, an embedding error escaping the loop, or the
      summary line with the new-file and new-chunk counts. */
  datatype AppendOutcome = NoNewFiles | StoreMissing | EmbeddingRaised | Appended(files: nat, chunks: nat)

  /** The manifest after step 4: an absent one is created as an empty list. */
  function CreatedManifest(manifest: Option<seq<string>>): (r: Option<seq<string>>)
    ensures r.Some? && Processed(r) == Processed(manifest)
  {
    if manifest.None? then Some([]) else manifest
  }

  /** The inner loop for one file's chunks: embed each, appending its text
      to `texts` and its vector to `embeddings`, until an embedding raises. */
  method EmbedFileChunks(chunks: seq<string>, embed: string -> Option<Vec>, texts: seq<string>)
    returns (embeddings: seq<Vec>, texts': seq<string>, raised: bool)
    ensures raised <==> !AllEmbed(chunks, embed)
    ensures !raised ==> embeddings == Embedded(chunks, embed) && texts' == texts + chunks
  {
    embeddings, texts' := [], texts;
    for j := 0 to |chunks|
      invariant AllEmbed(chunks[..j], embed)
      invariant embeddings == Embedded(chunks[..j], embed)
      invariant texts' == texts + chunks[..j]
    {
      assert chunks[..j + 1] == chunks[..j] + [chunks[j]];
      var resp := embed(chunks[j]);
      if resp.None? {
        assert chunks[j] in chunks;
        return embeddings, texts', true;
      }
      embeddings := embeddings + [resp.value];
      texts' := texts' + [chunks[j]];
    }
    assert chunks[..|chunks|] == chunks;
    raised := false;
  }

  /** The body of step 9 for one file: pick its loader, load, split, then
      embed and append its chunks and add their vectors to the index.
      `loaded` says whether the file's name is to be recorded. */
  method IngestFile(name: string, ing: Ingestors, index: VectorIndex, texts: seq<string>)
    returns (texts': seq<string>, loaded: bool, chunkCount: nat, raised: bool)
    modifies index
    ensures loaded <==> FileChunks(name, ing).Some?
    ensures !loaded ==> !raised && texts' == texts && index.vectors == old(index.vectors) && chunkCount == 0
    ensures loaded ==>
              var chunks := FileChunks(name, ing).value;
              chunkCount == |chunks| &&
              (raised <==> !AllEmbed(chunks, ing.embed)) &&
              (!raised ==> texts' == texts + chunks && index.vectors == old(index.vectors) + Embedded(chunks, ing.embed))
  {
    texts', loaded, chunkCount, raised := texts, false, 0, false;
    var loader := AppendLoader(Kind(name));
    if loader.None? {
      return;
    }
    var docs := ing.load(loader.value, name);
    if docs.None? {
      return;
    }
    var chunks := ing.split(ChunkSize, ChunkOverlap, docs.value);
    chunkCount := |chunks|;
    var embeddings;
    embeddings, texts', raised := EmbedFileChunks(chunks, ing.embed, texts);
    loaded := true;
    if raised {
      return;
    }
    index.Add(embeddings);
  }

  /** The loop's accumulators after the files `done`: the chunks of those
      that loaded all embedded, their texts and vectors appended behind the
      saved ones, their names recorded, and their chunks counted. */
  ghost predicate Progress(done: seq<string>, chunksOf: string -> Option<seq<string>>, embed: string -> Option<Vec>,
                           texts0: seq<string>, vectors0: seq<Vec>, processed0: set<string>,
                           texts: seq<string>, vectors: seq<Vec>, processed: set<string>, total: nat)
  {
    var added := NewChunks(done, chunksOf);
    texts == texts0 + added && vectors == vectors0 + Embedded(added, embed) && |Embedded(added, embed)| == |added| &&
    processed == processed0 + Ingested(done, chunksOf) && total == |added|
  }

  /** A skipped file leaves the accumulators as they were. */
  lemma ProgressSkip(done: seq<string>, name: string, chunksOf: string -> Option<seq<string>>, embed: string -> Option<Vec>,
                     texts0: seq<string>, vectors0: seq<Vec>, processed0: set<string>,
                     texts: seq<string>, vectors: seq<Vec>, processed: set<string>, total: nat)
    requires Progress(done, chunksOf, embed, texts0, vectors0, processed0, texts, vectors, processed, total)
    requires chunksOf(name).None?
    ensures Progress(done + [name], chunksOf, embed, texts0, vectors0, processed0, texts, vectors, processed, total)
  {
    var added := NewChunks(done, chunksOf);
    AppendOne(done, name, chunksOf);
    assert added + [] == added;
    assert NewChunks(done + [name], chunksOf) == added;
    assert Ingested(done + [name], chunksOf) == Ingested(done, chunksOf);
  }

  /** A loaded file whose chunks all embed extends every accumulator. */
  lemma ProgressLoad(done: seq<string>, name: string, chunks: seq<string>,
                     chunksOf: string -> Option<seq<string>>, embed: string -> Option<Vec>,
                     texts0: seq<string>, vectors0: seq<Vec>, processed0: set<string>,
                     texts: seq<string>, vectors: seq<Vec>, processed: set<string>, total: nat)
    requires Progress(done, chunksOf, embed, texts0, vectors0, processed0, texts, vectors, processed, total)
    requires chunksOf(name) == Some(chunks) && |Embedded(chunks, embed)| == |chunks|
    ensures Progress(done + [name], chunksOf, embed, texts0, vectors0, processed0,
                     texts + chunks, vectors + Embedded(chunks, embed), processed + {name}, total + |chunks|)
  {
    var before := NewChunks(done, chunksOf);
    var after := NewChunks(done + [name], chunksOf);
    AppendOne(done, name, chunksOf);
    assert after == before + chunks;
    assert texts + chunks == texts0 + after;
    EmbeddedAppend(before, chunks, embed);
    assert vectors + Embedded(chunks, embed) == vectors0 + Embedded(after, embed);
    assert |Embedded(after, embed)| == |after|;
    assert processed + {name} == processed0 + Ingested(done + [name], chunksOf);
  }

  /** An embedding that fails in a file being processed fails for the run's files. */
  lemma FailureInRun(files: seq<string>, i: nat, chunksOf: string -> Option<seq<string>>, embed: string -> Option<Vec>)
    requires i < |files| && chunksOf(files[i]).Some? && !AllEmbed(chunksOf(files[i]).value, embed)
    ensures !AllEmbed(NewChunks(files, chunksOf), embed)
  {
    assert files[..i + 1] == files[..i] + [files[i]];
    AppendOne(files[..i], files[i], chunksOf);
    NewChunksPrefix(files, i + 1, chunksOf);
  }

  /** One pass of step 9's loop, on `files[i]`: either an embedding raised,
      which fails the run, or the accumulators have grown by that file. */
  method IngestStep(files: seq<string>, i: nat, ing: Ingestors, index: VectorIndex,
                    texts0: seq<string>, ghost vectors0: seq<Vec>, processed0: set<string>,
                    texts: seq<string>, processed: set<string>, total: nat)
    returns (texts': seq<string>, processed': set<string>, total': nat, raised: bool)
    requires i < |files|
    requires Progress(files[..i], ChunksOf(ing), ing.embed, texts0, vectors0, processed0, texts, index.vectors, processed, total)
    modifies index
    ensures raised ==> !AllEmbed(NewChunks(files, ChunksOf(ing)), ing.embed)
    ensures !raised ==>
              Progress(files[..i + 1], ChunksOf(ing), ing.embed, texts0, vectors0, processed0, texts', index.vectors, processed', total')
  {
    ghost var chunksOf := ChunksOf(ing);
    ghost var vectorsBefore := index.vectors;
    var loaded, count;
    texts', loaded, count, raised := IngestFile(files[i], ing, index, texts);
    assert chunksOf(files[i]) == FileChunks(files[i], ing);
    assert files[..i + 1] == files[..i] + [files[i]];
    processed', total' := processed, total + count;
    if raised {
      FailureInRun(files, i, chunksOf, ing.embed);
    } else if loaded {
      AllEmbedIffComplete(chunksOf(files[i]).value, ing.embed);
      ProgressLoad(files[..i], files[i], chunksOf(files[i]).value, chunksOf, ing.embed, texts0, vectors0, processed0,
                   texts, vectorsBefore, processed, total);
      processed' := processed + {files[i]};
    } else {
      ProgressSkip(files[..i], files[i], chunksOf, ing.embed, texts0, vectors0, processed0,
                   texts', index.vectors, processed', total');
    }
  }

  /** Step 9, the loop over the new files: a file that has no loader or
      whose loader raises is skipped; the others have their chunks' vectors
      added to the index, their texts appended, and their names recorded. */
  method IngestFiles(files: seq<string>, ing: Ingestors, index: VectorIndex, texts: seq<string>, processed: set<string>)
    returns (texts': seq<string>, processed': set<string>, total: nat, raised: bool)
    modifies index
    ensures raised <==> !AllEmbed(NewChunks(files, ChunksOf(ing)), ing.embed)
    ensures !raised ==>
              texts' == texts + NewChunks(files, ChunksOf(ing)) &&
              index.vectors == old(index.vectors) + Embedded(NewChunks(files, ChunksOf(ing)), ing.embed) &&
              processed' == processed + Ingested(files, ChunksOf(ing)) &&
              total == |NewChunks(files, ChunksOf(ing))|
  {
    ghost var vectors0 := index.vectors;
    texts', processed', total := texts, processed, 0;
    assert files[..0] == [];
    for i := 0 to |files|
      invariant Progress(files[..i], ChunksOf(ing), ing.embed, texts, vectors0, processed, texts', index.vectors, processed', total)
    {
      texts', processed', total, raised := IngestStep(files, i, ing, index, texts, vectors0, processed, texts', processed', total);
      if raised {
        return;
      }
    }
    assert files[..|files|] == files;
    AllEmbedIffComplete(NewChunks(files, ChunksOf(ing)), ing.embed);
    raised := false;
  }

  /** Appending keeps the saved index and chunk list aligned: the gap between
      their lengths is unchanged, and each new vector is the embedding of the
      text appended with it. */
  lemma AppendedStaysAligned(vectors: seq<Vec>, texts: seq<string>, added: seq<string>, embed: string -> Option<Vec>)
    requires AllEmbed(added, embed)
    ensures |vectors + Embedded(added, embed)| - |texts + added| == |vectors| - |texts|
    ensures var texts', vectors' := texts + added, vectors + Embedded(added, embed);
            forall k :: |texts| <= k < |texts'| ==> embed(texts'[k]) == Some(vectors'[|vectors| + k - |texts|])
  {
    EmbeddedOneEach(added, embed);
  }

  /** Steps 7 to 11, once there are new files: read the saved index and chunk
      list (raising if either is missing), run the loop, and return the
      index, the chunk list and the manifest, sorted, that are to be saved. */
  method AppendNewFiles(newFiles: seq<string>, processed: set<string>, ing: Ingestors,
                        savedIndex: Option<IndexFile>, savedChunks: Option<seq<string>>)
    returns (outcome: AppendOutcome, index': IndexFile, chunks': seq<string>, manifest': seq<string>)
    requires newFiles != []
    ensures outcome == StoreMissing <==> savedIndex.None? || savedChunks.None?
    ensures outcome == EmbeddingRaised <==>
              savedIndex.Some? && savedChunks.Some? && !AllEmbed(NewChunks(newFiles, ChunksOf(ing)), ing.embed)
    ensures outcome != NoNewFiles
    ensures outcome.Appended? ==>
              var added := NewChunks(newFiles, ChunksOf(ing));
              AllEmbed(added, ing.embed) &&
              outcome == Appended(|newFiles|, |added|) &&
              savedChunks.Some? && chunks' == savedChunks.value + added &&
              savedIndex.Some? &&
              index' == IndexFile(savedIndex.value.dim, savedIndex.value.vectors + Embedded(added, ing.embed)) &&
              StrictlySorted(manifest') &&
              Processed(Some(manifest')) == processed + Ingested(newFiles, ChunksOf(ing))
  {
    index', chunks', manifest' := IndexFile(0, []), [], [];
    // 7) the saved index and chunk list
    if savedIndex.None? || savedChunks.None? {
      return StoreMissing, index', chunks', manifest';
    }
    var index := new VectorIndex.Read(savedIndex.value);
    // 9) each new file
    var texts, processed', total, raised := IngestFiles(newFiles, ing, index, savedChunks.value, processed);
    if raised {
      return EmbeddingRaised, index', chunks', manifest';
    }
    // 10) the index and the chunk list to save
    index', chunks' := index.Saved(), texts;
    // 11) the manifest, sorted
    manifest' := SortedNames(processed');
    assert Processed(Some(manifest')) == processed';
    outcome := Appended(|newFiles|, total);
  }

  /** The whole script against the output directory. */
  method Append(names: seq<string>, ing: Ingestors, out: OutputDir) returns (outcome: AppendOutcome)
    modifies out
    ensures out.present
    ensures var pending := Pending(names, Processed(old(out.manifest)));
            outcome == NoNewFiles <==> pending == []
    ensures var pending := Pending(names, Processed(old(out.manifest)));
            outcome == StoreMissing <==> pending != [] && (old(out.index).None? || old(out.chunks).None?)
    ensures var pending := Pending(names, Processed(old(out.manifest)));
            outcome == EmbeddingRaised <==>
              pending != [] && old(out.index).Some? && old(out.chunks).Some? &&
              !AllEmbed(NewChunks(pending, ChunksOf(ing)), ing.embed)
    ensures !outcome.Appended? ==>
              out.index == old(out.index) && out.chunks == old(out.chunks) &&
              out.manifest == CreatedManifest(old(out.manifest))
    ensures outcome.Appended? ==>
              var processed := Processed(old(out.manifest));
              var pending := Pending(names, processed);
              var added := NewChunks(pending, ChunksOf(ing));
              AllEmbed(added, ing.embed) &&
              outcome == Appended(|pending|, |added|) &&
              old(out.chunks).Some? && out.chunks == Some(old(out.chunks).value + added) &&
              old(out.index).Some? &&
              out.index == Some(IndexFile(old(out.index).value.dim, old(out.index).value.vectors + Embedded(added, ing.embed))) &&
              out.manifest.Some? && StrictlySorted(out.manifest.value) &&
              Processed(out.manifest) == processed + Ingested(pending, ChunksOf(ing))
  {
    // 4) ensure the output directory and the manifest exist
    out.present := true;
    out.manifest := CreatedManifest(out.manifest);
    // 5), 6) the processed names and the files to work on
    var processed := Processed(out.manifest);
    var newFiles := NewFiles(Candidates(names), processed);
    if newFiles == [] {
      return NoNewFiles;
    }
    var index, chunks, manifest;
    outcome, index, chunks, manifest := AppendNewFiles(newFiles, processed, ing, out.index, out.chunks);
    if outcome.Appended? {
      out.index := Some(index);
      out.chunks := Some(chunks);
      out.manifest := Some(manifest);
    }
  }
}
