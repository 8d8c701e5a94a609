/**
 * What the two ingestion scripts (`scripts/build_index.py`,
 * `scripts/append.py`) share: file suffixes and the loader each script picks
 * for them, the in-memory vector index, the files in the output directory,
 * and the ingestion services (loaders, splitter, embedder) as function values.
 */
module Store {
  import opened Common
  import opened Text

  // ---------------------------------------------------------------------------
  // file suffixes

  /** The position of the last '.' in `s`, as `str.rfind('.')` finds it. */
  function LastDot(s: string): Option<nat> {
    if s == [] then None
    else if s[|s| - 1] == '.' then Some(|s| - 1)
    else LastDot(s[..|s| - 1])
  }

  /** `LastDot` finds a dot exactly when there is one, and no dot follows it. */
  lemma {:induction false} LastDotFinds(s: string)
    ensures LastDot(s).None? <==> '.' !in s
    ensures LastDot(s).Some? ==> LastDot(s).value < |s| && s[LastDot(s).value] == '.' && '.' !in s[LastDot(s).value + 1..]
  {
    if s != [] && s[|s| - 1] != '.' {
      var init := s[..|s| - 1];
      LastDotFinds(init);
      assert s == init + [s[|s| - 1]];
      if LastDot(init).Some? {
        assert s[LastDot(init).value + 1..] == init[LastDot(init).value + 1..] + [s[|s| - 1]];
      }
    }
  }

  /** `Path.suffix` of a file name: from the last dot on, unless that dot
      is the name's first or last character. */
  function Suffix(name: string): string {
    match LastDot(name)
    case None => ""
    case Some(i) => if 0 < i < |name| - 1 then name[i..] else ""
  }

  /** A suffix is a dot followed by at least one character and no other dot,
      ending the name and shorter than it; there is none exactly when the name
      has no dot, or its last dot starts or ends it. */
  lemma SuffixShape(name: string)
    ensures var r := Suffix(name);
            r == "" || (|r| >= 2 && r[0] == '.' && '.' !in r[1..] && |r| < |name| && EndsWith(name, r))
    ensures Suffix(name) == "" <==> LastDot(name).None? || LastDot(name).value == 0 || LastDot(name).value == |name| - 1
  {
    LastDotFinds(name);
    if LastDot(name).Some? {
      var i := LastDot(name).value;
      assert name[i..][1..] == name[i + 1..];
    }
  }

  /** A name made of a stem, a dot and an extension without dots has that
      extension as its suffix. */
  lemma SuffixOfExtension(stem: string, ext: string)
    requires stem != "" && ext != "" && '.' !in ext
    ensures Suffix(stem + "." + ext) == "." + ext
  {
    var name := stem + "." + ext;
    LastDotFinds(name);
    assert name[|stem|] == '.' && name[|stem| + 1..] == ext;
    var v := LastDot(name).value;
    assert !(v < |stem|);
    assert !(v > |stem|);
    assert name[|stem|..] == "." + ext;
  }

  /** A name whose only dot is its first character (a hidden file) has no suffix. */
  lemma HiddenFileHasNoSuffix(rest: string)
    requires '.' !in rest
    ensures Suffix("." + rest) == ""
  {
    var name := "." + rest;
    LastDotFinds(name);
    assert name[1..] == rest;
  }

  /** The suffix as both scripts compare it: `file_path.suffix.lower()`. */
  function Kind(name: string): string {
    Lower(Suffix(name))
  }

  // ---------------------------------------------------------------------------
  // loaders

  /** The document loaders the scripts construct. */
  datatype Loader = PdfLoader | HtmlLoader | DocxLoader | TextLoader | CsvLoader

  const BuildKinds: set<string> := {".pdf", ".html", ".htm", ".docx", ".txt", ".md"}
  const AppendKinds: set<string> := {".pdf", ".docx", ".doc", ".csv"}

  /** The loader `build_index.py` picks for a lower-cased suffix, or None for
      "Skipping unsupported type". */
  function BuildLoader(kind: string): (r: Option<Loader>)
    ensures r.Some? <==> kind in BuildKinds
    ensures r == Some(PdfLoader) <==> kind == ".pdf"
    ensures r == Some(HtmlLoader) <==> kind == ".html" || kind == ".htm"
    ensures r == Some(DocxLoader) <==> kind == ".docx"
    ensures r == Some(TextLoader) <==> kind == ".txt" || kind == ".md"
    ensures r != Some(CsvLoader)
  {
    if kind == ".pdf" then Some(PdfLoader)
    else if kind in {".html", ".htm"} then Some(HtmlLoader)
    else if kind == ".docx" then Some(DocxLoader)
    else if kind in {".txt", ".md"} then Some(TextLoader)
    else None
  }

  /** The loader `append.py` picks for a lower-cased suffix, or None for
      "Skipping unsupported type". */
  function AppendLoader(kind: string): (r: Option<Loader>)
    ensures r.Some? <==> kind in AppendKinds
    ensures r == Some(PdfLoader) <==> kind == ".pdf"
    ensures r == Some(DocxLoader) <==> kind == ".docx" || kind == ".doc"
    ensures r == Some(CsvLoader) <==> kind == ".csv"
    ensures r != Some(HtmlLoader) && r != Some(TextLoader)
  {
    if kind == ".pdf" then Some(PdfLoader)
    else if kind in {".docx", ".doc"} then Some(DocxLoader)
    else if kind == ".csv" then Some(CsvLoader)
    else None
  }

  /** The two scripts disagree: `.doc` and `.csv` files are appended but
      never built, HTML, text and Markdown files are built but never appended. */
  lemma ScriptsAcceptDifferentKinds()
    ensures BuildLoader(".doc").None? && AppendLoader(".doc") == Some(DocxLoader)
    ensures BuildLoader(".csv").None? && AppendLoader(".csv") == Some(CsvLoader)
    ensures forall k :: k in {".html", ".htm", ".txt", ".md"} ==> BuildLoader(k).Some? && AppendLoader(k).None?
    ensures BuildKinds * AppendKinds == {".pdf", ".docx"}
  {
  }

  // ---------------------------------------------------------------------------
  // the services ingestion calls

  /** Both scripts split with `chunk_size=500, chunk_overlap=100`. */
  const ChunkSize: nat := 500
  const ChunkOverlap: nat := 100

  /** - load: run a loader on a file (None: it raised); the page texts
      - split: the text splitter, given chunk size, overlap and page texts
      - embed: the embeddings API (None: the call raised) */
  datatype Ingestors = Ingestors(
    load: (Loader, string) -> Option<seq<string>>,
    split: (nat, nat, seq<string>) -> seq<string>,
    embed: string -> Option<Vec>)

  // ---------------------------------------------------------------------------
  // per-file accumulation

  /** What each file of `names` contributes, concatenated in listing order. */
  function Gather(names: seq<string>, pages: string -> seq<string>): seq<string> {
    if names == [] then []
    else Gather(names[..|names| - 1], pages) + pages(names[|names| - 1])
  }

  /** Gathering is file by file: a listing contributes what its parts do, in order. */
  lemma {:induction false} GatherAppend(a: seq<string>, b: seq<string>, pages: string -> seq<string>)
    ensures Gather(a + b, pages) == Gather(a, pages) + Gather(b, pages)
    decreases |b|
  {
    if b == [] {
      assert a + b == a;
    } else {
      var b', x := b[..|b| - 1], b[|b| - 1];
      assert (a + b)[..|a + b| - 1] == a + b';
      assert (a + b)[|a + b| - 1] == x;
      GatherAppend(a, b', pages);
      calc {
        Gather(a + b, pages);
        Gather(a + b', pages) + pages(x);
        (Gather(a, pages) + Gather(b', pages)) + pages(x);
        Gather(a, pages) + (Gather(b', pages) + pages(x));
        Gather(a, pages) + Gather(b, pages);
      }
    }
  }

  /** One more file adds its own contribution at the end. */
  lemma GatherStep(names: seq<string>, i: nat, pages: string -> seq<string>)
    requires i < |names|
    ensures Gather(names[..i + 1], pages) == Gather(names[..i], pages) + pages(names[i])
  {
    assert names[..i + 1][..i] == names[..i];
  }

  /** The vectors of the chunks whose embedding succeeds, in chunk order. */
  function Embedded(chunks: seq<string>, embed: string -> Option<Vec>): seq<Vec> {
    if chunks == [] then []
    else
      var c := chunks[|chunks| - 1];
      Embedded(chunks[..|chunks| - 1], embed) + (if embed(c).Some? then [embed(c).value] else [])
  }

  /** Embedding is chunk by chunk: a list yields what its parts do, in order. */
  lemma {:induction false} EmbeddedAppend(a: seq<string>, b: seq<string>, embed: string -> Option<Vec>)
    ensures Embedded(a + b, embed) == Embedded(a, embed) + Embedded(b, embed)
    decreases |b|
  {
    if b == [] {
      assert a + b == a;
    } else {
      var b' := b[..|b| - 1];
      assert (a + b)[..|a + b| - 1] == a + b';
      assert (a + b)[|a + b| - 1] == b[|b| - 1];
      EmbeddedAppend(a, b', embed);
    }
  }

  // ---------------------------------------------------------------------------
  // the index and the output directory

  /** What `faiss.write_index` stores: the dimension and the vectors in
      insertion order, so that id i is the i-th vector added. */
  datatype IndexFile = IndexFile(dim: nat, vectors: seq<Vec>)

  /** The flat index in memory; `add` appends vectors behind the existing ones. */
  class VectorIndex {
    const dim: nat
    var vectors: seq<Vec>

    /** `faiss.IndexFlatL2(dim)` */
    constructor (dim: nat)
      ensures this.dim == dim && vectors == []
    {
      this.dim := dim;
      vectors := [];
    }

    /** `faiss.read_index(path)` */
    constructor Read(file: IndexFile)
      ensures dim == file.dim && vectors == file.vectors
    {
      dim := file.dim;
      vectors := file.vectors;
    }

    /** `index.add(batch)` */
    method Add(batch: seq<Vec>)
      modifies this
      ensures vectors == old(vectors) + batch
    {
      vectors := vectors + batch;
    }

    /** What `faiss.write_index(index, path)` saves. */
    function Saved(): IndexFile
      reads this
    {
      IndexFile(dim, vectors)
    }
  }

  /** The `output/` directory: whether it exists and the three files the
      scripts read and write there (None: the file does not exist). */
  class OutputDir {
    var present: bool
    var index: Option<IndexFile>          // revops_index.faiss
    var chunks: Option<seq<string>>       // revops_chunks.pkl
    var manifest: Option<seq<string>>     // processed_files.json
  }
}
