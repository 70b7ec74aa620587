/**
 * app/rag/ingest.py: word chunking (`chunk_text`), chunk ingestion into the vector store
 * (`ingest_text`), one file (`ingest_file`) and one directory (`ingest_directory`).
 * The file system, the embedding call and the UUID source form an environment `Env`.
 * As written, `ingest_text` and `ingest_directory` return from inside their loops; the
 * `...AsWritten` methods model that, and the rest of the model uses the corrected
 * loops (see README "Findings").
 */
module Ingest {
  import opened Wrappers
  import Text
  import Seqs
  import VectorIndex

  const DefaultChunkSize: int := 500
  const DefaultGlobExt: Option<string> := Some(".txt")

  /** `range(0, n, 0)` raises. */
  const ZeroStep := Error(ValueError, "range() arg 3 must not be zero")

  /** A directory entry from `os.scandir`. */
  datatype Entry = Entry(name: string, path: string, isFile: bool)

  /**
   * What ingestion sees of the outside world: the embedding of a chunk (written
   * `gemini_client.embed(chunk)`), the id given to the chunk at a position (`uuid4`),
   * the existing paths (`os.path.exists`), each with what `open(path).read()` gives it:
   * the UTF-8 text, or the error the open or the read raises (`IsADirectoryError`,
   * `UnicodeDecodeError`, ...), and the directories with their entries.
   */
  datatype Env = Env(
    embed: string -> seq<real>,
    newId: nat -> string,
    files: map<string, Result<string>>,
    listing: map<string, seq<Entry>>)

  // ---------------------------------------------------------------- chunk_text

  /** The slices `words[i : i + size]` for `i` in `range(0, len(words), size)`. */
  function Groups(words: seq<string>, size: nat): seq<seq<string>>
    requires size >= 1
    decreases |words|
  {
    if words == [] then []
    else if |words| <= size then [words]
    else [words[..size]] + Groups(words[size..], size)
  }

  /** The groups, concatenated, are the words again. */
  lemma {:induction false} GroupsFlatten(words: seq<string>, size: nat)
    requires size >= 1
    ensures Seqs.Flatten(Groups(words, size)) == words
    decreases |words|
  {
    if |words| > size {
      GroupsFlatten(words[size..], size);
      var r := Groups(words, size);
      assert r[1..] == Groups(words[size..], size);
      assert words[..size] + words[size..] == words;
    }
  }

  /** ceil(n / size) groups, each of 1 to `size` words, all but the last exactly `size`. */
  lemma {:induction false} GroupsSizes(words: seq<string>, size: nat)
    requires size >= 1
    ensures var r := Groups(words, size);
      && (words != [] ==> (|r| - 1) * size < |words| <= |r| * size)
      && (forall k :: 0 <= k < |r| ==> 1 <= |r[k]| <= size)
      && (forall k :: 0 <= k < |r| - 1 ==> |r[k]| == size)
    decreases |words|
  {
    if |words| > size {
      GroupsSizes(words[size..], size);
      var r := Groups(words, size);
      var rest := Groups(words[size..], size);
      assert r[1..] == rest;
      assert |r| * size == |rest| * size + size;
      forall k | 1 <= k < |r| ensures r[k] == rest[k - 1] { }
    }
  }

  /** Every word of every group is one of the words. */
  lemma {:induction false} GroupsMembers(words: seq<string>, size: nat)
    requires size >= 1
    ensures forall k, j :: 0 <= k < |Groups(words, size)| && 0 <= j < |Groups(words, size)[k]| ==> Groups(words, size)[k][j] in words
    decreases |words|
  {
    if |words| > size {
      GroupsMembers(words[size..], size);
      var r := Groups(words, size);
      var rest := Groups(words[size..], size);
      forall k, j | 0 <= k < |r| && 0 <= j < |r[k]| ensures r[k][j] in words {
        if k > 0 {
          assert r[1..] == rest;
          assert r[k] == rest[k - 1];
          assert 0 <= k - 1 < |rest| && 0 <= j < |rest[k - 1]|;
          assert rest[k - 1][j] in words[size..];
          var m :| 0 <= m < |words[size..]| && words[size..][m] == r[k][j];
          assert words[m + size] == r[k][j];
        }
      }
    }
  }

  /** The words of each chunk. */
  function WordsOf(chunks: seq<string>): seq<seq<string>> {
    seq(|chunks|, k requires 0 <= k < |chunks| => Text.Words(chunks[k]))
  }

  /** `list(chunk_text(text, chunk_size))`. */
  function ChunkText(text: string, chunkSize: int): Result<seq<string>> {
    var words := Text.Words(text);
    if words == [] then Ok([])
    else if chunkSize == 0 then Err(ZeroStep)
    else if chunkSize < 0 then Ok([])
    else
      var groups := Groups(words, chunkSize);
      Ok(seq(|groups|, k requires 0 <= k < |groups| => Text.Join(groups[k], " ")))
  }

  /** Each chunk's words are its group. */
  lemma ChunkWords(text: string, chunkSize: int)
    requires chunkSize >= 1 && Text.Words(text) != []
    ensures WordsOf(ChunkText(text, chunkSize).value) == Groups(Text.Words(text), chunkSize)
  {
    var words := Text.Words(text);
    var groups := Groups(words, chunkSize);
    var chunks := ChunkText(text, chunkSize).value;
    GroupsMembers(words, chunkSize);
    GroupsSizes(words, chunkSize);
    forall k | 0 <= k < |groups| ensures Text.Words(chunks[k]) == groups[k] {
      assert forall j :: 0 <= j < |groups[k]| ==> groups[k][j] in words;
      Text.WordsOfJoin(groups[k]);
    }
  }

  /**
   * Nothing when the text has no words; a zero step raises; a negative step yields nothing.
   * Otherwise the chunks' words, concatenated, are exactly `text.split()`; there are
   * ceil(n / chunk_size) chunks, each of 1 to `chunk_size` words and all but the last
   * exactly `chunk_size`.
   */
  lemma ChunkTextSpec(text: string, chunkSize: int)
    ensures var r := ChunkText(text, chunkSize);
      && (Text.Words(text) == [] ==> r == Ok([]))
      && (Text.Words(text) != [] && chunkSize == 0 ==> r == Err(ZeroStep))
      && (Text.Words(text) != [] && chunkSize < 0 ==> r == Ok([]))
      && (chunkSize >= 1 ==> r.Ok? && Seqs.Flatten(WordsOf(r.value)) == Text.Words(text))
      && (chunkSize >= 1 && Text.Words(text) != [] ==>
            (|r.value| - 1) * chunkSize < |Text.Words(text)| <= |r.value| * chunkSize)
      && (chunkSize >= 1 ==> forall k :: 0 <= k < |r.value| ==> 1 <= |Text.Words(r.value[k])| <= chunkSize)
      && (chunkSize >= 1 ==> forall k :: 0 <= k < |r.value| - 1 ==> |Text.Words(r.value[k])| == chunkSize)
  {
    if Text.Words(text) == [] {
      assert WordsOf([]) == [];
    } else if chunkSize >= 1 {
      ChunksOfWords(text, chunkSize);
    }
  }

  /** The chunks of a text with words, split at a positive size. */
  lemma ChunksOfWords(text: string, chunkSize: int)
    requires chunkSize >= 1 && Text.Words(text) != []
    ensures var r := ChunkText(text, chunkSize).value;
      && Seqs.Flatten(WordsOf(r)) == Text.Words(text)
      && (|r| - 1) * chunkSize < |Text.Words(text)| <= |r| * chunkSize
      && (forall k :: 0 <= k < |r| ==> 1 <= |Text.Words(r[k])| <= chunkSize)
      && (forall k :: 0 <= k < |r| - 1 ==> |Text.Words(r[k])| == chunkSize)
  {
    var words := Text.Words(text);
    var r := ChunkText(text, chunkSize).value;
    var g := Groups(words, chunkSize);
    ChunkWords(text, chunkSize);
    GroupsFlatten(words, chunkSize);
    GroupsSizes(words, chunkSize);
    assert |r| == |g|;
    forall k | 0 <= k < |r| ensures Text.Words(r[k]) == g[k] {
      assert WordsOf(r)[k] == Text.Words(r[k]);
    }
  }

  // ---------------------------------------------------------------- ingest_text

  /** The document for the chunk at position `i`. */
  function ChunkDoc(env: Env, chunk: string, i: nat, metadata: map<string, string>): VectorIndex.Doc {
    VectorIndex.Doc(Some(env.newId(i)), chunk, env.embed(chunk), None, Some(metadata))
  }

  /** The documents for the first `n` chunks: one per chunk whose embedding is non-empty, in order. */
  function Docs(env: Env, chunks: seq<string>, metadata: map<string, string>, n: nat): seq<VectorIndex.Doc>
    requires n <= |chunks|
  {
    if n == 0 then []
    else Docs(env, chunks, metadata, n - 1)
         + (if env.embed(chunks[n - 1]) != [] then [ChunkDoc(env, chunks[n - 1], n - 1, metadata)] else [])
  }

  /** The stored texts are exactly the chunks with a non-empty embedding, in chunk order. */
  lemma {:induction false} DocsAreEmbeddedChunks(env: Env, chunks: seq<string>, metadata: map<string, string>, n: nat)
    requires n <= |chunks|
    ensures var docs := Docs(env, chunks, metadata, n);
      seq(|docs|, k requires 0 <= k < |docs| => docs[k].text) == Seqs.Filter(c => env.embed(c) != [], chunks[..n])
  {
    var docs := Docs(env, chunks, metadata, n);
    var p := (c: string) => env.embed(c) != [];
    if n > 0 {
      DocsAreEmbeddedChunks(env, chunks, metadata, n - 1);
      var prev := Docs(env, chunks, metadata, n - 1);
      assert chunks[..n] == chunks[..n - 1] + [chunks[n - 1]];
      Seqs.FilterAppend(p, chunks[..n - 1], chunks[n - 1]);
      assert seq(|docs|, k requires 0 <= k < |docs| => docs[k].text)
          == seq(|prev|, k requires 0 <= k < |prev| => prev[k].text) + (if p(chunks[n - 1]) then [chunks[n - 1]] else []);
    }
  }

  /** When no earlier chunk has an embedding, the first document is chunk `i`'s. */
  lemma {:induction false} FirstDoc(env: Env, chunks: seq<string>, metadata: map<string, string>, i: nat)
    requires i < |chunks| && Docs(env, chunks, metadata, i) == [] && env.embed(chunks[i]) != []
    ensures var docs := Docs(env, chunks, metadata, |chunks|);
      docs != [] && docs[0] == ChunkDoc(env, chunks[i], i, metadata)
  {
    DocsPrefix(env, chunks, metadata, i + 1, |chunks|);
    var one := Docs(env, chunks, metadata, i + 1);
    assert one == [ChunkDoc(env, chunks[i], i, metadata)];
    var docs := Docs(env, chunks, metadata, |chunks|);
    assert docs[..|one|] == one;
    assert docs[0] == docs[..1][0];
  }

  /** Earlier positions' documents are a prefix of later ones'. */
  lemma {:induction false} DocsPrefix(env: Env, chunks: seq<string>, metadata: map<string, string>, n: nat, m: nat)
    requires n <= m <= |chunks|
    ensures var a := Docs(env, chunks, metadata, n);
      |a| <= |Docs(env, chunks, metadata, m)| && Docs(env, chunks, metadata, m)[..|a|] == a
    decreases m
  {
    if n < m {
      DocsPrefix(env, chunks, metadata, n, m - 1);
    }
  }

  /** `metadata or {}`. */
  function MetadataOrEmpty(metadata: Option<map<string, string>>): map<string, string> {
    metadata.GetOr(map[])
  }

  /** The documents `ingest_text` means to store, or the error `chunk_text` raises. */
  function TextDocs(env: Env, text: string, metadata: Option<map<string, string>>, chunkSize: int): Result<seq<VectorIndex.Doc>> {
    match ChunkText(text, chunkSize)
    case Err(e) => Err(e)
    case Ok(chunks) => Ok(Docs(env, chunks, MetadataOrEmpty(metadata), |chunks|))
  }

  /** The chunk count the corrected `ingest_text` returns; the first upsert fails when the store is down. */
  function TextOutcome(reachable: bool, docs: Result<seq<VectorIndex.Doc>>): Result<nat> {
    match docs
    case Err(e) => Err(e)
    case Ok(ds) => if ds == [] then Ok(0) else if reachable then Ok(|ds|) else Err(VectorIndex.Unreachable)
  }

  /** The documents a call that returned normally has stored. */
  function Stored(outcome: Result<nat>, docs: Result<seq<VectorIndex.Doc>>): seq<VectorIndex.Doc> {
    if outcome.Ok? && docs.Ok? then docs.value else []
  }

  /**
   * `ingest_text`, with the `return count` after the loop: upserts one document per chunk
   * with a non-empty embedding, skips the others, and returns how many it stored.
   */
  method IngestText(store: VectorIndex.VectorStore, env: Env, text: string, metadata: Option<map<string, string>>,
                    chunkSize: int) returns (r: Result<nat>)
    modifies store`upserts
    ensures r == TextOutcome(store.reachable, TextDocs(env, text, metadata, chunkSize))
    ensures store.upserts == old(store.upserts) + Stored(r, TextDocs(env, text, metadata, chunkSize))
  {
    var meta := MetadataOrEmpty(metadata);
    var chunked := ChunkText(text, chunkSize);
    if chunked.Err? {
      return Err(chunked.error);
    }
    r := StoreChunks(store, env, chunked.value, meta);
  }

  /** The chunk loop of the corrected `ingest_text`. */
  method StoreChunks(store: VectorIndex.VectorStore, env: Env, chunks: seq<string>, meta: map<string, string>)
    returns (r: Result<nat>)
    modifies store`upserts
    ensures r == TextOutcome(store.reachable, Ok(Docs(env, chunks, meta, |chunks|)))
    ensures store.upserts == old(store.upserts) + Stored(r, Ok(Docs(env, chunks, meta, |chunks|)))
  {
    var count := 0;
    var i := 0;
    while i < |chunks|
      invariant 0 <= i <= |chunks|
      invariant store.upserts == old(store.upserts) + Docs(env, chunks, meta, i)
      invariant count == |Docs(env, chunks, meta, i)|
      invariant !store.reachable ==> Docs(env, chunks, meta, i) == []
    {
      var docId := env.newId(i);
      var embedding := env.embed(chunks[i]);
      if embedding != [] {
        var doc := VectorIndex.Doc(Some(docId), chunks[i], embedding, None, Some(meta));
        assert Docs(env, chunks, meta, i + 1) == Docs(env, chunks, meta, i) + [doc];
        var stored := store.Upsert(doc);
        if stored.Err? {
          DocsPrefix(env, chunks, meta, i + 1, |chunks|);
          return Err(stored.error);
        }
        count := count + 1;
      }
      i := i + 1;
    }
    r := Ok(count);
  }

  /** What `ingest_text` as written returns: 1 once a chunk is stored, `None` when none is. */
  function AsWrittenOutcome(reachable: bool, docs: Result<seq<VectorIndex.Doc>>): Result<Option<nat>> {
    match docs
    case Err(e) => Err(e)
    case Ok(ds) => if ds == [] then Ok(None) else if reachable then Ok(Some(1)) else Err(VectorIndex.Unreachable)
  }

  /** The one document `ingest_text` as written stores before returning. */
  function AsWrittenStored(outcome: Result<Option<nat>>, docs: Result<seq<VectorIndex.Doc>>): seq<VectorIndex.Doc> {
    if outcome.Ok? && docs.Ok? && docs.value != [] then [docs.value[0]] else []
  }

  /**
   * `ingest_text` as written: `return count` sits inside the loop, so it returns right
   * after the first successful upsert, and falls off the end (`None`) when no chunk has
   * an embedding.
   */
  method IngestTextAsWritten(store: VectorIndex.VectorStore, env: Env, text: string, metadata: Option<map<string, string>>,
                             chunkSize: int) returns (r: Result<Option<nat>>)
    modifies store`upserts
    ensures r == AsWrittenOutcome(store.reachable, TextDocs(env, text, metadata, chunkSize))
    ensures store.upserts == old(store.upserts) + AsWrittenStored(r, TextDocs(env, text, metadata, chunkSize))
  {
    var meta := MetadataOrEmpty(metadata);
    var chunked := ChunkText(text, chunkSize);
    if chunked.Err? {
      return Err(chunked.error);
    }
    var chunks := chunked.value;
    assert TextDocs(env, text, metadata, chunkSize) == Ok(Docs(env, chunks, meta, |chunks|));
    var count := 0;
    var i := 0;
    while i < |chunks|
      invariant 0 <= i <= |chunks|
      invariant store.upserts == old(store.upserts) && Docs(env, chunks, meta, i) == []
    {
      var docId := env.newId(i);
      var embedding := env.embed(chunks[i]);
      if embedding == [] {
        i := i + 1;
        continue;
      }
      FirstDoc(env, chunks, meta, i);
      var stored := store.Upsert(VectorIndex.Doc(Some(docId), chunks[i], embedding, None, Some(meta)));
      if stored.Err? {
        return Err(stored.error);
      }
      count := count + 1;
      return Ok(Some(count));
    }
    r := Ok(None);
  }

  /** Two chunks with embeddings: both are meant to be counted, the code as written reports one. */
  lemma IngestTextUndercounts(env: Env, a: string, b: string, metadata: map<string, string>)
    requires env.embed(a) != [] && env.embed(b) != []
    ensures |Docs(env, [a, b], metadata, 2)| == 2
    ensures TextOutcome(true, Ok(Docs(env, [a, b], metadata, 2))) == Ok(2)
    ensures AsWrittenOutcome(true, Ok(Docs(env, [a, b], metadata, 2))) == Ok(Some(1))
  {
    assert Docs(env, [a, b], metadata, 1) == [ChunkDoc(env, a, 0, metadata)];
  }

  // ---------------------------------------------------------------- ingest_file

  function FileNotFound(path: string): Error {
    Error(FileNotFoundError, "File not found: " + path)
  }

  /** `{"source": filepath}` updated with the caller's metadata: the caller's keys win. */
  function EffectiveMetadata(path: string, metadata: Option<map<string, string>>): (r: map<string, string>)
    ensures r.Keys == {"source"} + (if metadata.Some? then metadata.value.Keys else {})
    ensures metadata.Some? ==> forall k :: k in metadata.value ==> r[k] == metadata.value[k]
    ensures metadata.None? || "source" !in metadata.value ==> r["source"] == path
  {
    var base := map["source" := path];
    if metadata.Some? && metadata.value != map[] then base + metadata.value else base
  }

  /** The documents `ingest_file` means to store for `path`. */
  function FileDocs(env: Env, path: string, metadata: Option<map<string, string>>, chunkSize: int): Result<seq<VectorIndex.Doc>> {
    if path !in env.files then Err(FileNotFound(path))
    else if env.files[path].Err? then Err(env.files[path].error)
    else TextDocs(env, env.files[path].value, Some(EffectiveMetadata(path, metadata)), chunkSize)
  }

  /**
   * A path that exists but cannot be opened or read (a directory, a file that is not
   * UTF-8) raises the open's or the read's own error, not `FileNotFoundError`, and
   * nothing is stored.
   */
  lemma UnreadablePathRaises(reachable: bool, env: Env, path: string, metadata: Option<map<string, string>>, chunkSize: int)
    requires path in env.files && env.files[path].Err?
    ensures var r := TextOutcome(reachable, FileDocs(env, path, metadata, chunkSize));
      && r == Err(env.files[path].error)
      && Stored(r, FileDocs(env, path, metadata, chunkSize)) == []
      && AsWrittenOutcome(reachable, FileDocs(env, path, metadata, chunkSize)) == Err(env.files[path].error)
  {
  }

  /**
   * `ingest_file`: a missing path raises `FileNotFoundError`; an existing path that cannot
   * be opened or read raises that error; otherwise its content is ingested under the
   * merged metadata.
   */
  method IngestFile(store: VectorIndex.VectorStore, env: Env, path: string, metadata: Option<map<string, string>>,
                    chunkSize: int) returns (r: Result<nat>)
    modifies store`upserts
    ensures path !in env.files ==> r == Err(FileNotFound(path))
    ensures r == TextOutcome(store.reachable, FileDocs(env, path, metadata, chunkSize))
    ensures store.upserts == old(store.upserts) + Stored(r, FileDocs(env, path, metadata, chunkSize))
  {
    if path !in env.files {
      return Err(FileNotFound(path));
    }
    if env.files[path].Err? {
      return Err(env.files[path].error);
    }
    var content := env.files[path].value;
    var effective := map["source" := path];
    if metadata.Some? && metadata.value != map[] {
      effective := effective + metadata.value;
    }
    r := IngestText(store, env, content, Some(effective), chunkSize);
  }

  // ---------------------------------------------------------------- ingest_directory

  function NotADirectory(path: string): Error {
    Error(NotADirectoryError, "Not a directory: " + path)
  }

  /** Regular files whose name ends with `glob_ext`; no filter when `glob_ext` is falsy. */
  predicate Qualifies(e: Entry, globExt: Option<string>) {
    e.isFile && (globExt.None? || globExt.value == "" || Text.EndsWith(e.name, globExt.value))
  }

  /** The documents one directory entry contributes: a failing file is logged and contributes nothing. */
  function EntryDocs(reachable: bool, env: Env, dirpath: string, e: Entry, chunkSize: int): seq<VectorIndex.Doc> {
    var docs := FileDocs(env, e.path, Some(map["source_dir" := dirpath]), chunkSize);
    Stored(TextOutcome(reachable, docs), docs)
  }

  /** The documents the first `n` entries contribute, in scan order. */
  function DirDocs(reachable: bool, env: Env, dirpath: string, entries: seq<Entry>, globExt: Option<string>,
                   chunkSize: int, n: nat): seq<VectorIndex.Doc>
    requires n <= |entries|
  {
    if n == 0 then []
    else DirDocs(reachable, env, dirpath, entries, globExt, chunkSize, n - 1)
         + (if Qualifies(entries[n - 1], globExt) then EntryDocs(reachable, env, dirpath, entries[n - 1], chunkSize) else [])
  }

  /**
   * `ingest_directory`, with the summary and `return total_chunks` after the loop: every
   * qualifying file is ingested with `{"source_dir": dirpath}`, failures are swallowed, and
   * the total is the number of documents stored.
   */
  method IngestDirectory(store: VectorIndex.VectorStore, env: Env, dirpath: string, globExt: Option<string>,
                         chunkSize: int) returns (r: Result<nat>)
    modifies store`upserts
    ensures dirpath !in env.listing ==> r == Err(NotADirectory(dirpath)) && store.upserts == old(store.upserts)
    ensures dirpath in env.listing ==>
      var entries := env.listing[dirpath];
      var docs := DirDocs(store.reachable, env, dirpath, entries, globExt, chunkSize, |entries|);
      r == Ok(|docs|) && store.upserts == old(store.upserts) + docs
  {
    if dirpath !in env.listing {
      return Err(NotADirectory(dirpath));
    }
    var entries := env.listing[dirpath];
    var total := 0;
    var i := 0;
    while i < |entries|
      invariant 0 <= i <= |entries|
      invariant store.upserts == old(store.upserts) + DirDocs(store.reachable, env, dirpath, entries, globExt, chunkSize, i)
      invariant total == |DirDocs(store.reachable, env, dirpath, entries, globExt, chunkSize, i)|
    {
      var entry := entries[i];
      if Qualifies(entry, globExt) {
        var chunks := IngestFile(store, env, entry.path, Some(map["source_dir" := dirpath]), chunkSize);
        StoredCount(store.reachable, FileDocs(env, entry.path, Some(map["source_dir" := dirpath]), chunkSize));
        if chunks.Ok? {
          total := total + chunks.value;
        }
      }
      i := i + 1;
    }
    r := Ok(total);
  }

  /** A call that returns normally reports the number of documents it stored. */
  lemma StoredCount(reachable: bool, docs: Result<seq<VectorIndex.Doc>>)
    ensures var r := TextOutcome(reachable, docs); r.Ok? ==> r.value == |Stored(r, docs)|
  {
  }

  /** The first entry at or after `i` that `ingest_directory` would ingest. */
  function FirstQualifying(entries: seq<Entry>, globExt: Option<string>, i: nat): (r: Option<nat>)
    requires i <= |entries|
    ensures r.Some? ==> i <= r.value < |entries| && Qualifies(entries[r.value], globExt)
    ensures r.Some? ==> forall k :: i <= k < r.value ==> !Qualifies(entries[k], globExt)
    ensures r.None? ==> forall k :: i <= k < |entries| ==> !Qualifies(entries[k], globExt)
    decreases |entries| - i
  {
    if i == |entries| then None
    else if Qualifies(entries[i], globExt) then Some(i)
    else FirstQualifying(entries, globExt, i + 1)
  }

  /** `ingest_file` over `ingest_text` as written. */
  method IngestFileAsWritten(store: VectorIndex.VectorStore, env: Env, path: string, metadata: Option<map<string, string>>,
                             chunkSize: int) returns (r: Result<Option<nat>>)
    modifies store`upserts
    ensures r == AsWrittenOutcome(store.reachable, FileDocs(env, path, metadata, chunkSize))
    ensures store.upserts == old(store.upserts) + AsWrittenStored(r, FileDocs(env, path, metadata, chunkSize))
  {
    if path !in env.files {
      return Err(FileNotFound(path));
    }
    if env.files[path].Err? {
      return Err(env.files[path].error);
    }
    var content := env.files[path].value;
    var effective := map["source" := path];
    if metadata.Some? && metadata.value != map[] {
      effective := effective + metadata.value;
    }
    r := IngestTextAsWritten(store, env, content, Some(effective), chunkSize);
  }

  /** `total_chunks += chunks` inside the `try`: a `None` count raises `TypeError`, which is logged like any failure. */
  function AsWrittenTotal(chunks: Result<Option<nat>>): nat {
    if chunks.Ok? && chunks.value.Some? then chunks.value.value else 0
  }

  /**
   * `ingest_directory` as written: the summary and `return total_chunks` sit inside the
   * loop, so only the first qualifying entry is ingested, and a directory with none
   * returns `None`.
   */
  method IngestDirectoryAsWritten(store: VectorIndex.VectorStore, env: Env, dirpath: string, globExt: Option<string>,
                                  chunkSize: int) returns (r: Result<Option<nat>>)
    modifies store`upserts
    ensures dirpath !in env.listing ==> r == Err(NotADirectory(dirpath)) && store.upserts == old(store.upserts)
    ensures dirpath in env.listing && FirstQualifying(env.listing[dirpath], globExt, 0).None? ==>
      r == Ok(None) && store.upserts == old(store.upserts)
    ensures dirpath in env.listing && FirstQualifying(env.listing[dirpath], globExt, 0).Some? ==>
      var docs := FileDocs(env, env.listing[dirpath][FirstQualifying(env.listing[dirpath], globExt, 0).value].path,
                           Some(map["source_dir" := dirpath]), chunkSize);
      r == Ok(Some(AsWrittenTotal(AsWrittenOutcome(store.reachable, docs))))
      && store.upserts == old(store.upserts) + AsWrittenStored(AsWrittenOutcome(store.reachable, docs), docs)
  {
    if dirpath !in env.listing {
      return Err(NotADirectory(dirpath));
    }
    var entries := env.listing[dirpath];
    var total := 0;
    var i := 0;
    while i < |entries|
      invariant 0 <= i <= |entries|
      invariant store.upserts == old(store.upserts)
      invariant FirstQualifying(entries, globExt, i) == FirstQualifying(entries, globExt, 0)
    {
      var entry := entries[i];
      if !Qualifies(entry, globExt) {
        i := i + 1;
        continue;
      }
      var chunks := IngestFileAsWritten(store, env, entry.path, Some(map["source_dir" := dirpath]), chunkSize);
      if chunks.Ok? && chunks.value.Some? {
        total := total + chunks.value.value;
      }
      return Ok(Some(total));
    }
    r := Ok(None);
  }

  /**
   * Two qualifying files that both have chunks: the directory is meant to store the
   * documents of both, but the code as written ingests only the first and reports 1.
   */
  lemma IngestDirectoryStopsEarly(env: Env, dirpath: string, e1: Entry, e2: Entry, globExt: Option<string>, chunkSize: int)
    requires Qualifies(e1, globExt) && Qualifies(e2, globExt)
    requires var d1 := FileDocs(env, e1.path, Some(map["source_dir" := dirpath]), chunkSize); d1.Ok? && d1.value != []
    requires var d2 := FileDocs(env, e2.path, Some(map["source_dir" := dirpath]), chunkSize); d2.Ok? && d2.value != []
    ensures DirDocs(true, env, dirpath, [e1, e2], globExt, chunkSize, 2)
         == EntryDocs(true, env, dirpath, e1, chunkSize) + EntryDocs(true, env, dirpath, e2, chunkSize)
    ensures |EntryDocs(true, env, dirpath, e2, chunkSize)| > 0
    ensures FirstQualifying([e1, e2], globExt, 0) == Some(0)
    ensures AsWrittenTotal(AsWrittenOutcome(true, FileDocs(env, e1.path, Some(map["source_dir" := dirpath]), chunkSize))) == 1
  {
    var entries := [e1, e2];
    assert DirDocs(true, env, dirpath, entries, globExt, chunkSize, 1) == EntryDocs(true, env, dirpath, e1, chunkSize);
  }
}
