/**
 The retrieval index: two tables, documents and chunks, updated by `replace_document` and
 `mark_missing_documents`, and the run of `CorpusIndexer.index_root` over a corpus. Rows are
 never deleted; a row is in use when it is active. A chunk's id is a digest, modelled as the
 tuple of what is digested. `IndexTheorems` shows what a run leaves in use.
 */
module IndexModel {
  import opened Wrappers
  import opened Chunker
  import opened Texts

  /* ---------- documents ---------- */

  /** A loaded file; `exclusion` is "" for an indexable one. */
  datatype Document = Document(path: string, hash: string, status: string, exclusion: string, lines: seq<string>)

  function Before(s: string, c: char): string {
    if s == "" || s[0] == c then "" else [s[0]] + Before(s[1..], c)
  }

  /** The name without its last suffix. */
  function Stem(name: string): string {
    if '.' in name then StemOf(name, |name|) else name
  }

  function StemOf(name: string, end: nat): string
    requires end <= |name|
  {
    if end <= 1 then name
    else if name[end - 1] == '.' then (if end == |name| then name else name[..end - 1])
    else StemOf(name, end - 1)
  }

  /** `document_id`: the file's stem up to the first underscore. */
  function DocumentId(path: string): string {
    Before(Stem(path), '_')
  }

  /** What a run is configured with. `version` digests the file names and contents. */
  datatype Setup = Setup(corpus: string, version: string, chunking: Settings, encode: string -> seq<real>)

  function DocChunks(s: Setup, d: Document): seq<Chunk>
    requires Legal(s.chunking)
  {
    if d.exclusion != "" || AllBlank(Join(d.lines)) then [] else ChunkDocument(d.lines, s.chunking)
  }

  datatype Embedded = Embedded(chunk: Chunk, vector: seq<real>)

  function EmbedAll(chunks: seq<Chunk>, encode: string -> seq<real>): seq<Embedded> {
    seq(|chunks|, i requires 0 <= i < |chunks| => Embedded(chunks[i], encode(chunks[i].text)))
  }

  function EncodeBatch(texts: seq<string>, encode: string -> seq<real>): seq<seq<real>> {
    seq(|texts|, i requires 0 <= i < |texts| => encode(texts[i]))
  }

  /** The batching loop of `index_root`: whatever the batch size, every chunk gets its own vector. */
  method EmbedInBatches(chunks: seq<Chunk>, batchSize: int, encode: string -> seq<real>)
      returns (embedded: seq<Embedded>)
    ensures embedded == EmbedAll(chunks, encode)
  {
    var size := if batchSize > 1 then batchSize else 1;
    embedded := [];
    var offset := 0;
    while offset < |chunks|
      invariant 0 <= offset <= |chunks| && embedded == EmbedAll(chunks[..offset], encode)
    {
      var end := if offset + size < |chunks| then offset + size else |chunks|;
      var batch := chunks[offset..end];
      var vectors := EncodeBatch(seq(|batch|, i requires 0 <= i < |batch| => batch[i].text), encode);
      embedded := embedded + seq(|batch|, i requires 0 <= i < |batch| => Embedded(batch[i], vectors[i]));
      offset := end;
    }
    assert chunks[..|chunks|] == chunks;
  }

  /* ---------- tables ---------- */

  datatype DocKey = DocKey(corpus: string, id: string)

  datatype DocRow = DocRow(path: string, hash: string, status: string, version: string, active: bool)

  datatype ChunkId = ChunkId(corpus: string, path: string, hash: string, ordinal: nat, text: string)

  datatype ChunkRow = ChunkRow(corpus: string, docId: string, ordinal: nat, heading: Option<string>, lineStart: nat,
                               lineEnd: nat, text: string, vector: seq<real>, version: string, active: bool)

  type Chunks = map<ChunkId, ChunkRow>

  datatype Tables = Tables(docs: map<DocKey, DocRow>, chunks: Chunks)

  function KeyOf(s: Setup, d: Document): DocKey {
    DocKey(s.corpus, DocumentId(d.path))
  }

  function DocRowOf(s: Setup, d: Document): DocRow {
    DocRow(d.path, d.hash, d.status, s.version, true)
  }

  function IdOf(s: Setup, d: Document, e: Embedded): ChunkId {
    ChunkId(s.corpus, d.path, d.hash, e.chunk.ordinal, e.chunk.text)
  }

  function RowOf(s: Setup, d: Document, e: Embedded): ChunkRow {
    ChunkRow(s.corpus, DocumentId(d.path), e.chunk.ordinal, e.chunk.heading, e.chunk.lineStart, e.chunk.lineEnd,
             e.chunk.text, e.vector, s.version, true)
  }

  /** The columns of the table's unique constraint. */
  predicate SameSlot(a: ChunkRow, b: ChunkRow) {
    a.corpus == b.corpus && a.docId == b.docId && a.ordinal == b.ordinal && a.version == b.version
  }

  predicate Violates(chunks: Chunks, id: ChunkId, row: ChunkRow) {
    exists other :: other in chunks && other != id && SameSlot(chunks[other], row)
  }

  /** `ON CONFLICT (chunk_id) DO UPDATE` leaves the corpus, document and ordinal columns alone. */
  function Merged(chunks: Chunks, id: ChunkId, row: ChunkRow): ChunkRow {
    if id in chunks then
      row.(corpus := chunks[id].corpus, docId := chunks[id].docId, ordinal := chunks[id].ordinal)
    else row
  }

  /** Insert or update the chunks in order; none when one of them breaks the unique constraint. */
  function UpsertAll(chunks: Chunks, s: Setup, d: Document, es: seq<Embedded>): Option<Chunks> {
    if es == [] then Some(chunks)
    else
      var before := UpsertAll(chunks, s, d, es[..|es| - 1]);
      if before.None? then None
      else
        var e := es[|es| - 1];
        var row := Merged(before.value, IdOf(s, d, e), RowOf(s, d, e));
        if Violates(before.value, IdOf(s, d, e), row) then None else Some(before.value[IdOf(s, d, e) := row])
  }

  function Deactivated(chunks: Chunks, key: DocKey): Chunks {
    map id | id in chunks ::
      if chunks[id].corpus == key.corpus && chunks[id].docId == key.id then chunks[id].(active := false) else chunks[id]
  }

  /** `replace_document`, one transaction. */
  function Replace(t: Tables, s: Setup, d: Document, es: seq<Embedded>): Option<Tables> {
    var chunks := UpsertAll(Deactivated(t.chunks, KeyOf(s, d)), s, d, es);
    if chunks.None? then None else Some(Tables(t.docs[KeyOf(s, d) := DocRowOf(s, d)], chunks.value))
  }

  function UnlistedOff(docs: map<DocKey, DocRow>, corpus: string, sources: set<string>): map<DocKey, DocRow> {
    map k | k in docs :: if k.corpus == corpus && docs[k].path !in sources then docs[k].(active := false) else docs[k]
  }

  predicate DocOff(docs: map<DocKey, DocRow>, key: DocKey) {
    key in docs && !docs[key].active
  }

  function OrphansOff(chunks: Chunks, docs: map<DocKey, DocRow>, corpus: string): Chunks {
    map id | id in chunks ::
      if chunks[id].corpus == corpus && DocOff(docs, DocKey(corpus, chunks[id].docId)) then chunks[id].(active := false)
      else chunks[id]
  }

  /** `mark_missing_documents`. */
  function MarkMissing(t: Tables, corpus: string, sources: set<string>): Tables {
    var docs := UnlistedOff(t.docs, corpus, sources);
    Tables(docs, OrphansOff(t.chunks, docs, corpus))
  }

  class RagRepository {
    var docs: map<DocKey, DocRow>
    var chunks: Chunks

    ghost function State(): Tables
      reads this
    {
      Tables(docs, chunks)
    }

    constructor ()
      ensures State() == Tables(map[], map[])
    {
      docs, chunks := map[], map[];
    }

    /** A broken constraint rolls the whole transaction back. */
    method ReplaceDocument(s: Setup, d: Document, es: seq<Embedded>) returns (ok: bool)
      modifies this
      ensures ok == Replace(old(State()), s, d, es).Some?
      ensures State() == Replace(old(State()), s, d, es).GetOr(old(State()))
    {
      var savedDocs, savedChunks := docs, chunks;
      docs := docs[KeyOf(s, d) := DocRowOf(s, d)];
      chunks := Deactivated(chunks, KeyOf(s, d));
      ghost var cleared := chunks;
      for i := 0 to |es|
        invariant UpsertAll(cleared, s, d, es[..i]) == Some(chunks)
        invariant docs == savedDocs[KeyOf(s, d) := DocRowOf(s, d)]
      {
        assert es[..i + 1][..i] == es[..i];
        var id := IdOf(s, d, es[i]);
        var row := Merged(chunks, id, RowOf(s, d, es[i]));
        if Violates(chunks, id, row) {
          UpsertStops(cleared, s, d, es, i + 1);
          docs, chunks := savedDocs, savedChunks;
          return false;
        }
        chunks := chunks[id := row];
      }
      assert es[..|es|] == es;
      ok := true;
    }

    method MarkMissingDocuments(corpus: string, sources: set<string>)
      modifies this
      ensures State() == MarkMissing(old(State()), corpus, sources)
    {
      docs := UnlistedOff(docs, corpus, sources);
      chunks := OrphansOff(chunks, docs, corpus);
    }
  }

  lemma {:induction false} UpsertStops(chunks: Chunks, s: Setup, d: Document, es: seq<Embedded>, i: nat)
    requires i <= |es| && UpsertAll(chunks, s, d, es[..i]).None?
    ensures UpsertAll(chunks, s, d, es).None?
    decreases |es|
  {
    if i == |es| {
      assert es[..i] == es;
    } else {
      var front := es[..|es| - 1];
      assert front[..i] == es[..i];
      UpsertStops(chunks, s, d, front, i);
    }
  }

  /* ---------- a run ---------- */

  datatype Outcome = Outcome(tables: Tables, ok: bool)

  /** The paths whose load, encoding or write raises, and whether marking does. */
  datatype Faults = Faults(paths: set<string>, marking: bool)

  /** One turn of the document loop. */
  function ReplaceOne(t: Tables, s: Setup, d: Document, f: Faults): Outcome
    requires Legal(s.chunking)
  {
    if d.path in f.paths then Outcome(t, false)
    else if d.exclusion != "" then Outcome(t, true)
    else
      var after := Replace(t, s, d, EmbedAll(DocChunks(s, d), s.encode));
      Outcome(after.GetOr(t), after.Some?)
  }

  /** The document loop; it stops at the first failure, and earlier replacements stay. */
  function ReplaceAll(t: Tables, s: Setup, docs: seq<Document>, f: Faults): Outcome
    requires Legal(s.chunking)
  {
    if docs == [] then Outcome(t, true)
    else
      var before := ReplaceAll(t, s, docs[..|docs| - 1], f);
      if !before.ok then before else ReplaceOne(before.tables, s, docs[|docs| - 1], f)
  }

  function Sources(docs: seq<Document>): set<string> {
    set i | 0 <= i < |docs| && docs[i].exclusion == "" :: docs[i].path
  }

  /** The effect of `index_root` on the tables. */
  function IndexRun(t: Tables, s: Setup, docs: seq<Document>, f: Faults): Outcome
    requires Legal(s.chunking)
  {
    var o := ReplaceAll(t, s, docs, f);
    if !o.ok then o
    else if f.marking then Outcome(o.tables, false)
    else Outcome(MarkMissing(o.tables, s.corpus, Sources(docs)), true)
  }

  datatype Report = Report(documents: nat, chunks: nat, excluded: nat, warnings: seq<string>)

  function Counted(r: Report, s: Setup, d: Document): Report
    requires Legal(s.chunking)
  {
    if d.exclusion != "" then r.(excluded := r.excluded + 1, warnings := r.warnings + [d.path + ":" + d.exclusion])
    else r.(documents := r.documents + 1, chunks := r.chunks + |DocChunks(s, d)|)
  }

  function ReportOf(s: Setup, docs: seq<Document>): Report
    requires Legal(s.chunking)
  {
    if docs == [] then Report(0, 0, 0, []) else Counted(ReportOf(s, docs[..|docs| - 1]), s, docs[|docs| - 1])
  }

  lemma {:induction false} RunStops(t: Tables, s: Setup, docs: seq<Document>, f: Faults, i: nat)
    requires Legal(s.chunking) && i <= |docs| && !ReplaceAll(t, s, docs[..i], f).ok
    ensures ReplaceAll(t, s, docs, f) == ReplaceAll(t, s, docs[..i], f)
    decreases |docs|
  {
    if i == |docs| {
      assert docs[..i] == docs;
    } else {
      var front := docs[..|docs| - 1];
      assert front[..i] == docs[..i];
      RunStops(t, s, front, f, i);
    }
  }

  /** The body of the document loop. */
  method IndexDocument(repo: RagRepository, s: Setup, d: Document, batchSize: int, f: Faults, report: Report)
      returns (ok: bool, counted: Report)
    requires Legal(s.chunking)
    modifies repo
    ensures Outcome(repo.State(), ok) == ReplaceOne(old(repo.State()), s, d, f)
    ensures ok ==> counted == Counted(report, s, d)
  {
    if d.path in f.paths {
      return false, report;
    }
    if d.exclusion != "" {
      return true, report.(excluded := report.excluded + 1,
                           warnings := report.warnings + [d.path + ":" + d.exclusion]);
    }
    var chunks := ChunkDocumentLoop(s, d);
    var embedded := EmbedInBatches(chunks, batchSize, s.encode);
    ok := repo.ReplaceDocument(s, d, embedded);
    counted := report.(documents := report.documents + 1, chunks := report.chunks + |embedded|);
  }

  lemma RunPrefix(t: Tables, s: Setup, docs: seq<Document>, f: Faults, i: nat)
    requires Legal(s.chunking) && i < |docs| && ReplaceAll(t, s, docs[..i], f).ok
    ensures ReplaceAll(t, s, docs[..i + 1], f) == ReplaceOne(ReplaceAll(t, s, docs[..i], f).tables, s, docs[i], f)
    ensures ReportOf(s, docs[..i + 1]) == Counted(ReportOf(s, docs[..i]), s, docs[i])
  {
    var upTo := docs[..i + 1];
    assert upTo[..i] == docs[..i] && upTo[i] == docs[i];
  }

  /** `index_root`. */
  method IndexRoot(repo: RagRepository, s: Setup, docs: seq<Document>, batchSize: int, f: Faults)
      returns (r: Result<Report>)
    requires Legal(s.chunking)
    modifies repo
    ensures r.Ok? == IndexRun(old(repo.State()), s, docs, f).ok
    ensures repo.State() == IndexRun(old(repo.State()), s, docs, f).tables
    ensures r.Ok? ==> r.value == ReportOf(s, docs)
  {
    var report, active := Report(0, 0, 0, []), {};
    ghost var t := repo.State();
    for i := 0 to |docs|
      invariant ReplaceAll(t, s, docs[..i], f) == Outcome(repo.State(), true)
      invariant report == ReportOf(s, docs[..i]) && active == Sources(docs[..i])
    {
      RunPrefix(t, s, docs, f, i);
      SourcesStep(docs, i);
      var ok, counted := IndexDocument(repo, s, docs[i], batchSize, f, report);
      if !ok {
        RunStops(t, s, docs, f, i + 1);
        return Err("index_failed");
      }
      report := counted;
      if docs[i].exclusion == "" {
        active := active + {docs[i].path};
      }
    }
    assert docs[..|docs|] == docs;
    if f.marking {
      return Err("index_failed");
    }
    repo.MarkMissingDocuments(s.corpus, active);
    r := Ok(report);
  }

  lemma SourcesStep(docs: seq<Document>, i: nat)
    requires i < |docs|
    ensures Sources(docs[..i + 1])
         == Sources(docs[..i]) + (if docs[i].exclusion == "" then {docs[i].path} else {})
  {
    var front, upTo := docs[..i], docs[..i + 1];
    assert forall j :: 0 <= j < i ==> front[j] == upTo[j];
    assert upTo[i] == docs[i];
  }

  method ChunkDocumentLoop(s: Setup, d: Document) returns (chunks: seq<Chunk>)
    requires Legal(s.chunking)
    ensures chunks == DocChunks(s, d)
  {
    if d.exclusion != "" || AllBlank(Join(d.lines)) {
      return [];
    }
    chunks := ChunkLoop(d.lines, s.chunking);
  }
}
