/**
 What a run leaves in use. `WantedDocs` and `WantedChunks` say what the corpus asks for without
 looking at the tables: the files in order, a later file with the same document id replacing
 the earlier one. After a successful run exactly that is in use, whatever the tables held
 before, and a run succeeds exactly when the unique constraint is never in the way.
 */
module IndexTheorems {
  import opened Wrappers
  import opened Chunker
  import opened IndexModel

  /* ---------- well-formed tables ---------- */

  /** A chunk row's key columns agree with its id, and its document has a row. */
  ghost predicate RowsMatch(chunks: Chunks) {
    forall id :: id in chunks ==>
      && chunks[id].corpus == id.corpus && chunks[id].docId == DocumentId(id.path)
      && chunks[id].ordinal == id.ordinal
  }

  ghost predicate HasDocs(t: Tables) {
    forall id :: id in t.chunks ==> DocKey(id.corpus, DocumentId(id.path)) in t.docs
  }

  ghost predicate DocsMatch(docs: map<DocKey, DocRow>) {
    forall k :: k in docs ==> DocumentId(docs[k].path) == k.id
  }

  /** The unique constraint on chunks. */
  ghost predicate Unique(chunks: Chunks) {
    forall a, b | a in chunks && b in chunks && SameSlot(chunks[a], chunks[b]) :: a == b
  }

  /** What the loader's ids and the table constraints give; every operation keeps it. */
  ghost predicate WellFormed(t: Tables) {
    RowsMatch(t.chunks) && HasDocs(t) && DocsMatch(t.docs) && Unique(t.chunks)
  }

  /* ---------- one replacement ---------- */

  /** The rows of a document's chunks. */
  function RowsOf(s: Setup, d: Document, es: seq<Embedded>): Chunks {
    if es == [] then map[]
    else RowsOf(s, d, es[..|es| - 1])[IdOf(s, d, es[|es| - 1]) := RowOf(s, d, es[|es| - 1])]
  }

  lemma {:induction false} RowsOfIds(s: Setup, d: Document, es: seq<Embedded>)
    ensures RowsMatch(RowsOf(s, d, es))
    ensures forall id :: id in RowsOf(s, d, es) ==> id.corpus == s.corpus && id.path == d.path
    ensures forall id :: id in RowsOf(s, d, es) ==>
              RowsOf(s, d, es)[id].active && RowsOf(s, d, es)[id].version == s.version
  {
    if es != [] {
      RowsOfIds(s, d, es[..|es| - 1]);
    }
  }

  /** An upsert that goes through writes the new rows over the old table. */
  lemma {:induction false} UpsertIsUnion(chunks: Chunks, s: Setup, d: Document, es: seq<Embedded>)
    requires RowsMatch(chunks) && UpsertAll(chunks, s, d, es).Some?
    ensures UpsertAll(chunks, s, d, es).value == chunks + RowsOf(s, d, es)
  {
    if es != [] {
      var front, e := es[..|es| - 1], es[|es| - 1];
      UpsertIsUnion(chunks, s, d, front);
      RowsOfIds(s, d, front);
      UnionMatches(chunks, RowsOf(s, d, front));
      MergeKeepsRow(chunks + RowsOf(s, d, front), s, d, e);
      AddToUnion(chunks, RowsOf(s, d, front), IdOf(s, d, e), RowOf(s, d, e));
    } else {
      assert chunks + map[] == chunks;
    }
  }

  lemma UnionMatches(a: Chunks, b: Chunks)
    requires RowsMatch(a) && RowsMatch(b)
    ensures RowsMatch(a + b)
  {
  }

  /** Where ids determine the key columns, leaving those columns alone changes nothing. */
  lemma MergeKeepsRow(chunks: Chunks, s: Setup, d: Document, e: Embedded)
    requires RowsMatch(chunks)
    ensures Merged(chunks, IdOf(s, d, e), RowOf(s, d, e)) == RowOf(s, d, e)
  {
  }

  lemma AddToUnion(a: Chunks, b: Chunks, id: ChunkId, row: ChunkRow)
    ensures (a + b)[id := row] == a + b[id := row]
  {
  }

  /** A stored row keeps the chunk out. */
  ghost predicate Blocked(chunks: Chunks, s: Setup, d: Document, e: Embedded) {
    Violates(chunks, IdOf(s, d, e), RowOf(s, d, e))
  }

  ghost predicate Numbered(es: seq<Embedded>) {
    forall i :: 0 <= i < |es| ==> es[i].chunk.ordinal == i
  }

  lemma {:induction false} RowsOfSize(s: Setup, d: Document, es: seq<Embedded>)
    requires Numbered(es)
    ensures forall id :: id in RowsOf(s, d, es) ==> id.ordinal < |es|
    ensures |RowsOf(s, d, es)| == |es|
  {
    if es != [] {
      var n, front := |es| - 1, es[..|es| - 1];
      assert Numbered(front) by {
        assert forall i :: 0 <= i < n ==> front[i] == es[i];
      }
      RowsOfSize(s, d, front);
      assert IdOf(s, d, es[n]).ordinal == n;
      assert RowsOf(s, d, es) == RowsOf(s, d, front)[IdOf(s, d, es[n]) := RowOf(s, d, es[n])];
    }
  }

  lemma {:induction false} RowsOfAt(s: Setup, d: Document, es: seq<Embedded>, i: nat)
    requires Numbered(es) && i < |es|
    ensures IdOf(s, d, es[i]) in RowsOf(s, d, es) && RowsOf(s, d, es)[IdOf(s, d, es[i])] == RowOf(s, d, es[i])
    decreases |es|
  {
    var n, front := |es| - 1, es[..|es| - 1];
    assert es[n].chunk.ordinal == n && es[i].chunk.ordinal == i;
    if i < n {
      assert Numbered(front) by {
        assert forall j :: 0 <= j < n ==> front[j] == es[j];
      }
      assert front[i] == es[i];
      RowsOfAt(s, d, front, i);
    }
  }

  lemma {:induction false} RowsOfOnly(s: Setup, d: Document, es: seq<Embedded>, id: ChunkId)
    requires Numbered(es) && id in RowsOf(s, d, es)
    ensures id.ordinal < |es| && id == IdOf(s, d, es[id.ordinal])
    decreases |es|
  {
    var n, front := |es| - 1, es[..|es| - 1];
    assert es[n].chunk.ordinal == n;
    if id != IdOf(s, d, es[n]) {
      assert Numbered(front) by {
        assert forall j :: 0 <= j < n ==> front[j] == es[j];
      }
      RowsOfOnly(s, d, front, id);
      assert front[id.ordinal] == es[id.ordinal];
    }
  }

  /** The step-by-step constraint check fails exactly when the old table blocks some chunk. */
  lemma {:induction false} UpsertFailsExactly(chunks: Chunks, s: Setup, d: Document, es: seq<Embedded>)
    requires RowsMatch(chunks) && Numbered(es)
    ensures UpsertAll(chunks, s, d, es).None? <==> exists i | 0 <= i < |es| :: Blocked(chunks, s, d, es[i])
  {
    if es != [] {
      var n := |es| - 1;
      var front := es[..n];
      assert forall i :: 0 <= i < n ==> front[i] == es[i];
      UpsertFailsExactly(chunks, s, d, front);
      if UpsertAll(chunks, s, d, front).Some? {
        LastViolates(chunks, s, d, es);
      } else {
        var i :| 0 <= i < |front| && Blocked(chunks, s, d, front[i]);
        assert Blocked(chunks, s, d, es[i]);
      }
    }
  }

  lemma LastStep(chunks: Chunks, s: Setup, d: Document, es: seq<Embedded>, before: Chunks)
    requires es != [] && UpsertAll(chunks, s, d, es[..|es| - 1]) == Some(before) && RowsMatch(before)
    ensures UpsertAll(chunks, s, d, es).None? <==> Blocked(before, s, d, es[|es| - 1])
  {
    MergeKeepsRow(before, s, d, es[|es| - 1]);
  }

  lemma LastViolates(chunks: Chunks, s: Setup, d: Document, es: seq<Embedded>)
    requires RowsMatch(chunks) && Numbered(es) && es != []
    requires UpsertAll(chunks, s, d, es[..|es| - 1]).Some?
    ensures UpsertAll(chunks, s, d, es).None? <==> Blocked(chunks, s, d, es[|es| - 1])
  {
    var e, front := es[|es| - 1], es[..|es| - 1];
    var rows := RowsOf(s, d, front);
    assert Numbered(front) by {
      assert forall i :: 0 <= i < |front| ==> front[i] == es[i];
    }
    UpsertIsUnion(chunks, s, d, front);
    RowsOfSize(s, d, front);
    RowsOfIds(s, d, front);
    UnionMatches(chunks, rows);
    LastStep(chunks, s, d, es, chunks + rows);
    ViolationIsOld(chunks, rows, IdOf(s, d, e), RowOf(s, d, e));
  }

  /** Rows with smaller ordinals do not matter to the check. */
  lemma ViolationIsOld(chunks: Chunks, rows: Chunks, id: ChunkId, row: ChunkRow)
    requires RowsMatch(chunks) && RowsMatch(rows) && forall o :: o in rows ==> o.ordinal < row.ordinal
    ensures Violates(chunks + rows, id, row) <==> Violates(chunks, id, row)
  {
    var all := chunks + rows;
    forall o | o in all && SameSlot(all[o], row) ensures o in chunks && all[o] == chunks[o] {
      assert all[o].ordinal == row.ordinal;
      assert o !in rows;
    }
    forall o | o in chunks && SameSlot(chunks[o], row) ensures o in all && all[o] == chunks[o] {
      assert chunks[o].ordinal == o.ordinal;
    }
  }

  /* ---------- one document ---------- */

  function EmbeddedChunks(s: Setup, d: Document): seq<Embedded>
    requires Legal(s.chunking)
  {
    EmbedAll(DocChunks(s, d), s.encode)
  }

  function NewRows(s: Setup, d: Document): Chunks
    requires Legal(s.chunking)
  {
    RowsOf(s, d, EmbeddedChunks(s, d))
  }

  lemma ChunksAreNumbered(s: Setup, d: Document)
    requires Legal(s.chunking)
    ensures Numbered(EmbeddedChunks(s, d)) && |EmbeddedChunks(s, d)| == |DocChunks(s, d)|
  {
    OrdinalsAreConsecutive(Sections(d.lines), s.chunking);
  }

  /** Some chunk of the document is kept out by a stored row. */
  ghost predicate Stands(chunks: Chunks, s: Setup, d: Document)
    requires Legal(s.chunking)
  {
    exists i | 0 <= i < |EmbeddedChunks(s, d)| :: Blocked(chunks, s, d, EmbeddedChunks(s, d)[i])
  }

  lemma DeactivationKeepsSlots(chunks: Chunks, key: DocKey)
    requires RowsMatch(chunks)
    ensures RowsMatch(Deactivated(chunks, key))
    ensures forall id, row :: Violates(Deactivated(chunks, key), id, row) == Violates(chunks, id, row)
    ensures Unique(chunks) ==> Unique(Deactivated(chunks, key))
  {
    var off := Deactivated(chunks, key);
    assert forall o, row | o in chunks :: SameSlot(off[o], row) == SameSlot(chunks[o], row);
    forall id, row
      ensures Violates(off, id, row) == Violates(chunks, id, row)
    {
      if Violates(chunks, id, row) {
        var o :| o in chunks && o != id && SameSlot(chunks[o], row);
        assert o in off && SameSlot(off[o], row);
      }
      if Violates(off, id, row) {
        var o :| o in off && o != id && SameSlot(off[o], row);
        assert o in chunks && SameSlot(chunks[o], row);
      }
    }
  }

  /** What one replacement does to the tables, and exactly when it fails. */
  lemma ReplaceEffect(t: Tables, s: Setup, d: Document)
    requires Legal(s.chunking) && WellFormed(t)
    ensures Replace(t, s, d, EmbeddedChunks(s, d)).None? <==> Stands(t.chunks, s, d)
    ensures Replace(t, s, d, EmbeddedChunks(s, d)).Some? ==>
              Replace(t, s, d, EmbeddedChunks(s, d)).value
              == Tables(t.docs[KeyOf(s, d) := DocRowOf(s, d)], Deactivated(t.chunks, KeyOf(s, d)) + NewRows(s, d))
  {
    ChunksAreNumbered(s, d);
    DeactivationKeepsSlots(t.chunks, KeyOf(s, d));
    UpsertFailsExactly(Deactivated(t.chunks, KeyOf(s, d)), s, d, EmbeddedChunks(s, d));
    if UpsertAll(Deactivated(t.chunks, KeyOf(s, d)), s, d, EmbeddedChunks(s, d)).Some? {
      UpsertIsUnion(Deactivated(t.chunks, KeyOf(s, d)), s, d, EmbeddedChunks(s, d));
    }
  }

  lemma NewRowsUnique(s: Setup, d: Document)
    requires Legal(s.chunking)
    ensures Unique(NewRows(s, d))
  {
    var rows, es := NewRows(s, d), EmbeddedChunks(s, d);
    ChunksAreNumbered(s, d);
    RowsOfIds(s, d, es);
    forall a, b | a in rows && b in rows && SameSlot(rows[a], rows[b])
      ensures a == b
    {
      RowsOfOnly(s, d, es, a);
      RowsOfOnly(s, d, es, b);
    }
  }

  lemma NewRowsMeetNoStored(stored: Chunks, s: Setup, d: Document, a: ChunkId, b: ChunkId)
    requires Legal(s.chunking) && RowsMatch(stored) && !Stands(stored, s, d)
    requires a in NewRows(s, d) && b in stored && SameSlot(stored[b], NewRows(s, d)[a])
    ensures a == b
  {
    var es := EmbeddedChunks(s, d);
    ChunksAreNumbered(s, d);
    RowsOfOnly(s, d, es, a);
    RowsOfAt(s, d, es, a.ordinal);
    assert !Blocked(stored, s, d, es[a.ordinal]);
  }

  lemma UnionUnique(stored: Chunks, s: Setup, d: Document)
    requires Legal(s.chunking) && RowsMatch(stored) && Unique(stored) && !Stands(stored, s, d)
    ensures Unique(stored + NewRows(s, d))
  {
    var rows := NewRows(s, d);
    NewRowsUnique(s, d);
    forall a, b | a in rows && b in stored && SameSlot(stored[b], rows[a])
      ensures a == b
    {
      NewRowsMeetNoStored(stored, s, d, a, b);
    }
  }

  lemma ReplaceKeepsWellFormed(t: Tables, s: Setup, d: Document)
    requires Legal(s.chunking) && WellFormed(t) && Replace(t, s, d, EmbeddedChunks(s, d)).Some?
    ensures WellFormed(Replace(t, s, d, EmbeddedChunks(s, d)).value)
  {
    ReplaceEffect(t, s, d);
    var off := Deactivated(t.chunks, KeyOf(s, d));
    DeactivationKeepsSlots(t.chunks, KeyOf(s, d));
    RowsOfIds(s, d, EmbeddedChunks(s, d));
    assert !Stands(off, s, d);
    UnionUnique(off, s, d);
    UnionMatches(off, NewRows(s, d));
    var after := Replace(t, s, d, EmbeddedChunks(s, d)).value;
    forall id | id in after.chunks ensures DocKey(id.corpus, DocumentId(id.path)) in after.docs {
      assert id in NewRows(s, d) || id in t.chunks;
    }
  }

  /* ---------- a whole run ---------- */

  /** The ids of the indexable files. */
  function Ids(docs: seq<Document>): set<string> {
    if docs == [] then {}
    else
      var d := docs[|docs| - 1];
      Ids(docs[..|docs| - 1]) + if d.exclusion == "" then {DocumentId(d.path)} else {}
  }

  function Without(chunks: Chunks, docId: string): Chunks {
    map id | id in chunks && DocumentId(id.path) != docId :: chunks[id]
  }

  /** The document rows the corpus asks for. */
  function WantedDocs(s: Setup, docs: seq<Document>): map<DocKey, DocRow> {
    if docs == [] then map[]
    else
      var d := docs[|docs| - 1];
      var before := WantedDocs(s, docs[..|docs| - 1]);
      if d.exclusion != "" then before else before[KeyOf(s, d) := DocRowOf(s, d)]
  }

  /** The chunk rows the corpus asks for. */
  function WantedChunks(s: Setup, docs: seq<Document>): Chunks
    requires Legal(s.chunking)
  {
    if docs == [] then map[]
    else
      var d := docs[|docs| - 1];
      var before := WantedChunks(s, docs[..|docs| - 1]);
      if d.exclusion != "" then before else Without(before, DocumentId(d.path)) + NewRows(s, d)
  }

  function DocsIn(t: Tables, corpus: string, ids: set<string>): map<DocKey, DocRow> {
    map k | k in t.docs && k.corpus == corpus && k.id in ids :: t.docs[k]
  }

  function ActiveIn(t: Tables, corpus: string, ids: set<string>): Chunks {
    map id | id in t.chunks && id.corpus == corpus && DocumentId(id.path) in ids && t.chunks[id].active :: t.chunks[id]
  }

  lemma DocsInStep(t: Tables, s: Setup, d: Document, ids: set<string>)
    ensures DocsIn(Tables(t.docs[KeyOf(s, d) := DocRowOf(s, d)], t.chunks), s.corpus, ids + {DocumentId(d.path)})
         == DocsIn(t, s.corpus, ids)[KeyOf(s, d) := DocRowOf(s, d)]
  {
    var after := Tables(t.docs[KeyOf(s, d) := DocRowOf(s, d)], t.chunks);
    var a := DocsIn(after, s.corpus, ids + {DocumentId(d.path)});
    var b := DocsIn(t, s.corpus, ids)[KeyOf(s, d) := DocRowOf(s, d)];
    forall k: DocKey ensures (k in a <==> k in b) && (k in a ==> a[k] == b[k]) {
      assert k.corpus == s.corpus && k.id == DocumentId(d.path) ==> k == KeyOf(s, d);
    }
  }

  /** A row outside the new ones is as before, but off if it belongs to the replaced document. */
  lemma RowAfterReplacement(chunks: Chunks, s: Setup, d: Document, rows: Chunks, id: ChunkId)
    requires RowsMatch(chunks) && id in chunks && id !in rows && id.corpus == s.corpus
    ensures var after := Deactivated(chunks, KeyOf(s, d)) + rows;
            && id in after
            && (DocumentId(id.path) == DocumentId(d.path) ==> !after[id].active)
            && (DocumentId(id.path) != DocumentId(d.path) ==> after[id] == chunks[id])
  {
  }

  lemma ActiveInStep(t: Tables, s: Setup, d: Document, ids: set<string>, after: Tables)
    requires Legal(s.chunking) && RowsMatch(t.chunks)
    requires after.chunks == Deactivated(t.chunks, KeyOf(s, d)) + NewRows(s, d)
    ensures ActiveIn(after, s.corpus, ids + {DocumentId(d.path)})
         == Without(ActiveIn(t, s.corpus, ids), DocumentId(d.path)) + NewRows(s, d)
  {
    RowsOfIds(s, d, EmbeddedChunks(s, d));
    var x, rows := DocumentId(d.path), NewRows(s, d);
    ActiveRowsStep(t, s, d, ids, after, rows);
  }

  lemma ActiveRowsStep(t: Tables, s: Setup, d: Document, ids: set<string>, after: Tables, rows: Chunks)
    requires RowsMatch(t.chunks) && after.chunks == Deactivated(t.chunks, KeyOf(s, d)) + rows
    requires forall id :: id in rows ==> id.corpus == s.corpus && id.path == d.path && rows[id].active
    ensures ActiveIn(after, s.corpus, ids + {DocumentId(d.path)})
         == Without(ActiveIn(t, s.corpus, ids), DocumentId(d.path)) + rows
  {
    var x := DocumentId(d.path);
    var a, b := ActiveIn(after, s.corpus, ids + {x}), Without(ActiveIn(t, s.corpus, ids), x) + rows;
    forall id: ChunkId ensures (id in a <==> id in b) && (id in a ==> a[id] == b[id]) {
      if id !in rows && id in t.chunks && id.corpus == s.corpus {
        RowAfterReplacement(t.chunks, s, d, rows, id);
      }
    }
  }

  ghost predicate Built(o: Outcome, s: Setup, docs: seq<Document>)
    requires Legal(s.chunking)
  {
    && WellFormed(o.tables)
    && (o.ok ==> DocsIn(o.tables, s.corpus, Ids(docs)) == WantedDocs(s, docs))
    && (o.ok ==> ActiveIn(o.tables, s.corpus, Ids(docs)) == WantedChunks(s, docs))
  }

  /** While a run succeeds, the rows of the files seen so far are the wanted ones. */
  lemma {:induction false} ReplaceAllBuilds(t: Tables, s: Setup, docs: seq<Document>, f: Faults)
    requires Legal(s.chunking) && WellFormed(t)
    ensures Built(ReplaceAll(t, s, docs, f), s, docs)
  {
    if docs != [] {
      var front, d := docs[..|docs| - 1], docs[|docs| - 1];
      ReplaceAllBuilds(t, s, front, f);
      var before := ReplaceAll(t, s, front, f);
      if before.ok {
        BuildNext(before.tables, s, docs, f);
      }
    }
  }

  lemma BuildNext(t: Tables, s: Setup, docs: seq<Document>, f: Faults)
    requires Legal(s.chunking) && docs != [] && Built(Outcome(t, true), s, docs[..|docs| - 1])
    ensures Built(ReplaceOne(t, s, docs[|docs| - 1], f), s, docs)
  {
    var d, o := docs[|docs| - 1], ReplaceOne(t, s, docs[|docs| - 1], f);
    var ids := Ids(docs[..|docs| - 1]);
    WantedStep(s, docs);
    BuildStep(t, s, d, ids);
    if !o.ok {
      assert o.tables == t;
    }
  }

  lemma WantedStep(s: Setup, docs: seq<Document>)
    requires Legal(s.chunking) && docs != []
    ensures var front, d := docs[..|docs| - 1], docs[|docs| - 1];
            if d.exclusion != "" then
              && Ids(docs) == Ids(front) && WantedDocs(s, docs) == WantedDocs(s, front)
              && WantedChunks(s, docs) == WantedChunks(s, front)
            else
              && Ids(docs) == Ids(front) + {DocumentId(d.path)}
              && WantedDocs(s, docs) == WantedDocs(s, front)[KeyOf(s, d) := DocRowOf(s, d)]
              && WantedChunks(s, docs) == Without(WantedChunks(s, front), DocumentId(d.path)) + NewRows(s, d)
  {
  }

  lemma BuildStep(t: Tables, s: Setup, d: Document, ids: set<string>)
    requires Legal(s.chunking) && WellFormed(t)
    ensures Replace(t, s, d, EmbeddedChunks(s, d)).Some? ==>
              var after := Replace(t, s, d, EmbeddedChunks(s, d)).value;
              && WellFormed(after)
              && DocsIn(after, s.corpus, ids + {DocumentId(d.path)})
                 == DocsIn(t, s.corpus, ids)[KeyOf(s, d) := DocRowOf(s, d)]
              && ActiveIn(after, s.corpus, ids + {DocumentId(d.path)})
                 == Without(ActiveIn(t, s.corpus, ids), DocumentId(d.path)) + NewRows(s, d)
  {
    if Replace(t, s, d, EmbeddedChunks(s, d)).Some? {
      var after := Replace(t, s, d, EmbeddedChunks(s, d)).value;
      ReplaceKeepsWellFormed(t, s, d);
      ReplaceEffect(t, s, d);
      DocsInStep(t, s, d, ids);
      ActiveInStep(t, s, d, ids, after);
    }
  }

  /** What search sees: active chunks of active documents, as in `_filters`. */
  function InUse(t: Tables, corpus: string): Chunks {
    map id | id in t.chunks && t.chunks[id].corpus == corpus && t.chunks[id].active
             && !DocOff(t.docs, DocKey(corpus, t.chunks[id].docId)) :: t.chunks[id]
  }

  function ActiveDocs(t: Tables, corpus: string): map<DocKey, DocRow> {
    map k | k in t.docs && k.corpus == corpus && t.docs[k].active :: t.docs[k]
  }

  lemma {:induction false} SourceIds(docs: seq<Document>)
    ensures forall p :: p in Sources(docs) ==> DocumentId(p) in Ids(docs)
  {
    if docs != [] {
      var n := |docs| - 1;
      SourceIds(docs[..n]);
      SourcesStep(docs, n);
      assert docs[..n + 1] == docs;
    }
  }

  lemma {:induction false} WantedDocsAreSources(s: Setup, docs: seq<Document>, k: DocKey)
    requires k in WantedDocs(s, docs)
    ensures WantedDocs(s, docs)[k].path in Sources(docs) && WantedDocs(s, docs)[k].active
  {
    var n := |docs| - 1;
    SourcesStep(docs, n);
    assert docs[..n + 1] == docs;
    if docs[n].exclusion != "" || k != KeyOf(s, docs[n]) {
      WantedDocsAreSources(s, docs[..n], k);
    }
  }

  /** Marking turns off exactly the corpus's documents outside `ids`. */
  lemma MarkedDocs(docs: map<DocKey, DocRow>, corpus: string, sources: set<string>, ids: set<string>, k: DocKey)
    requires DocsMatch(docs) && k in docs && k.corpus == corpus
    requires forall p :: p in sources ==> DocumentId(p) in ids
    requires k.id in ids ==> docs[k].path in sources && docs[k].active
    ensures UnlistedOff(docs, corpus, sources)[k].active <==> k.id in ids
    ensures k.id in ids ==> UnlistedOff(docs, corpus, sources)[k] == docs[k]
  {
    assert DocumentId(docs[k].path) == k.id;
  }

  ghost predicate MarkedBy(docs: map<DocKey, DocRow>, after: map<DocKey, DocRow>, corpus: string, ids: set<string>) {
    && docs.Keys == after.Keys
    && forall k | k in docs && k.corpus == corpus ::
         (after[k].active <==> k.id in ids) && (k.id in ids ==> after[k] == docs[k])
  }

  lemma MarkedChunks(t: Tables, after: map<DocKey, DocRow>, corpus: string, ids: set<string>)
    requires WellFormed(t) && MarkedBy(t.docs, after, corpus, ids)
    ensures InUse(Tables(after, OrphansOff(t.chunks, after, corpus)), corpus) == ActiveIn(t, corpus, ids)
  {
    var chunks := OrphansOff(t.chunks, after, corpus);
    forall id | id in t.chunks && id.corpus == corpus
      ensures DocOff(after, DocKey(corpus, t.chunks[id].docId)) <==> DocumentId(id.path) !in ids
    {
      var k := DocKey(corpus, DocumentId(id.path));
      assert k in t.docs && k in after;
    }
  }

  lemma MarkingEffect(t: Tables, corpus: string, sources: set<string>, ids: set<string>)
    requires WellFormed(t)
    requires forall p :: p in sources ==> DocumentId(p) in ids
    requires forall k | k in t.docs && k.corpus == corpus && k.id in ids ::
               t.docs[k].path in sources && t.docs[k].active
    ensures ActiveDocs(MarkMissing(t, corpus, sources), corpus) == DocsIn(t, corpus, ids)
    ensures InUse(MarkMissing(t, corpus, sources), corpus) == ActiveIn(t, corpus, ids)
  {
    var docs := UnlistedOff(t.docs, corpus, sources);
    forall k | k in t.docs && k.corpus == corpus
      ensures (docs[k].active <==> k.id in ids) && (k.id in ids ==> docs[k] == t.docs[k])
    {
      MarkedDocs(t.docs, corpus, sources, ids, k);
    }
    MarkedChunks(t, docs, corpus, ids);
  }

  lemma MarkingKeepsWellFormed(t: Tables, corpus: string, sources: set<string>)
    requires WellFormed(t)
    ensures WellFormed(MarkMissing(t, corpus, sources))
  {
    var after := MarkMissing(t, corpus, sources);
    assert forall a, b | a in t.chunks && b in t.chunks ::
        SameSlot(after.chunks[a], after.chunks[b]) == SameSlot(t.chunks[a], t.chunks[b]);
  }

  lemma RunKeepsWellFormed(t: Tables, s: Setup, docs: seq<Document>, f: Faults)
    requires Legal(s.chunking) && WellFormed(t)
    ensures WellFormed(IndexRun(t, s, docs, f).tables)
  {
    ReplaceAllBuilds(t, s, docs, f);
    MarkingKeepsWellFormed(ReplaceAll(t, s, docs, f).tables, s.corpus, Sources(docs));
  }

  /**
   After a successful run the documents and chunks in use are exactly the wanted ones,
   whatever the tables held before, failed runs included.
   */
  lemma IndexEqualsCorpus(t: Tables, s: Setup, docs: seq<Document>, f: Faults)
    requires Legal(s.chunking) && WellFormed(t) && IndexRun(t, s, docs, f).ok
    ensures ActiveDocs(IndexRun(t, s, docs, f).tables, s.corpus) == WantedDocs(s, docs)
    ensures InUse(IndexRun(t, s, docs, f).tables, s.corpus) == WantedChunks(s, docs)
  {
    ReplaceAllBuilds(t, s, docs, f);
    SourceIds(docs);
    var o := ReplaceAll(t, s, docs, f).tables;
    forall k | k in o.docs && k.corpus == s.corpus && k.id in Ids(docs)
      ensures o.docs[k].path in Sources(docs) && o.docs[k].active
    {
      assert k in DocsIn(o, s.corpus, Ids(docs));
      WantedDocsAreSources(s, docs, k);
    }
    MarkingEffect(o, s.corpus, Sources(docs), Ids(docs));
  }
}
