/**
 When a run succeeds, what a second run does, and what runs leave alone.
 */
module IndexRuns {
  import opened Wrappers
  import opened Chunker
  import opened IndexModel
  import opened IndexTheorems

  /* ---------- other corpora ---------- */

  ghost predicate SameElsewhere(a: Tables, b: Tables, corpus: string) {
    && (forall k: DocKey | k.corpus != corpus ::
          (k in a.docs <==> k in b.docs) && (k in a.docs ==> a.docs[k] == b.docs[k]))
    && (forall id: ChunkId | id.corpus != corpus ::
          (id in a.chunks <==> id in b.chunks) && (id in a.chunks ==> a.chunks[id] == b.chunks[id]))
  }

  lemma ReplaceSparesOthers(t: Tables, s: Setup, d: Document)
    requires Legal(s.chunking) && WellFormed(t) && Replace(t, s, d, EmbeddedChunks(s, d)).Some?
    ensures SameElsewhere(Replace(t, s, d, EmbeddedChunks(s, d)).value, t, s.corpus)
  {
    ReplaceEffect(t, s, d);
    RowsOfIds(s, d, EmbeddedChunks(s, d));
  }

  lemma {:induction false} ReplaceAllSparesOthers(t: Tables, s: Setup, docs: seq<Document>, f: Faults)
    requires Legal(s.chunking) && WellFormed(t)
    ensures SameElsewhere(ReplaceAll(t, s, docs, f).tables, t, s.corpus)
  {
    if docs != [] {
      var front, d := docs[..|docs| - 1], docs[|docs| - 1];
      ReplaceAllSparesOthers(t, s, front, f);
      ReplaceAllBuilds(t, s, front, f);
      var before, after := ReplaceAll(t, s, front, f), ReplaceAll(t, s, docs, f);
      if after.tables != before.tables {
        ReplaceSparesOthers(before.tables, s, d);
      }
    }
  }

  /** A run, successful or not, changes no row of another corpus. */
  lemma OtherCorporaUntouched(t: Tables, s: Setup, docs: seq<Document>, f: Faults)
    requires Legal(s.chunking) && WellFormed(t)
    ensures SameElsewhere(IndexRun(t, s, docs, f).tables, t, s.corpus)
  {
    ReplaceAllSparesOthers(t, s, docs, f);
    ReplaceAllBuilds(t, s, docs, f);
  }

  /* ---------- when a run succeeds ---------- */

  ghost predicate DistinctPaths(docs: seq<Document>) {
    forall i, j | 0 <= i < j < |docs| :: docs[i].path != docs[j].path
  }

  /** Two files that ask for the same row of the unique constraint: same document id, both with chunks. */
  ghost predicate Rivals(s: Setup, a: Document, b: Document)
    requires Legal(s.chunking)
  {
    && a.exclusion == "" && b.exclusion == "" && DocumentId(a.path) == DocumentId(b.path)
    && DocChunks(s, a) != [] && DocChunks(s, b) != []
  }

  /** After a file's replacement the next file stands if it stood before, or is a rival. */
  lemma StandsAfterReplacement(t: Tables, s: Setup, a: Document, b: Document)
    requires Legal(s.chunking) && WellFormed(t) && a.path != b.path && a.exclusion == "" && b.exclusion == ""
    requires Replace(t, s, a, EmbeddedChunks(s, a)).Some?
    ensures Stands(Replace(t, s, a, EmbeddedChunks(s, a)).value.chunks, s, b)
            <==> Stands(t.chunks, s, b) || Rivals(s, a, b)
  {
    ReplaceEffect(t, s, a);
    var off := Deactivated(t.chunks, KeyOf(s, a));
    DeactivationKeepsSlots(t.chunks, KeyOf(s, a));
    assert Stands(off, s, b) == Stands(t.chunks, s, b);
    if Stands(off + NewRows(s, a), s, b) && !Rivals(s, a, b) {
      StandsOnlyBefore(off, s, a, b);
    }
    if Stands(off, s, b) {
      StandsStill(off, s, a, b);
    }
    if Rivals(s, a, b) {
      RivalsClash(off, s, a, b);
    }
  }

  lemma BlockedBefore(off: Chunks, rows: Chunks, s: Setup, b: Document, e: Embedded)
    requires Blocked(off + rows, s, b, e) && forall o :: o in rows ==> !SameSlot(rows[o], RowOf(s, b, e))
    ensures Blocked(off, s, b, e)
  {
    var o :| o in off + rows && o != IdOf(s, b, e) && SameSlot((off + rows)[o], RowOf(s, b, e));
    assert o !in rows;
  }

  lemma BlockedStill(off: Chunks, rows: Chunks, s: Setup, b: Document, e: Embedded)
    requires RowsMatch(off) && RowsMatch(rows) && Blocked(off, s, b, e)
    requires forall o :: o in rows ==> rows[o].version == s.version
    ensures Blocked(off + rows, s, b, e)
  {
    var o :| o in off && o != IdOf(s, b, e) && SameSlot(off[o], RowOf(s, b, e));
    assert o in off + rows && SameSlot((off + rows)[o], RowOf(s, b, e));
  }

  lemma StandsOnlyBefore(off: Chunks, s: Setup, a: Document, b: Document)
    requires Legal(s.chunking) && a.exclusion == "" && b.exclusion == ""
    requires Stands(off + NewRows(s, a), s, b) && !Rivals(s, a, b)
    ensures Stands(off, s, b)
  {
    var rows, es := NewRows(s, a), EmbeddedChunks(s, b);
    ChunksAreNumbered(s, a);
    RowsOfIds(s, a, EmbeddedChunks(s, a));
    RowsOfSize(s, a, EmbeddedChunks(s, a));
    var i :| 0 <= i < |es| && Blocked(off + rows, s, b, es[i]);
    assert forall o :: o in rows ==> rows[o].docId != DocumentId(b.path);
    BlockedBefore(off, rows, s, b, es[i]);
  }

  lemma StandsStill(off: Chunks, s: Setup, a: Document, b: Document)
    requires Legal(s.chunking) && RowsMatch(off) && Stands(off, s, b)
    ensures Stands(off + NewRows(s, a), s, b)
  {
    var es := EmbeddedChunks(s, b);
    RowsOfIds(s, a, EmbeddedChunks(s, a));
    var i :| 0 <= i < |es| && Blocked(off, s, b, es[i]);
    BlockedStill(off, NewRows(s, a), s, b, es[i]);
  }

  lemma RivalsClash(off: Chunks, s: Setup, a: Document, b: Document)
    requires Legal(s.chunking) && a.path != b.path && Rivals(s, a, b)
    ensures Stands(off + NewRows(s, a), s, b)
  {
    var rows, ea, eb := NewRows(s, a), EmbeddedChunks(s, a), EmbeddedChunks(s, b);
    ChunksAreNumbered(s, a);
    ChunksAreNumbered(s, b);
    RowsOfAt(s, a, ea, 0);
    var o := IdOf(s, a, ea[0]);
    assert (off + rows)[o] == RowOf(s, a, ea[0]);
    assert Blocked(off + rows, s, b, eb[0]);
  }

  /** One of the files is a rival of `d`. */
  ghost predicate HasRival(s: Setup, docs: seq<Document>, d: Document)
    requires Legal(s.chunking)
  {
    docs != [] && (HasRival(s, docs[..|docs| - 1], d) || Rivals(s, docs[|docs| - 1], d))
  }

  /** After a successful prefix a new file stands if it stood at the start, or has a rival in the prefix. */
  lemma {:induction false} StandsAfterPrefix(t: Tables, s: Setup, docs: seq<Document>, f: Faults, d: Document)
    requires Legal(s.chunking) && WellFormed(t) && d.exclusion == "" && ReplaceAll(t, s, docs, f).ok
    requires forall i :: 0 <= i < |docs| ==> docs[i].path != d.path
    ensures Stands(ReplaceAll(t, s, docs, f).tables.chunks, s, d)
            <==> Stands(t.chunks, s, d) || HasRival(s, docs, d)
  {
    if docs != [] {
      var front, last := docs[..|docs| - 1], docs[|docs| - 1];
      StandsAfterPrefix(t, s, front, f, d);
      ReplaceAllBuilds(t, s, front, f);
      if last.exclusion == "" {
        StandsAfterReplacement(ReplaceAll(t, s, front, f).tables, s, last, d);
      }
    }
  }

  /** Nothing raises while the file is handled, and no stored row or earlier file is in its way. */
  ghost predicate GoesThrough(t: Tables, s: Setup, earlier: seq<Document>, d: Document, f: Faults)
    requires Legal(s.chunking)
  {
    d.path !in f.paths && (d.exclusion == "" ==> !Stands(t.chunks, s, d) && !HasRival(s, earlier, d))
  }

  ghost predicate AllGoThrough(t: Tables, s: Setup, docs: seq<Document>, f: Faults)
    requires Legal(s.chunking)
  {
    docs == []
    || (AllGoThrough(t, s, docs[..|docs| - 1], f) && GoesThrough(t, s, docs[..|docs| - 1], docs[|docs| - 1], f))
  }

  lemma {:induction false} LoopCompletesExactly(t: Tables, s: Setup, docs: seq<Document>, f: Faults)
    requires Legal(s.chunking) && WellFormed(t) && DistinctPaths(docs)
    ensures ReplaceAll(t, s, docs, f).ok <==> AllGoThrough(t, s, docs, f)
  {
    if docs != [] {
      var n := |docs| - 1;
      var front, d := docs[..n], docs[n];
      LoopCompletesExactly(t, s, front, f);
      var before := ReplaceAll(t, s, front, f);
      assert ReplaceAll(t, s, docs, f).ok <==> before.ok && ReplaceOne(before.tables, s, d, f).ok;
      if before.ok {
        LastGoesThrough(t, s, front, d, f, before.tables);
      }
    }
  }

  lemma LastGoesThrough(t: Tables, s: Setup, front: seq<Document>, d: Document, f: Faults, before: Tables)
    requires Legal(s.chunking) && WellFormed(t) && ReplaceAll(t, s, front, f) == Outcome(before, true)
    requires forall i :: 0 <= i < |front| ==> front[i].path != d.path
    ensures ReplaceOne(before, s, d, f).ok <==> GoesThrough(t, s, front, d, f)
  {
    if d.exclusion == "" {
      StandsAfterPrefix(t, s, front, f, d);
      ReplaceAllBuilds(t, s, front, f);
      ReplaceEffect(before, s, d);
    }
  }

  /**
   A run over distinctly named files completes exactly when nothing raises, no stored row of
   this index version keeps one of the chunks out, and no two files with chunks share a
   document id.
   */
  lemma CompletesExactly(t: Tables, s: Setup, docs: seq<Document>, f: Faults)
    requires Legal(s.chunking) && WellFormed(t) && DistinctPaths(docs)
    ensures IndexRun(t, s, docs, f).ok <==> !f.marking && AllGoThrough(t, s, docs, f)
  {
    LoopCompletesExactly(t, s, docs, f);
  }

  /* ---------- running again ---------- */

  ghost predicate StoredUnder(chunks: Chunks, rows: Chunks, version: string) {
    forall id :: id in rows ==> id in chunks && chunks[id].version == version
  }

  /** All the file's chunks are stored under this index version. */
  ghost predicate Holds(chunks: Chunks, s: Setup, d: Document)
    requires Legal(s.chunking)
  {
    StoredUnder(chunks, NewRows(s, d), s.version)
  }

  lemma StoredAfter(chunks: Chunks, key: DocKey, written: Chunks, rows: Chunks, version: string)
    requires rows == written || StoredUnder(chunks, rows, version)
    requires forall id :: id in written ==> written[id].version == version
    ensures StoredUnder(Deactivated(chunks, key) + written, rows, version)
  {
  }

  lemma ReplaceHolds(t: Tables, s: Setup, a: Document, d: Document)
    requires Legal(s.chunking) && WellFormed(t) && Replace(t, s, a, EmbeddedChunks(s, a)).Some?
    requires a == d || Holds(t.chunks, s, d)
    ensures Holds(Replace(t, s, a, EmbeddedChunks(s, a)).value.chunks, s, d)
  {
    ReplaceEffect(t, s, a);
    RowsOfIds(s, a, EmbeddedChunks(s, a));
    StoredAfter(t.chunks, KeyOf(s, a), NewRows(s, a), NewRows(s, d), s.version);
  }

  /** A successful loop stores the chunks of all its files. */
  lemma {:induction false} LoopHolds(t: Tables, s: Setup, docs: seq<Document>, f: Faults, d: Document)
    requires Legal(s.chunking) && WellFormed(t) && ReplaceAll(t, s, docs, f).ok && d in docs && d.exclusion == ""
    ensures Holds(ReplaceAll(t, s, docs, f).tables.chunks, s, d)
    decreases |docs|
  {
    var n := |docs| - 1;
    var front, last := docs[..n], docs[n];
    var before, after := ReplaceAll(t, s, front, f), ReplaceAll(t, s, docs, f);
    assert before.ok && after == ReplaceOne(before.tables, s, last, f);
    ReplaceAllBuilds(t, s, front, f);
    if last != d {
      LoopHolds(t, s, front, f, d);
    }
    TurnHolds(before.tables, s, last, f, d);
  }

  lemma TurnHolds(t: Tables, s: Setup, a: Document, f: Faults, d: Document)
    requires Legal(s.chunking) && WellFormed(t) && ReplaceOne(t, s, a, f).ok && d.exclusion == ""
    requires a == d || Holds(t.chunks, s, d)
    ensures Holds(ReplaceOne(t, s, a, f).tables.chunks, s, d)
  {
    if a.exclusion == "" {
      ReplaceHolds(t, s, a, d);
    }
  }

  /** Chunks that are stored already are never kept out. */
  lemma HeldDoesNotStand(chunks: Chunks, s: Setup, d: Document)
    requires Legal(s.chunking) && RowsMatch(chunks) && Unique(chunks) && Holds(chunks, s, d)
    ensures !Stands(chunks, s, d)
  {
    var es := EmbeddedChunks(s, d);
    ChunksAreNumbered(s, d);
    forall i | 0 <= i < |es| ensures !Blocked(chunks, s, d, es[i]) {
      RowsOfAt(s, d, es, i);
      var id := IdOf(s, d, es[i]);
      forall o | o in chunks && SameSlot(chunks[o], RowOf(s, d, es[i])) ensures o == id {
        assert SameSlot(chunks[o], chunks[id]);
      }
    }
  }

  lemma {:induction false} AllGoThroughAgain(t: Tables, again: Tables, s: Setup, docs: seq<Document>, f: Faults)
    requires Legal(s.chunking) && AllGoThrough(t, s, docs, f)
    requires RowsMatch(again.chunks) && Unique(again.chunks)
    requires forall i | 0 <= i < |docs| && docs[i].exclusion == "" :: Holds(again.chunks, s, docs[i])
    ensures AllGoThrough(again, s, docs, f)
  {
    if docs != [] {
      var n := |docs| - 1;
      AllGoThroughAgain(t, again, s, docs[..n], f);
      if docs[n].exclusion == "" {
        HeldDoesNotStand(again.chunks, s, docs[n]);
      }
    }
  }

  lemma RunHolds(t: Tables, s: Setup, docs: seq<Document>, f: Faults)
    requires Legal(s.chunking) && WellFormed(t) && IndexRun(t, s, docs, f).ok
    ensures forall i | 0 <= i < |docs| && docs[i].exclusion == "" ::
              Holds(IndexRun(t, s, docs, f).tables.chunks, s, docs[i])
  {
    forall i | 0 <= i < |docs| && docs[i].exclusion == ""
      ensures Holds(IndexRun(t, s, docs, f).tables.chunks, s, docs[i])
    {
      LoopHolds(t, s, docs, f, docs[i]);
    }
  }

  /** Indexing an unchanged corpus again succeeds and changes nothing in use. */
  lemma ReindexChangesNothing(t: Tables, s: Setup, docs: seq<Document>, f: Faults)
    requires Legal(s.chunking) && WellFormed(t) && DistinctPaths(docs) && IndexRun(t, s, docs, f).ok
    ensures var once := IndexRun(t, s, docs, f).tables;
            && IndexRun(once, s, docs, f).ok
            && ActiveDocs(IndexRun(once, s, docs, f).tables, s.corpus) == ActiveDocs(once, s.corpus)
            && InUse(IndexRun(once, s, docs, f).tables, s.corpus) == InUse(once, s.corpus)
  {
    var once := IndexRun(t, s, docs, f).tables;
    RunKeepsWellFormed(t, s, docs, f);
    CompletesExactly(t, s, docs, f);
    RunHolds(t, s, docs, f);
    AllGoThroughAgain(t, once, s, docs, f);
    CompletesExactly(once, s, docs, f);
    IndexEqualsCorpus(t, s, docs, f);
    IndexEqualsCorpus(once, s, docs, f);
  }

  lemma PrefixGoesThrough(t: Tables, s: Setup, docs: seq<Document>, f: Faults)
    requires Legal(s.chunking) && docs != [] && AllGoThrough(t, s, docs, f)
    ensures AllGoThrough(t, s, docs[..|docs| - 1], f)
    ensures docs[|docs| - 1].exclusion == "" ==> !Stands(t.chunks, s, docs[|docs| - 1])
  {
  }

  lemma {:induction false} AllGoThroughEach(t: Tables, s: Setup, docs: seq<Document>, f: Faults, i: nat)
    requires Legal(s.chunking) && i < |docs| && docs[i].exclusion == "" && AllGoThrough(t, s, docs, f)
    ensures !Stands(t.chunks, s, docs[i])
    decreases |docs|
  {
    PrefixGoesThrough(t, s, docs, f);
    if i < |docs| - 1 {
      AllGoThroughEach(t, s, docs[..|docs| - 1], f, i);
    }
  }

  /**
   The index version does not digest the chunking settings, so after they are changed the same
   files can no longer be indexed: the first chunk whose text differs meets the row stored for
   its ordinal under the same version.
   */
  lemma RechunkingFails(t: Tables, s: Setup, s2: Setup, docs: seq<Document>, f: Faults, i: nat, k: nat)
    requires Legal(s.chunking) && Legal(s2.chunking) && WellFormed(t) && DistinctPaths(docs)
    requires IndexRun(t, s, docs, f).ok && s2 == s.(chunking := s2.chunking, encode := s2.encode)
    requires i < |docs| && docs[i].exclusion == ""
    requires k < |DocChunks(s, docs[i])| && k < |DocChunks(s2, docs[i])|
    requires DocChunks(s, docs[i])[k].text != DocChunks(s2, docs[i])[k].text
    ensures !IndexRun(IndexRun(t, s, docs, f).tables, s2, docs, f).ok
  {
    var once, d := IndexRun(t, s, docs, f).tables, docs[i];
    var a, b := EmbeddedChunks(s, d), EmbeddedChunks(s2, d);
    RunKeepsWellFormed(t, s, docs, f);
    RunHolds(t, s, docs, f);
    ChunksAreNumbered(s, d);
    ChunksAreNumbered(s2, d);
    RowsOfAt(s, d, a, k);
    var stored := IdOf(s, d, a[k]);
    assert stored in once.chunks && SameSlot(once.chunks[stored], RowOf(s2, d, b[k]));
    assert Blocked(once.chunks, s2, d, b[k]);
    CompletesExactly(once, s2, docs, f);
    if AllGoThrough(once, s2, docs, f) {
      AllGoThroughEach(once, s2, docs, f, i);
    }
  }

  /* ---------- one file, one document ---------- */

  /** Some indexable file after the first `i + 1` has the document id. */
  ghost predicate LaterTwin(docs: seq<Document>, i: nat, id: string) {
    i + 1 < |docs| && (LaterTwin(docs[..|docs| - 1], i, id)
                       || (docs[|docs| - 1].exclusion == "" && DocumentId(docs[|docs| - 1].path) == id))
  }

  /** A file's document is the one in use exactly when no later file has the same document id. */
  lemma {:induction false} LaterFileWins(s: Setup, docs: seq<Document>, i: nat)
    requires DistinctPaths(docs) && i < |docs| && docs[i].exclusion == ""
    ensures KeyOf(s, docs[i]) in WantedDocs(s, docs)
    ensures WantedDocs(s, docs)[KeyOf(s, docs[i])] == DocRowOf(s, docs[i]) 
            <==> !LaterTwin(docs, i, DocumentId(docs[i].path))
    decreases |docs|
  {
    var n := |docs| - 1;
    var front := docs[..n];
    if i < n {
      LaterFileWins(s, front, i);
      assert front[i] == docs[i] && docs[n].path != docs[i].path;
    }
  }

  /** The chunk is one of the file's, and no later file replaces the file's document. */
  ghost predicate Supplies(s: Setup, docs: seq<Document>, i: nat, id: ChunkId)
    requires Legal(s.chunking)
  {
    && i < |docs| && docs[i].exclusion == "" && !LaterTwin(docs, i, DocumentId(docs[i].path))
    && id in NewRows(s, docs[i])
  }

  lemma SuppliesStep(s: Setup, docs: seq<Document>, i: nat, id: ChunkId)
    requires Legal(s.chunking) && docs != []
    ensures var front, last := docs[..|docs| - 1], docs[|docs| - 1];
            && (i < |front| ==>
                  (Supplies(s, docs, i, id)
                   <==> Supplies(s, front, i, id)
                        && (last.exclusion != "" || DocumentId(last.path) != DocumentId(id.path))))
            && (i == |front| ==> (Supplies(s, docs, i, id) <==> last.exclusion == "" && id in NewRows(s, last)))
  {
    var front := docs[..|docs| - 1];
    if i < |front| {
      assert front[i] == docs[i];
      RowsOfIds(s, docs[i], EmbeddedChunks(s, docs[i]));
    }
  }

  lemma {:induction false} WantedHasSupplier(s: Setup, docs: seq<Document>, id: ChunkId) returns (i: nat)
    requires Legal(s.chunking) && id in WantedChunks(s, docs)
    ensures Supplies(s, docs, i, id) && WantedChunks(s, docs)[id] == NewRows(s, docs[i])[id]
  {
    var n := |docs| - 1;
    var front, last := docs[..n], docs[n];
    WantedStep(s, docs);
    SuppliesStep(s, docs, n, id);
    if last.exclusion == "" && id in NewRows(s, last) {
      i := n;
    } else {
      i := WantedHasSupplier(s, front, id);
      SuppliesStep(s, docs, i, id);
    }
  }

  lemma {:induction false} SuppliedIsWanted(s: Setup, docs: seq<Document>, i: nat, id: ChunkId)
    requires Legal(s.chunking) && Supplies(s, docs, i, id)
    ensures id in WantedChunks(s, docs) && WantedChunks(s, docs)[id] == NewRows(s, docs[i])[id]
    decreases |docs|
  {
    var n := |docs| - 1;
    var front, last := docs[..n], docs[n];
    var before, after := WantedChunks(s, front), WantedChunks(s, docs);
    WantedStep(s, docs);
    SuppliesStep(s, docs, i, id);
    if i < n {
      var row := NewRows(s, front[i])[id];
      assert front[i] == docs[i];
      SuppliedIsWanted(s, front, i, id);
      assert before[id] == row;
      KeptBeside(s, before, last, id);
      assert id in after && after[id] == row;
    } else {
      assert after == Without(before, DocumentId(last.path)) + NewRows(s, last);
    }
  }

  lemma KeptBeside(s: Setup, before: Chunks, last: Document, id: ChunkId)
    requires Legal(s.chunking) && id in before
    ensures DocumentId(id.path) != DocumentId(last.path) ==>
              var after := Without(before, DocumentId(last.path)) + NewRows(s, last);
              id in after && after[id] == before[id]
  {
    RowsOfIds(s, last, EmbeddedChunks(s, last));
  }

  ghost predicate HasSupplier(s: Setup, docs: seq<Document>, id: ChunkId)
    requires Legal(s.chunking)
  {
    exists i: nat :: Supplies(s, docs, i, id)
  }

  /**
   After a successful run search sees a chunk exactly when a file that no later one replaces
   supplies it, and with that file's row.
   */
  lemma ChunkInUseExactly(t: Tables, s: Setup, docs: seq<Document>, f: Faults, id: ChunkId)
    requires Legal(s.chunking) && WellFormed(t) && IndexRun(t, s, docs, f).ok
    ensures id in InUse(IndexRun(t, s, docs, f).tables, s.corpus) <==> HasSupplier(s, docs, id)
    ensures forall i: nat :: Supplies(s, docs, i, id) ==>
              InUse(IndexRun(t, s, docs, f).tables, s.corpus)[id] == NewRows(s, docs[i])[id]
  {
    IndexEqualsCorpus(t, s, docs, f);
    if id in WantedChunks(s, docs) {
      var i := WantedHasSupplier(s, docs, id);
      assert HasSupplier(s, docs, id);
    }
    forall i: nat | Supplies(s, docs, i, id)
      ensures id in WantedChunks(s, docs) && WantedChunks(s, docs)[id] == NewRows(s, docs[i])[id]
    {
      SuppliedIsWanted(s, docs, i, id);
    }
  }

  ghost predicate DistinctIds(docs: seq<Document>) {
    forall i, j | 0 <= i < j < |docs| && docs[i].exclusion == "" && docs[j].exclusion == "" ::
      DocumentId(docs[i].path) != DocumentId(docs[j].path)
  }

  lemma {:induction false} FreshId(docs: seq<Document>, d: Document)
    requires forall i | 0 <= i < |docs| && docs[i].exclusion == "" :: DocumentId(docs[i].path) != DocumentId(d.path)
    ensures DocumentId(d.path) !in Ids(docs)
  {
    if docs != [] {
      FreshId(docs[..|docs| - 1], d);
    }
  }

  lemma {:induction false} WantedIds(s: Setup, docs: seq<Document>)
    requires Legal(s.chunking)
    ensures forall k :: k in WantedDocs(s, docs) ==> k.id in Ids(docs)
    ensures forall id :: id in WantedChunks(s, docs) ==> DocumentId(id.path) in Ids(docs)
  {
    if docs != [] {
      WantedIds(s, docs[..|docs| - 1]);
      RowsOfIds(s, docs[|docs| - 1], EmbeddedChunks(s, docs[|docs| - 1]));
    }
  }

  lemma SizeOfUnion(a: Chunks, b: Chunks)
    requires a.Keys !! b.Keys
    ensures |a + b| == |a| + |b|
  {
    assert (a + b).Keys == a.Keys + b.Keys;
  }

  /** With distinct document ids the report counts the documents and chunks in use. */
  lemma {:induction false} ReportCountsWhatIsWanted(s: Setup, docs: seq<Document>)
    requires Legal(s.chunking) && DistinctIds(docs)
    ensures ReportOf(s, docs).documents == |WantedDocs(s, docs)|
    ensures ReportOf(s, docs).chunks == |WantedChunks(s, docs)|
    ensures ReportOf(s, docs).documents + ReportOf(s, docs).excluded == |docs|
  {
    if docs != [] {
      var front, d := docs[..|docs| - 1], docs[|docs| - 1];
      ReportCountsWhatIsWanted(s, front);
      if d.exclusion == "" {
        FreshId(front, d);
        WantedIds(s, front);
        CountStep(s, WantedDocs(s, front), WantedChunks(s, front), d, Ids(front));
      }
    }
  }

  lemma CountStep(s: Setup, docs: map<DocKey, DocRow>, chunks: Chunks, d: Document, ids: set<string>)
    requires Legal(s.chunking) && DocumentId(d.path) !in ids
    requires forall k :: k in docs ==> k.id in ids
    requires forall id :: id in chunks ==> DocumentId(id.path) in ids
    ensures |docs[KeyOf(s, d) := DocRowOf(s, d)]| == |docs| + 1
    ensures |Without(chunks, DocumentId(d.path)) + NewRows(s, d)| == |chunks| + |DocChunks(s, d)|
  {
    assert Without(chunks, DocumentId(d.path)) == chunks;
    ChunksAreNumbered(s, d);
    RowsOfSize(s, d, EmbeddedChunks(s, d));
    RowsOfIds(s, d, EmbeddedChunks(s, d));
    SizeOfUnion(chunks, NewRows(s, d));
  }
}
