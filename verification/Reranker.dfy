/**
 `TeiReranker.rerank`: the provider answers with rows in any order, each naming the text it
 scores; the scores are scattered back into the order of the texts. Only an answer that scores
 every text exactly once, with finite scores, is accepted.
 */
module Reranker {
  import opened Wrappers
  import opened Texts

  datatype Score = Finite(value: real) | NotFinite

  /** A row of the answer; a field that is missing or cannot be converted is none. */
  datatype Row = Row(index: Option<int>, score: Option<Score>) | NotARow

  datatype Answer = Rows(rows: seq<Row>) | NotAList | Raised

  predicate UsableRow(row: Row, n: nat) {
    row.Row? && row.index.Some? && row.score.Some? && 0 <= row.index.value < n && row.score.value.Finite?
  }

  /** The rows' indices are a permutation of the texts' positions, with finite scores. */
  ghost predicate ScoresEachOnce(rows: seq<Row>, n: nat) {
    && |rows| == n
    && (forall i :: 0 <= i < n ==> UsableRow(rows[i], n))
    && (forall i, j | 0 <= i < j < n :: rows[i].index != rows[j].index)
  }

  function Filled(s: seq<Option<real>>): nat {
    if s == [] then 0 else Filled(s[..|s| - 1]) + if s[|s| - 1].Some? then 1 else 0
  }

  lemma {:induction false} FilledOneMore(s: seq<Option<real>>, i: nat, x: real)
    requires i < |s| && s[i].None?
    ensures Filled(s[i := Some(x)]) == Filled(s) + 1
    decreases |s|
  {
    var n := |s| - 1;
    if i < n {
      assert s[i := Some(x)][..n] == s[..n][i := Some(x)];
      FilledOneMore(s[..n], i, x);
    } else {
      assert s[i := Some(x)][..n] == s[..n];
    }
  }

  lemma {:induction false} FilledAtMost(s: seq<Option<real>>)
    ensures Filled(s) <= |s|
    ensures Filled(s) == |s| <==> forall i :: 0 <= i < |s| ==> s[i].Some?
  {
    if s != [] {
      var n := |s| - 1;
      FilledAtMost(s[..n]);
      assert forall i :: 0 <= i < n ==> s[..n][i] == s[i];
    }
  }

  lemma {:induction false} FilledNone(s: seq<Option<real>>)
    requires forall i :: 0 <= i < |s| ==> s[i].None?
    ensures Filled(s) == 0
  {
    if s != [] {
      FilledNone(s[..|s| - 1]);
    }
  }

  /** The rows read so far, and the slots they filled. */
  ghost predicate Scattered(slots: seq<Option<real>>, rows: seq<Row>, k: nat, n: nat)
    requires k <= |rows|
  {
    && |slots| == n
    && (forall i :: 0 <= i < k ==> UsableRow(rows[i], n))
    && (forall i, j | 0 <= i < j < k :: rows[i].index != rows[j].index)
    && (forall i :: 0 <= i < k ==> slots[rows[i].index.value] == Some(rows[i].score.value.value))
    && (forall m :: 0 <= m < n && slots[m].Some? ==> exists i :: 0 <= i < k && rows[i].index == Some(m))
    && Filled(slots) == k
  }

  lemma ScatterOne(slots: seq<Option<real>>, rows: seq<Row>, k: nat, n: nat)
    requires k < |rows| && Scattered(slots, rows, k, n) && UsableRow(rows[k], n)
    requires slots[rows[k].index.value].None?
    ensures Scattered(slots[rows[k].index.value := Some(rows[k].score.value.value)], rows, k + 1, n)
  {
    var m := rows[k].index.value;
    FilledOneMore(slots, m, rows[k].score.value.value);
    assert forall i :: 0 <= i < k ==> rows[i].index.value != m;
  }

  /** A full slot was filled by an earlier row. */
  lemma FullSlotWasNamed(slots: seq<Option<real>>, rows: seq<Row>, k: nat, n: nat)
    requires k < |rows| == n && Scattered(slots, rows, k, n) && UsableRow(rows[k], n)
    requires slots[rows[k].index.value].Some?
    ensures !ScoresEachOnce(rows, n)
  {
    var m := rows[k].index.value;
    var i :| 0 <= i < k && rows[i].index == Some(m);
  }

  predicate BlankInput(query: string, texts: seq<string>) {
    AllBlank(query) || texts == [] || exists i :: 0 <= i < |texts| && AllBlank(texts[i])
  }

  /**
   `rerank`. Its closing check that no slot stayed empty is left out here because it never
   fires: as many usable rows with different indices as there are slots fill them all.
   */
  method Rerank(query: string, texts: seq<string>, answer: Answer) returns (r: Result<seq<real>>)
    ensures r.Ok? <==> !BlankInput(query, texts) && answer.Rows? && ScoresEachOnce(answer.rows, |texts|)
    ensures r.Ok? ==> |r.value| == |texts|
                      && forall i :: 0 <= i < |texts| ==>
                           r.value[answer.rows[i].index.value] == answer.rows[i].score.value.value
    ensures r.Err? && BlankInput(query, texts) ==> r.error == "reranker_input_empty"
    ensures r.Err? && !BlankInput(query, texts) && answer.Raised? ==> r.error == "reranker_provider_request_failed"
    ensures r.Err? && !BlankInput(query, texts) && !answer.Raised? ==> r.error == "reranker_response_invalid"
  {
    if BlankInput(query, texts) {
      return Err("reranker_input_empty");
    }
    if answer.Raised? {
      return Err("reranker_provider_request_failed");
    }
    var n := |texts|;
    if answer.NotAList? || |answer.rows| != n {
      return Err("reranker_response_invalid");
    }
    var rows := answer.rows;
    var ordered := new Option<real>[n](i => None);
    FilledNone(ordered[..]);
    for k := 0 to n
      invariant Scattered(ordered[..], rows, k, n)
    {
      var row := rows[k];
      if !UsableRow(row, n) {
        return Err("reranker_response_invalid");
      }
      if ordered[row.index.value].Some? {
        FullSlotWasNamed(ordered[..], rows, k, n);
        return Err("reranker_response_invalid");
      }
      ScatterOne(ordered[..], rows, k, n);
      ordered[row.index.value] := Some(row.score.value.value);
    }
    FilledAtMost(ordered[..]);
    assert forall i :: 0 <= i < n ==> ordered[..][i].Some?;
    assert ScoresEachOnce(rows, n);
    var slots := ordered[..];
    r := Ok(seq(n, i requires 0 <= i < n => slots[i].GetOr(0.0)));
  }
}
