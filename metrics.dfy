/**
 * The per-group figures that both llm_tester.py (`display_summary`) and
 * result_analyzer.py (`compare_platforms`, `compare_models`) compute over a
 * group of records: the successful rows, and the `total_tokens` counts of
 * the rows whose usage carries one. Records are generic here: the caller
 * says how to read a row's success flag and usage dict.
 */
module Metrics {
  import opened Seqs
  import opened BaseClient

  /** `group[group['success'] == True]`: the successful rows in row order. */
  function Successes<T(!new)>(rows: seq<T>, ok: T -> bool): (r: seq<T>)
    ensures |r| <= |rows|
    ensures forall x :: x in r <==> x in rows && ok(x)
  {
    Select(rows, ok, true)
  }

  /**
   * The successful rows are exactly the successful rows of `rows`, each
   * occurrence kept, in row order: the `j`-th is the row at the `j`-th
   * successful position. Success counts are therefore exact.
   */
  lemma SuccessesExact<T(!new)>(rows: seq<T>, ok: T -> bool)
    ensures forall x :: multiset(Successes(rows, ok))[x] == if ok(x) then multiset(rows)[x] else 0
    ensures |Successes(rows, ok)| == |Matching(rows, ok, true)|
    ensures forall j :: 0 <= j < |Successes(rows, ok)| ==> Successes(rows, ok)[j] == rows[Matching(rows, ok, true)[j]]
  {
    SelectAt(rows, ok, true);
    SelectCount(rows, ok, true);
  }

  /** The `total_tokens` of each row whose usage is non-empty and has that key, in row order. */
  function TokenCounts<T>(rows: seq<T>, usage: T -> map<string, int>): seq<int> {
    if |rows| == 0 then []
    else
      var p := TokenCounts(rows[..|rows| - 1], usage);
      var u := usage(rows[|rows| - 1]);
      if TotalTokens in u then p + [u[TotalTokens]] else p
  }

  /** Only rows carrying the key contribute, so there are never more counts than rows. */
  lemma {:induction false} TokenCountsBound<T>(rows: seq<T>, usage: T -> map<string, int>)
    ensures |TokenCounts(rows, usage)| <= |rows|
  {
    if |rows| > 0 {
      TokenCountsBound(rows[..|rows| - 1], usage);
    }
  }

  /** When every row's usage has `total_tokens`, the counts are exactly those values, row by row. */
  lemma {:induction false} TokenCountsComplete<T>(rows: seq<T>, usage: T -> map<string, int>)
    requires forall i :: 0 <= i < |rows| ==> TotalTokens in usage(rows[i])
    ensures |TokenCounts(rows, usage)| == |rows|
    ensures forall i :: 0 <= i < |rows| ==> TokenCounts(rows, usage)[i] == usage(rows[i])[TotalTokens]
  {
    if |rows| > 0 {
      var p := rows[..|rows| - 1];
      assert forall i :: 0 <= i < |p| ==> p[i] == rows[i];
      TokenCountsComplete(p, usage);
    }
  }

  /** No row carries the key: there are no counts, and the average falls back to 0. */
  lemma {:induction false} TokenCountsNone<T>(rows: seq<T>, usage: T -> map<string, int>)
    requires forall i :: 0 <= i < |rows| ==> TotalTokens !in usage(rows[i])
    ensures TokenCounts(rows, usage) == []
  {
    if |rows| > 0 {
      var p := rows[..|rows| - 1];
      assert forall i :: 0 <= i < |p| ==> p[i] == rows[i];
      TokenCountsNone(p, usage);
    }
  }

  /** The loop `for usage in success_data['usage']: if usage and 'total_tokens' in usage: tokens.append(...)`. */
  method CollectTokens<T>(rows: seq<T>, usage: T -> map<string, int>) returns (tokens: seq<int>)
    ensures tokens == TokenCounts(rows, usage)
  {
    tokens := [];
    for i := 0 to |rows|
      invariant tokens == TokenCounts(rows[..i], usage)
    {
      assert rows[..i + 1][..i] == rows[..i];
      var u := usage(rows[i]);
      if |u| > 0 && TotalTokens in u {
        tokens := tokens + [u[TotalTokens]];
      }
    }
    TakeAll(rows);
  }
}
