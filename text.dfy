/**
 * The two JavaScript string operations the engine relies on:
 * `String.prototype.replace` with a plain string pattern (only the first
 * occurrence is replaced) and `String.prototype.split(/\r?\n/)`.
 */
module Text {
  import opened Basics

  /** `t` occurs in `s` starting at position `i`. */
  predicate OccursAt(s: string, t: string, i: nat) {
    i + |t| <= |s| && s[i..i + |t|] == t
  }

  predicate Contains(s: string, t: string) {
    exists i: nat :: i <= |s| && OccursAt(s, t, i)
  }

  /** The first occurrence of `t` in `s` at or after position `k`. */
  function IndexFrom(s: string, t: string, k: nat): (r: Option<nat>)
    ensures r.Some? ==> k <= r.value && OccursAt(s, t, r.value)
    ensures r.Some? ==> forall j: nat :: k <= j < r.value ==> !OccursAt(s, t, j)
    ensures r.None? ==> forall j: nat :: k <= j ==> !OccursAt(s, t, j)
    decreases |s| - k
  {
    if k + |t| > |s| then None
    else if s[k..k + |t|] == t then Some(k)
    else IndexFrom(s, t, k + 1)
  }

  /** `String.prototype.indexOf`, with `None` for -1. */
  function IndexOf(s: string, t: string): (r: Option<nat>)
    ensures r.Some? <==> Contains(s, t)
    ensures r.Some? ==> OccursAt(s, t, r.value) && forall j: nat :: j < r.value ==> !OccursAt(s, t, j)
  {
    IndexFrom(s, t, 0)
  }

  /** `s.replace(t, b)` for a string `t`: only the first occurrence is replaced. */
  function Replace(s: string, t: string, b: string): (r: string)
    ensures !Contains(s, t) ==> r == s
    ensures Contains(s, t) ==> |r| == |s| - |t| + |b|
  {
    match IndexOf(s, t)
    case None => s
    case Some(i) => s[..i] + b + s[i + |t|..]
  }

  /** Replacing the first occurrence: everything before and after it is kept. */
  lemma ReplaceFirst(u: string, t: string, v: string, b: string)
    requires forall j: nat :: j < |u| ==> !OccursAt(u + t + v, t, j)
    ensures Replace(u + t + v, t, b) == u + b + v
  {
    var s := u + t + v;
    assert s[|u|..|u| + |t|] == t;
    assert OccursAt(s, t, |u|);
    var i := IndexOf(s, t);
    assert i == Some(|u|);
    assert s[..|u|] == u;
    assert s[|u| + |t|..] == v;
  }

  /** The first position at or after `k` that holds `c`. */
  function CharIndexFrom(s: string, c: char, k: nat): (r: Option<nat>)
    ensures r.Some? ==> k <= r.value < |s| && s[r.value] == c
    ensures r.Some? ==> forall j :: k <= j < r.value ==> s[j] != c
    ensures r.None? ==> forall j :: k <= j < |s| ==> s[j] != c
    decreases |s| - k
  {
    if k >= |s| then None
    else if s[k] == c then Some(k)
    else CharIndexFrom(s, c, k + 1)
  }

  /**
   * `s.split(/\r?\n/)`: cut at every line feed, dropping a carriage return
   * that immediately precedes it. The result is never empty.
   */
  function SplitLines(s: string): (rows: seq<string>)
    ensures |rows| >= 1
    ensures forall k :: 0 <= k < |rows| ==> '\n' !in rows[k]
    decreases |s|
  {
    match CharIndexFrom(s, '\n', 0)
    case None => [s]
    case Some(i) =>
      var j := if i > 0 && s[i - 1] == '\r' then i - 1 else i;
      [s[..j]] + SplitLines(s[i + 1..])
  }

  /** Rows joined with a bare line feed: the inverse of `SplitLines`. */
  function JoinLines(rows: seq<string>): string
    requires |rows| >= 1
  {
    if |rows| == 1 then rows[0] else rows[0] + "\n" + JoinLines(rows[1..])
  }

  /** A row that the split could have produced before a line feed. */
  predicate CleanRow(row: string) {
    '\n' !in row && (row == [] || row[|row| - 1] != '\r')
  }

  /** Splitting rows joined by line feeds gives the rows back. */
  lemma {:induction false} SplitJoin(rows: seq<string>)
    requires |rows| >= 1
    requires forall k :: 0 <= k < |rows| - 1 ==> CleanRow(rows[k])
    requires '\n' !in rows[|rows| - 1]
    ensures SplitLines(JoinLines(rows)) == rows
  {
    if |rows| == 1 {
      var s := rows[0];
      forall j | 0 <= j < |s| ensures s[j] != '\n' {
        assert s[j] in s;
      }
    } else {
      var head := rows[0];
      assert CleanRow(head);
      var rest := JoinLines(rows[1..]);
      var s := head + "\n" + rest;
      assert s[|head|] == '\n';
      forall j | 0 <= j < |head| ensures s[j] != '\n' {
        assert s[j] == head[j];
        assert head[j] in head;
      }
      assert CharIndexFrom(s, '\n', 0) == Some(|head|);
      assert s[..|head|] == head;
      assert s[|head| + 1..] == rest;
      SplitJoin(rows[1..]);
    }
  }

  /** Without carriage returns, joining the split rows gives the text back. */
  lemma {:induction false} JoinSplit(s: string)
    requires '\r' !in s
    ensures JoinLines(SplitLines(s)) == s
    decreases |s|
  {
    match CharIndexFrom(s, '\n', 0)
    case None =>
    case Some(i) =>
      if i > 0 {
        assert s[i - 1] in s;
      }
      var tail := s[i + 1..];
      NotInSuffix(s, '\r', i + 1);
      var rows := SplitLines(s);
      assert rows == [s[..i]] + SplitLines(tail);
      assert rows[1..] == SplitLines(tail);
      JoinSplit(tail);
      assert JoinLines(rows) == s[..i] + "\n" + tail;
      assert s == s[..i] + "\n" + tail;
  }

  lemma NotInSuffix(s: string, c: char, k: nat)
    requires c !in s && k <= |s|
    ensures c !in s[k..]
  {
    forall j | 0 <= j < |s| - k ensures s[k..][j] != c {
      assert s[k..][j] == s[k + j];
      assert s[k + j] in s;
    }
  }

  /** A bare line feed ends a row that does not end with a carriage return. */
  lemma SplitLf(a: string, b: string)
    requires CleanRow(a)
    ensures SplitLines(a + "\n" + b) == [a] + SplitLines(b)
  {
    var s := a + "\n" + b;
    forall j | 0 <= j < |a| ensures s[j] != '\n' {
      assert s[j] == a[j];
      assert a[j] in a;
    }
    assert s[|a|] == '\n';
    assert CharIndexFrom(s, '\n', 0) == Some(|a|);
    assert s[..|a|] == a;
    assert s[|a| + 1..] == b;
  }

  /** A CRLF line ending is removed together with its carriage return. */
  lemma SplitCrLf(a: string, b: string)
    requires '\n' !in a
    ensures SplitLines(a + "\r\n" + b) == [a] + SplitLines(b)
  {
    var s := a + "\r\n" + b;
    forall j | 0 <= j < |a| ensures s[j] != '\n' {
      assert s[j] == a[j];
      assert a[j] in a;
    }
    assert s[|a|] == '\r';
    assert s[|a| + 1] == '\n';
    assert CharIndexFrom(s, '\n', 0) == Some(|a| + 1);
    assert s[..|a|] == a;
    assert s[|a| + 2..] == b;
  }
}
