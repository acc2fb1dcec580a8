/**
 * Concrete runs of the output matcher on literal `run` outputs, with
 * patterns compared to rows for equality (the simplest `RegExp`, one that
 * matches a whole line of its own literal text).
 */
module Scenarios {
  import opened Basics
  import opened Text
  import opened Matching

  /** A pattern that matches exactly the row equal to it. */
  function Literal(p: string, row: string): (r: bool)
    ensures r <==> p == row
  {
    p == row
  }

  lemma NoRows()
    ensures SplitLines("") == [""]
  {
    assert CharIndexFrom("", '\n', 0) == None;
  }

  lemma OneRow(b: string)
    requires CleanRow(b)
    ensures SplitLines(b + "\n") == [b, ""]
  {
    NoRows();
    SplitLf(b, "");
    assert b + "\n" + "" == b + "\n";
  }

  lemma TwoRows(a: string, b: string)
    requires CleanRow(a) && CleanRow(b)
    ensures SplitLines(a + "\n" + b + "\n") == [a, b, ""]
  {
    OneRow(b);
    SplitLf(a, b + "\n");
    assert a + "\n" + b + "\n" == a + "\n" + (b + "\n");
  }

  /** Both lines present, in the expected order: the snippet passes. */
  lemma InOrderPasses()
    ensures Check(["connecting", "connected"], SplitLines("connecting\nconnected\n"), Literal) == Pass
  {
    TwoRows("connecting", "connected");
    assert "connecting\nconnected\n" == "connecting" + "\n" + "connected" + "\n";
    InOrderRows();
  }

  lemma InOrderRows()
    ensures Check(["connecting", "connected"], ["connecting", "connected", ""], Literal) == Pass
  {
    var ps, rows := ["connecting", "connected"], ["connecting", "connected", ""];
    assert FirstMatch(ps[0], rows, Literal, 0, 3) == Some(0);
    assert FirstMatch(ps[1], rows, Literal, 1, 3) == Some(1);
    assert ScanAt(ps, rows, Literal, 2, 2) == Pass;
  }

  /** `B` is printed only before the row that matched `A`: out of order. */
  lemma SwappedIsOutOfOrder()
    ensures Check(["A", "B"], SplitLines("B\nA\n"), Literal) == OutOfOrder("B", "A")
  {
    TwoRows("B", "A");
    var rows := ["B", "A", ""];
    assert FirstMatch("A", rows, Literal, 0, 3) == Some(1);
    assert FirstMatch("B", rows, Literal, 2, 3) == None;
    assert FirstMatch("B", rows, Literal, 0, 2) == Some(0);
  }

  /** The first pattern appears nowhere: it is reported missing. */
  lemma AbsentIsMissing()
    ensures Check(["starting", "ready"], SplitLines("ready\n"), Literal) == Missing("starting")
  {
    OneRow("ready");
    assert "ready\n" == "ready" + "\n";
    var rows := ["ready", ""];
    assert FirstMatch("starting", rows, Literal, 0, 2) == None;
  }

  /** No output at all while one line is expected: missing. */
  lemma SilentIsMissing(p: string)
    requires p != ""
    ensures Check([p], SplitLines(""), Literal) == Missing(p)
  {
    NoRows();
    assert FirstMatch(p, [""], Literal, 0, 1) == None;
  }
}
