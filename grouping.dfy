/**
 * `Suite.init` (lib/index.js): the discovered snippets are grouped by runner
 * name into `snippetsTree`, whose keys keep the order in which each runner
 * was first seen (the iteration order of `Object.keys`).
 */
module Grouping {
  import opened Lifecycle

  /** The key order after adding the runners of `sns`, in order, to the keys `ks`. */
  function Extend(ks: seq<string>, sns: seq<Snippet>): seq<string>
    decreases |sns|
  {
    if sns == [] then ks
    else
      var k := Extend(ks, sns[..|sns| - 1]);
      var r := sns[|sns| - 1].runner;
      if r in k then k else k + [r]
  }

  /** The runner names of `sns` in order of first appearance. */
  function RunnerOrder(sns: seq<Snippet>): seq<string> {
    Extend([], sns)
  }

  /** The snippets of `sns` that belong to runner `r`, in order. */
  function Bucket(sns: seq<Snippet>, r: string): seq<Snippet>
    decreases |sns|
  {
    if sns == [] then []
    else Bucket(sns[..|sns| - 1], r) + (if sns[|sns| - 1].runner == r then [sns[|sns| - 1]] else [])
  }

  predicate Distinct(ks: seq<string>) {
    forall i, j :: 0 <= i < j < |ks| ==> ks[i] != ks[j]
  }

  /** The snippets of the tree in key order: the order the phases visit them. */
  function Concat(tree: map<string, seq<Snippet>>, ks: seq<string>): seq<Snippet>
    requires forall i :: 0 <= i < |ks| ==> ks[i] in tree
  {
    if ks == [] then [] else tree[ks[0]] + Concat(tree, ks[1..])
  }

  /** Adding the next snippet of `files` to the grouping. */
  lemma ExtendStep(ks: seq<string>, files: seq<Snippet>, i: nat)
    requires i < |files|
    ensures Extend(ks, files[..i + 1]) ==
      var k := Extend(ks, files[..i]); if files[i].runner in k then k else k + [files[i].runner]
  {
    assert files[..i + 1][..i] == files[..i];
  }

  lemma BucketStep(files: seq<Snippet>, i: nat, r: string)
    requires i < |files|
    ensures Bucket(files[..i + 1], r) == Bucket(files[..i], r) + (if files[i].runner == r then [files[i]] else [])
  {
    assert files[..i + 1][..i] == files[..i];
  }

  /** Existing keys keep their place; new runners are appended in the order they are first seen. */
  lemma {:induction false} ExtendPrefix(ks: seq<string>, sns: seq<Snippet>, n: nat)
    requires n <= |sns|
    ensures ks <= Extend(ks, sns[..n]) <= Extend(ks, sns)
    decreases |sns|
  {
    if sns == [] {
      assert sns[..n] == sns;
    } else if n == |sns| {
      assert sns[..n] == sns;
      ExtendPrefix(ks, sns[..|sns| - 1], |sns| - 1);
      assert sns[..|sns| - 1][..|sns| - 1] == sns[..|sns| - 1];
    } else {
      ExtendPrefix(ks, sns[..|sns| - 1], n);
      assert sns[..|sns| - 1][..n] == sns[..n];
    }
  }

  /** A key is present afterwards exactly when it was before or some snippet names it. */
  lemma {:induction false} ExtendMembers(ks: seq<string>, sns: seq<Snippet>, r: string)
    ensures r in Extend(ks, sns) <==> r in ks || exists i :: 0 <= i < |sns| && sns[i].runner == r
    decreases |sns|
  {
    if sns != [] {
      var init := sns[..|sns| - 1];
      ExtendMembers(ks, init, r);
      if exists i :: 0 <= i < |sns| && sns[i].runner == r {
        var i :| 0 <= i < |sns| && sns[i].runner == r;
        if i < |sns| - 1 {
          assert init[i] == sns[i];
        }
      }
      if exists i :: 0 <= i < |init| && init[i].runner == r {
        var i :| 0 <= i < |init| && init[i].runner == r;
        assert sns[i] == init[i];
      }
    }
  }

  /** No key is ever added twice. */
  lemma {:induction false} ExtendDistinct(ks: seq<string>, sns: seq<Snippet>)
    requires Distinct(ks)
    ensures Distinct(Extend(ks, sns))
    decreases |sns|
  {
    if sns != [] {
      ExtendDistinct(ks, sns[..|sns| - 1]);
    }
  }

  /** Grouping keeps the discovery order: it distributes over concatenation. */
  lemma {:induction false} BucketAppend(a: seq<Snippet>, b: seq<Snippet>, r: string)
    ensures Bucket(a + b, r) == Bucket(a, r) + Bucket(b, r)
    decreases |b|
  {
    if b == [] {
      assert a + b == a;
    } else {
      var b' := b[..|b| - 1];
      assert (a + b)[..|a + b| - 1] == a + b';
      BucketAppend(a, b', r);
    }
  }

  /** A bucket holds exactly the snippets of its runner. */
  lemma {:induction false} BucketMembers(sns: seq<Snippet>, r: string, x: Snippet)
    ensures x in Bucket(sns, r) <==> x in sns && x.runner == r
    decreases |sns|
  {
    if sns != [] {
      var init := sns[..|sns| - 1];
      BucketMembers(init, r, x);
      assert sns == init + [sns[|sns| - 1]];
    }
  }

  /** The grouping of `sns`: every runner that appears, with its bucket. */
  function Tree(sns: seq<Snippet>): (tree: map<string, seq<Snippet>>)
    ensures forall r :: r in tree <==> r in RunnerOrder(sns)
  {
    map r | r in RunnerOrder(sns) :: Bucket(sns, r)
  }

  /** The buckets of the keys `ks`, concatenated. */
  function Groups(sns: seq<Snippet>, ks: seq<string>): seq<Snippet> {
    if ks == [] then [] else Bucket(sns, ks[0]) + Groups(sns, ks[1..])
  }

  lemma {:induction false} GroupsAdd(sns: seq<Snippet>, x: Snippet, ks: seq<string>)
    requires Distinct(ks)
    ensures multiset(Groups(sns + [x], ks)) == multiset(Groups(sns, ks)) + (if x.runner in ks then multiset{x} else multiset{})
    decreases |ks|
  {
    if ks != [] {
      BucketAppend(sns, [x], ks[0]);
      assert Bucket([x], ks[0]) == Bucket([x][..0], ks[0]) + (if x.runner == ks[0] then [x] else []);
      GroupsAdd(sns, x, ks[1..]);
      assert ks[0] == x.runner ==> x.runner !in ks[1..];
      assert x.runner in ks <==> x.runner == ks[0] || x.runner in ks[1..];
    }
  }

  /** With distinct keys that name every runner, the buckets are a permutation of the snippets. */
  lemma {:induction false} GroupsCover(sns: seq<Snippet>, ks: seq<string>)
    requires Distinct(ks)
    requires forall i :: 0 <= i < |sns| ==> sns[i].runner in ks
    ensures multiset(Groups(sns, ks)) == multiset(sns)
    decreases |sns|
  {
    if sns == [] {
      GroupsEmpty(ks);
    } else {
      var init := sns[..|sns| - 1];
      var x := sns[|sns| - 1];
      assert sns == init + [x];
      GroupsCover(init, ks);
      GroupsAdd(init, x, ks);
    }
  }

  lemma {:induction false} GroupsEmpty(ks: seq<string>)
    ensures Groups([], ks) == []
    decreases |ks|
  {
    if ks != [] {
      GroupsEmpty(ks[1..]);
    }
  }

  lemma {:induction false} ConcatGroups(tree: map<string, seq<Snippet>>, sns: seq<Snippet>, ks: seq<string>)
    requires forall i :: 0 <= i < |ks| ==> ks[i] in tree && tree[ks[i]] == Bucket(sns, ks[i])
    ensures Concat(tree, ks) == Groups(sns, ks)
    decreases |ks|
  {
    if ks != [] {
      ConcatGroups(tree, sns, ks[1..]);
    }
  }

  /**
   * Every discovered snippet sits in exactly one bucket: the buckets, in key
   * order, are a permutation of the discovered snippets.
   */
  lemma TreePartition(sns: seq<Snippet>)
    ensures Distinct(RunnerOrder(sns))
    ensures multiset(Concat(Tree(sns), RunnerOrder(sns))) == multiset(sns)
  {
    var ks := RunnerOrder(sns);
    ExtendDistinct([], sns);
    forall i | 0 <= i < |sns| ensures sns[i].runner in ks {
      ExtendMembers([], sns, sns[i].runner);
    }
    ConcatGroups(Tree(sns), sns, ks);
    GroupsCover(sns, ks);
  }
}
