/** sort.Strings: the lexicographic order on strings, and sorting by it. */
module Sorting {
  predicate Before(a: string, b: string) {
    b != [] && (a == [] || a[0] < b[0] || (a[0] == b[0] && Before(a[1..], b[1..])))
  }

  ghost predicate Ascending(words: seq<string>) {
    forall i, j :: 0 <= i < j < |words| ==> Before(words[i], words[j])
  }

  lemma {:induction false} BeforeIsTotal(a: string, b: string)
    requires a != b
    ensures Before(a, b) || Before(b, a)
    decreases |a|
  {
    if a != [] && b != [] && a[0] == b[0] {
      assert a == [a[0]] + a[1..] && b == [b[0]] + b[1..];
      BeforeIsTotal(a[1..], b[1..]);
    }
  }

  lemma {:induction false} BeforeIsTransitive(a: string, b: string, c: string)
    requires Before(a, b) && Before(b, c)
    ensures Before(a, c)
    decreases |a|
  {
    if a != [] && a[0] == b[0] == c[0] {
      BeforeIsTransitive(a[1..], b[1..], c[1..]);
    }
  }

  lemma {:induction false} BeforeIsStrict(a: string)
    ensures !Before(a, a)
  {
    if a != [] {
      BeforeIsStrict(a[1..]);
    }
  }

  function Insert(w: string, words: seq<string>): seq<string> {
    if words == [] then [w] else if Before(w, words[0]) then [w] + words else [words[0]] + Insert(w, words[1..])
  }

  function Sort(words: seq<string>): seq<string> {
    if words == [] then [] else Insert(words[0], Sort(words[1..]))
  }

  lemma {:induction false} InsertKeeps(w: string, words: seq<string>)
    ensures forall x :: x in Insert(w, words) <==> x == w || x in words
    ensures |Insert(w, words)| == |words| + 1
    ensures Ascending(words) && w !in words ==> Ascending(Insert(w, words))
  {
    hide Before;
    if words == [] {
      SingleAscends(w);
    } else {
      var head, tail := words[0], words[1..];
      assert words == [head] + tail;
      if Before(w, head) {
        PrependAscends(w, words);
      } else {
        InsertKeeps(w, tail);
        if Ascending(words) && w !in words {
          BeforeIsTotal(w, head);
          assert head in words && forall x :: x in tail ==> x in words && Before(head, x);
          AllBefore(head, Insert(w, tail));
        }
      }
    }
  }

  lemma SingleAscends(w: string)
    ensures Ascending([w])
  {
  }

  lemma AllBefore(w: string, words: seq<string>)
    requires Ascending(words) && forall x :: x in words ==> Before(w, x)
    ensures Ascending([w] + words)
  {
    hide Before;
    assert forall i :: 0 <= i < |words| ==> words[i] in words;
  }

  lemma PrependAscends(w: string, words: seq<string>)
    requires words != [] && Before(w, words[0])
    ensures Ascending(words) ==> Ascending([w] + words)
  {
    hide Before;
    if Ascending(words) {
      forall x | x in words
        ensures Before(w, x)
      {
        var i :| 0 <= i < |words| && words[i] == x;
        if i > 0 {
          BeforeIsTransitive(w, words[0], x);
        }
      }
      AllBefore(w, words);
    }
  }

  predicate NoRepeats(words: seq<string>) {
    forall i, j :: 0 <= i < j < |words| ==> words[i] != words[j]
  }

  /** Sorting keeps every word; words without repetition come out strictly ascending. */
  lemma {:induction false} SortKeeps(words: seq<string>)
    ensures forall x :: x in Sort(words) <==> x in words
    ensures |Sort(words)| == |words|
    ensures NoRepeats(words) ==> Ascending(Sort(words))
  {
    hide Before, Insert;
    if words != [] {
      assert words == [words[0]] + words[1..];
      SortKeeps(words[1..]);
      InsertKeeps(words[0], Sort(words[1..]));
      if NoRepeats(words) {
        assert NoRepeats(words[1..]);
        assert words[0] !in words[1..];
      }
    } else {
      assert Ascending([]);
    }
  }

  lemma HeadIsFirst(w: string, words: seq<string>)
    requires Ascending([w] + words)
    ensures Ascending(words) && w !in words
  {
    hide Before;
    BeforeIsStrict(w);
    var all := [w] + words;
    assert all[0] == w && forall i :: 0 <= i < |words| ==> all[i + 1] == words[i];
    forall i | 0 <= i < |words|
      ensures words[i] != w
    {
      assert Before(all[0], all[i + 1]);
    }
  }

  /** An ascending list is determined by its words, so two equal sets of scopes are stored as the same list. */
  lemma {:induction false} AscendingIsCanonical(a: seq<string>, b: seq<string>)
    requires Ascending(a) && Ascending(b) && forall x :: x in a <==> x in b
    ensures a == b
  {
    hide Before;
    if b != [] {
      assert b[0] in b;
    }
    if a != [] {
      assert a[0] in a && a[0] in b;
      assert b[0] in b && b[0] in a;
      var i :| 0 <= i < |b| && b[i] == a[0];
      var j :| 0 <= j < |a| && a[j] == b[0];
      if i > 0 && j > 0 {
        BeforeIsTransitive(a[0], b[0], a[0]);
        BeforeIsStrict(a[0]);
        assert false;
      }
      assert a == [a[0]] + a[1..] && b == [b[0]] + b[1..];
      HeadIsFirst(a[0], a[1..]);
      HeadIsFirst(b[0], b[1..]);
      forall x
        ensures x in a[1..] <==> x in b[1..]
      {
        assert x in a <==> x == a[0] || x in a[1..];
        assert x in b <==> x == b[0] || x in b[1..];
      }
      AscendingIsCanonical(a[1..], b[1..]);
    }
  }
}
