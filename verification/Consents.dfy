/** Consent records (consent.go, store.go): how they are keyed, compared and merged. */
module Consents {
  import opened Scopes
  import opened Sorting

  function ConsentKey(userID: string, clientID: string): string {
    userID + "|" + clientID
  }

  function RequestedScopes(scope: string): seq<string> {
    Sort(Dedup(Fields(scope), []))
  }

  predicate Covers(granted: seq<string>, want: seq<string>) {
    forall w :: w in want ==> w in granted
  }

  function MergeScopes(a: seq<string>, b: seq<string>): seq<string> {
    Sort(Dedup(b, Dedup(a, [])))
  }

  predicate EndsWith(s: string, tail: string) {
    |tail| <= |s| && s[|s| - |tail|..] == tail
  }

  // Two client ids can be confused in a consent key only if one ends in "|" and the other
  predicate Confusable(c: string, d: string) {
    c != d && (EndsWith(c, "|" + d) || EndsWith(d, "|" + c))
  }

  lemma ConsentKeyAligned(u: string, c: string, v: string, d: string)
    requires ConsentKey(u, c) == ConsentKey(v, d) && |c| >= |d|
    ensures if |c| == |d| then u == v && c == d else EndsWith(c, "|" + d)
  {
    var k := ConsentKey(u, c);
    assert k[|k| - |c|..] == c && k[|k| - |d|..] == d;
    assert k[..|u|] == u && k[..|v|] == v;
    assert k[|k| - |d| - 1..] == "|" + d;
    if |c| > |d| {
      assert c[|c| - |d| - 1..] == k[|k| - |d| - 1..];
    }
  }

  /** Consent keys of two clients collide for some pair of users exactly when the client ids are confusable. */
  lemma ConsentKeysCollideExactly(c: string, d: string)
    requires c != d
    ensures (exists u: string, v: string :: ConsentKey(u, c) == ConsentKey(v, d)) <==> Confusable(c, d)
  {
    forall u: string, v: string | ConsentKey(u, c) == ConsentKey(v, d)
      ensures Confusable(c, d)
    {
      if |c| >= |d| {
        ConsentKeyAligned(u, c, v, d);
      } else {
        ConsentKeyAligned(v, d, u, c);
      }
    }
    if EndsWith(c, "|" + d) {
      var v := c[..|c| - |d| - 1];
      assert c == v + ("|" + d);
      assert ConsentKey("", c) == ConsentKey("|" + v, d);
    } else if EndsWith(d, "|" + c) {
      var u := d[..|d| - |c| - 1];
      assert d == u + ("|" + c);
      assert ConsentKey("|" + u, c) == ConsentKey("", d);
    }
  }

  ghost predicate Distinguishable(ids: set<string>) {
    forall c, d :: c in ids && d in ids ==> !Confusable(c, d)
  }

  lemma ConsentKeyInjective(ids: set<string>, u: string, c: string, v: string, d: string)
    requires Distinguishable(ids) && c in ids && d in ids && ConsentKey(u, c) == ConsentKey(v, d)
    ensures u == v && c == d
  {
    if |c| >= |d| {
      ConsentKeyAligned(u, c, v, d);
    } else {
      ConsentKeyAligned(v, d, u, c);
    }
  }

  lemma EndsInPipe(c: string, d: string)
    requires EndsWith(c, "|" + d)
    ensures '|' in c
  {
    assert c[|c| - |d| - 1] == ("|" + d)[0];
  }

  /** Ids without "|", the only ones the admin pages accept, are never confused. */
  lemma PipelessIdsAreDistinguishable(ids: set<string>)
    requires forall c :: c in ids ==> '|' !in c
    ensures Distinguishable(ids)
  {
    forall c, d | c in ids && d in ids
      ensures !Confusable(c, d)
    {
      if EndsWith(c, "|" + d) {
        EndsInPipe(c, d);
      } else if EndsWith(d, "|" + c) {
        EndsInPipe(d, c);
      }
    }
  }

  lemma RequestedScopesAre(scope: string)
    ensures Ascending(RequestedScopes(scope)) && forall w :: w in RequestedScopes(scope) <==> w in Tokens(scope)
  {
    DedupKeeps(Fields(scope), []);
    SortKeeps(Dedup(Fields(scope), []));
  }

  // The loop body shared by requestedScopeList and mergeScopeSets: append what was not seen
  method MergeInto(kept: seq<string>, words: seq<string>) returns (out: seq<string>)
    ensures out == Dedup(words, kept)
  {
    out := kept;
    var seen := set w | w in kept;
    for i := 0 to |words|
      invariant seen == set w | w in out
      invariant Dedup(words, kept) == Dedup(words[i..], out)
    {
      assert words[i..][1..] == words[i + 1..];
      if words[i] !in seen {
        seen := seen + {words[i]};
        out := out + [words[i]];
      }
    }
  }

  /** requestedScopeList: every word of the scope string, in order and once. */
  method RequestedScopeList(scope: string) returns (out: seq<string>)
    ensures out == RequestedScopes(scope)
    ensures Ascending(out) && forall w :: w in out <==> w in Tokens(scope)
  {
    out := MergeInto([], Fields(scope));
    out := Sort(out);
    RequestedScopesAre(scope);
  }

  lemma MergeScopesIsUnion(a: seq<string>, b: seq<string>)
    ensures Ascending(MergeScopes(a, b))
    ensures forall w :: w in MergeScopes(a, b) <==> w in a || w in b
  {
    DedupKeeps(a, []);
    DedupKeeps(b, Dedup(a, []));
    SortKeeps(Dedup(b, Dedup(a, [])));
  }

  /** Merging does not depend on the order of the lists or of the merges. */
  lemma MergeOrderNeverMatters(a: seq<string>, b: seq<string>, c: seq<string>)
    ensures MergeScopes(a, b) == MergeScopes(b, a)
    ensures MergeScopes(MergeScopes(a, b), c) == MergeScopes(a, MergeScopes(b, c))
    ensures MergeScopes(MergeScopes(a, b), b) == MergeScopes(a, b)
  {
    hide MergeScopes, Ascending;
    MergeScopesIsUnion(a, b);
    MergeScopesIsUnion(b, a);
    MergeScopesIsUnion(b, c);
    MergeScopesIsUnion(MergeScopes(a, b), b);
    MergeScopesIsUnion(MergeScopes(a, b), c);
    MergeScopesIsUnion(a, MergeScopes(b, c));
    AscendingIsCanonical(MergeScopes(a, b), MergeScopes(b, a));
    AscendingIsCanonical(MergeScopes(MergeScopes(a, b), c), MergeScopes(a, MergeScopes(b, c)));
    AscendingIsCanonical(MergeScopes(MergeScopes(a, b), b), MergeScopes(a, b));
  }

  /** mergeScopeSets: the words of both lists, in order and once. */
  method MergeScopeSets(a: seq<string>, b: seq<string>) returns (out: seq<string>)
    ensures out == MergeScopes(a, b)
    ensures Ascending(out) && forall w :: w in out <==> w in a || w in b
  {
    out := MergeInto([], a);
    out := MergeInto(out, b);
    out := Sort(out);
    MergeScopesIsUnion(a, b);
  }

  /** consentCovers */
  method ConsentCovers(granted: seq<string>, want: seq<string>) returns (covers: bool)
    ensures covers == Covers(granted, want)
    ensures covers <==> forall w :: w in want ==> w in granted
  {
    var have: set<string> := {};
    for i := 0 to |granted|
      invariant have == set w | w in granted[..i]
    {
      assert granted[..i + 1] == granted[..i] + [granted[i]];
      have := have + {granted[i]};
    }
    assert granted[..|granted|] == granted;
    for i := 0 to |want|
      invariant forall j :: 0 <= j < i ==> want[j] in have
    {
      if want[i] !in have {
        return false;
      }
    }
    covers := true;
  }
}
