/** Looking for a word in a text put together from names and fixed pieces. */
module Texts {

  predicate OccursAt(s: string, part: string, i: nat) {
    i + |part| <= |s| && s[i..i + |part|] == part
  }

  predicate Contains(s: string, part: string) {
    exists i :: 0 <= i <= |s| && OccursAt(s, part, i)
  }

  lemma Covers(s: string, part: string, i: nat, k: nat)
    requires OccursAt(s, part, i) && i <= k < i + |part|
    ensures s[k] in part
  {
    assert s[i..i + |part|][k - i] == s[k];
  }

  /** A word without the character `c` lies on one side of it. */
  lemma SplitAt(p: string, c: char, q: string, w: string)
    requires c !in w
    ensures Contains(p + [c] + q, w) <==> Contains(p, w) || Contains(q, w)
  {
    var s := p + [c] + q;
    assert s[|p|] == c;
    if i :| 0 <= i <= |s| && OccursAt(s, w, i) {
      if i <= |p| < i + |w| {
        Covers(s, w, i, |p|);
      } else if i + |w| <= |p| {
        InFront(p, [c] + q, w, i);
        assert s == p + ([c] + q);
      } else {
        Behind(p + [c], q, w, i - |p| - 1);
      }
    }
    if i :| 0 <= i <= |p| && OccursAt(p, w, i) {
      InFront(p, [c] + q, w, i);
      assert s == p + ([c] + q);
      assert OccursAt(s, w, i);
    }
    if i :| 0 <= i <= |q| && OccursAt(q, w, i) {
      Behind(p + [c], q, w, i);
      assert OccursAt(s, w, |p| + 1 + i);
    }
  }

  lemma InFront(p: string, q: string, w: string, i: nat)
    requires i + |w| <= |p|
    ensures OccursAt(p + q, w, i) <==> OccursAt(p, w, i)
  {
    assert (p + q)[i..i + |w|] == p[i..i + |w|];
  }

  lemma Behind(p: string, q: string, w: string, i: nat)
    ensures OccursAt(p + q, w, |p| + i) <==> OccursAt(q, w, i)
  {
    if i + |w| <= |q| {
      assert (p + q)[|p| + i..|p| + i + |w|] == q[i..i + |w|];
    }
  }

  lemma Lacks(s: string, w: string, c: char)
    requires c in w && c !in s
    ensures !Contains(s, w)
  {
    forall i | 0 <= i <= |s|
      ensures !OccursAt(s, w, i)
    {
      var k :| 0 <= k < |w| && w[k] == c;
      if OccursAt(s, w, i) {
        Keeps(s, w, i, k);
      }
    }
  }

  lemma Keeps(s: string, w: string, i: nat, k: nat)
    requires OccursAt(s, w, i) && k < |w|
    ensures w[k] in s
  {
    assert s[i..i + |w|][k] == s[i + k];
  }

  /** A piece of text and the character that ends it. */
  datatype Piece = Piece(text: string, end: char)

  function Flat(pieces: seq<Piece>, tail: string): string {
    if pieces == [] then tail else pieces[0].text + [pieces[0].end] + Flat(pieces[1..], tail)
  }

  /** A word none of whose characters ends a piece occurs in a text exactly when it
      occurs in one of the pieces. */
  lemma {:induction false} FlatContains(pieces: seq<Piece>, tail: string, w: string)
    requires forall x :: x in pieces ==> x.end !in w
    ensures Contains(Flat(pieces, tail), w) <==> Contains(tail, w) || exists x :: x in pieces && Contains(x.text, w)
  {
    if pieces != [] {
      assert pieces[0] in pieces;
      SplitAt(pieces[0].text, pieces[0].end, Flat(pieces[1..], tail), w);
      FlatContains(pieces[1..], tail, w);
      assert forall x :: x in pieces <==> x == pieces[0] || x in pieces[1..];
    }
  }
}
