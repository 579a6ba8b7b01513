/** Cutting a sequence at a separator: what `split`, `indexOf` loops and carried tails have in common. */
module Splitting {

  /** The pieces that a separator closed, and the unclosed tail. */
  datatype Cut<T> = Cut(pieces: seq<seq<T>>, rest: seq<T>)

  function Split<T(==)>(s: seq<T>, sep: T): (c: Cut<T>)
    ensures sep !in c.rest
  {
    if s == [] then Cut([], [])
    else
      var before := Split(s[..|s| - 1], sep);
      var x := s[|s| - 1];
      if x == sep then Cut(before.pieces + [before.rest], [])
      else Cut(before.pieces, before.rest + [x])
  }

  /** Each piece followed by the separator: the text that `Split` cuts again. */
  function Closed<T>(pieces: seq<seq<T>>, sep: T): seq<T>
  {
    if pieces == [] then []
    else Closed(pieces[..|pieces| - 1], sep) + pieces[|pieces| - 1] + [sep]
  }

  lemma {:induction false} PiecesAreUncut<T>(s: seq<T>, sep: T)
    ensures forall p :: p in Split(s, sep).pieces ==> sep !in p
  {
    if s != [] {
      PiecesAreUncut(s[..|s| - 1], sep);
    }
  }

  lemma {:induction false} SplitOfUncut<T>(s: seq<T>, sep: T)
    requires sep !in s
    ensures Split(s, sep) == Cut([], s)
  {
    if s != [] {
      SplitOfUncut(s[..|s| - 1], sep);
      assert s == s[..|s| - 1] + [s[|s| - 1]];
    }
  }

  /** Cutting in two goes, with the first tail carried over, is cutting once. */
  lemma {:induction false} SplitAppend<T>(a: seq<T>, b: seq<T>, sep: T)
    ensures Split(a + b, sep)
         == Cut(Split(a, sep).pieces + Split(Split(a, sep).rest + b, sep).pieces,
                Split(Split(a, sep).rest + b, sep).rest)
  {
    var r := Split(a, sep).rest;
    if b == [] {
      SplitOfUncut(r, sep);
      assert a + b == a && r + b == r;
    } else {
      var b' := b[..|b| - 1];
      SplitAppend(a, b', sep);
      assert (a + b)[..|a + b| - 1] == a + b';
      assert (r + b)[..|r + b| - 1] == r + b';
    }
  }

  /** Nothing is lost in a cut. */
  lemma {:induction false} SplitJoins<T>(s: seq<T>, sep: T)
    ensures Closed(Split(s, sep).pieces, sep) + Split(s, sep).rest == s
  {
    if s != [] {
      var s', x := s[..|s| - 1], s[|s| - 1];
      SplitJoins(s', sep);
      var c := Split(s', sep);
      if x == sep {
        assert (c.pieces + [c.rest])[..|c.pieces|] == c.pieces;
        assert Closed(c.pieces + [c.rest], sep) == Closed(c.pieces, sep) + c.rest + [sep];
      }
      assert s == s' + [x];
    }
  }

  /** The cut is the only way to read a text as separator-free pieces and a separator-free tail. */
  lemma {:induction false} SplitOfClosed<T>(pieces: seq<seq<T>>, rest: seq<T>, sep: T)
    requires sep !in rest
    requires forall p :: p in pieces ==> sep !in p
    ensures Split(Closed(pieces, sep) + rest, sep) == Cut(pieces, rest)
  {
    if pieces == [] {
      SplitOfUncut(rest, sep);
      assert Closed(pieces, sep) + rest == rest;
    } else {
      var init, last := pieces[..|pieces| - 1], pieces[|pieces| - 1];
      SplitOfClosed(init, last, sep);
      var text := Closed(init, sep) + last;
      assert (text + [sep])[..|text|] == text;
      assert Closed(pieces, sep) == text + [sep];
      assert init + [last] == pieces;
      SplitAppend(Closed(pieces, sep), rest, sep);
      assert [] + rest == rest;
      SplitOfUncut(rest, sep);
    }
  }

  lemma {:induction false} ClosedAppend<T>(a: seq<seq<T>>, b: seq<seq<T>>, sep: T)
    ensures Closed(a + b, sep) == Closed(a, sep) + Closed(b, sep)
  {
    if b == [] {
      assert a + b == a;
    } else {
      ClosedAppend(a, b[..|b| - 1], sep);
      assert (a + b)[..|a + b| - 1] == a + b[..|b| - 1];
    }
  }

  /** Past the first piece and its separator, the cut of what follows is the rest of the cut. */
  lemma SplitFirst<T>(s: seq<T>, sep: T)
    requires Split(s, sep).pieces != []
    ensures var p := Split(s, sep).pieces[0];
      && |p| < |s| && s[..|p| + 1] == p + [sep]
      && Split(s[|p| + 1..], sep) == Cut(Split(s, sep).pieces[1..], Split(s, sep).rest)
  {
    var cut := Split(s, sep);
    var p, others := cut.pieces[0], cut.pieces[1..];
    SplitJoins(s, sep);
    PiecesAreUncut(s, sep);
    assert cut.pieces == [p] + others;
    ClosedAppend([p], others, sep);
    ClosedOne(p, sep);
    ThreeParts(p + [sep], Closed(others, sep), cut.rest);
    SplitOfClosed(others, cut.rest, sep);
  }

  lemma ThreeParts<T>(a: seq<T>, b: seq<T>, c: seq<T>)
    ensures (a + b + c)[..|a|] == a && (a + b + c)[|a|..] == b + c
  {
  }

  lemma TwoSlices<T>(s: seq<T>, i: nat, j: nat)
    requires i <= j <= |s|
    ensures s[..i] + s[i..j] == s[..j] && s[i..][..j - i] == s[i..j] && s[i..][j - i..] == s[j..] && s[..i] + s[i..] == s
  {
  }

  lemma ClosedOne<T>(p: seq<T>, sep: T)
    ensures Closed([p], sep) == p + [sep]
    ensures sep !in p ==> Split(p + [sep], sep) == Cut([p], [])
  {
    assert Closed<T>([], sep) == [];
    assert [] + p == p;
    if sep !in p {
      SplitOfUncut(p, sep);
      assert (p + [sep])[..|p|] == p;
    }
  }

  function Concat<T>(chunks: seq<seq<T>>): seq<T>
  {
    if chunks == [] then [] else Concat(chunks[..|chunks| - 1]) + chunks[|chunks| - 1]
  }
}
