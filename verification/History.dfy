/** `capHistory`: the newest entries of a chat's history, with every divider from before the cut ahead of them. */
module History {
  /** `divides` marks where the context was cleared or compacted. */
  datatype Entry = Entry(id: nat, divides: bool)

  function Dividers(s: seq<Entry>): (r: seq<Entry>)
    ensures forall e :: e in r ==> e.divides && e in s
  {
    if s == [] then [] else if s[0].divides then [s[0]] + Dividers(s[1..]) else Dividers(s[1..])
  }

  function Cap(entries: seq<Entry>, max: nat): seq<Entry> {
    if |entries| <= max then entries
    else Dividers(entries[..|entries| - max]) + entries[|entries| - max..]
  }

  lemma {:induction false} DividersAppend(a: seq<Entry>, b: seq<Entry>)
    ensures Dividers(a + b) == Dividers(a) + Dividers(b)
  {
    if a == [] {
      assert a + b == b;
    } else {
      assert (a + b)[0] == a[0] && (a + b)[1..] == a[1..] + b;
      DividersAppend(a[1..], b);
    }
  }

  lemma {:induction false} DividersOfDividers(s: seq<Entry>)
    ensures Dividers(Dividers(s)) == Dividers(s)
  {
    if s != [] {
      DividersOfDividers(s[1..]);
      if s[0].divides {
        assert Dividers(s)[1..] == Dividers(s[1..]);
      }
    }
  }

  /** What a cap keeps, whichever way it is written: dividers of some head, then the tail. */
  lemma CapOfParts(head: seq<Entry>, tail: seq<Entry>, max: nat)
    requires |tail| == max
    ensures Cap(head + tail, max) == Dividers(head) + tail
  {
    var s := head + tail;
    if head == [] {
      assert s == tail && Dividers(head) + tail == tail;
    } else {
      assert s[..|s| - max] == head && s[|s| - max..] == tail;
    }
  }

  /** Older entries may be capped before newer ones are added: the cap of the whole is the same. */
  lemma CapBefore(a: seq<Entry>, b: seq<Entry>, max: nat)
    ensures Cap(Cap(a, max) + b, max) == Cap(a + b, max)
  {
    if |a| > max {
      var cut := |a| - max;
      var head, tail := a[..cut], a[cut..];
      var rest := tail + b;
      var more, last := rest[..|b|], rest[|b|..];
      assert more + last == rest;
      assert a + b == (head + more) + last;
      assert Cap(a, max) + b == (Dividers(head) + more) + last;
      CapOfParts(head + more, last, max);
      CapOfParts(Dividers(head) + more, last, max);
      DividersAppend(head, more);
      DividersAppend(Dividers(head), more);
      DividersOfDividers(head);
    }
  }

  /** So may newer ones, before older ones are put ahead of them. */
  lemma CapAfter(a: seq<Entry>, b: seq<Entry>, max: nat)
    ensures Cap(a + Cap(b, max), max) == Cap(a + b, max)
  {
    if |b| > max {
      var cut := |b| - max;
      var head, tail := b[..cut], b[cut..];
      assert b == head + tail && a + b == (a + head) + tail;
      assert a + Cap(b, max) == (a + Dividers(head)) + tail;
      CapOfParts(a + head, tail, max);
      CapOfParts(a + Dividers(head), tail, max);
      DividersAppend(a, head);
      DividersAppend(a, Dividers(head));
      DividersOfDividers(head);
    }
  }

  /** A capped history capped again is the same. */
  lemma CapTwice(a: seq<Entry>, max: nat)
    ensures Cap(Cap(a, max), max) == Cap(a, max)
  {
    CapAfter([], a, max);
    assert [] + Cap(a, max) == Cap(a, max) && [] + a == a;
  }

  /** `r` is `s` with entries left out: `at` is where each of its entries stands in `s`. */
  ghost predicate IsSubsequence(r: seq<Entry>, s: seq<Entry>, at: seq<nat>) {
    && |at| == |r| && (forall i :: 0 <= i < |r| ==> at[i] < |s| && s[at[i]] == r[i])
    && (forall i, j :: 0 <= i < j < |r| ==> at[i] < at[j])
  }

  /** Where the dividers stand. */
  function Where(s: seq<Entry>): seq<nat> {
    if s == [] then []
    else if s[|s| - 1].divides then Where(s[..|s| - 1]) + [|s| - 1]
    else Where(s[..|s| - 1])
  }

  lemma DividersOne(s: seq<Entry>, e: Entry)
    ensures Dividers(s + [e]) == if e.divides then Dividers(s) + [e] else Dividers(s)
    ensures Where(s + [e]) == if e.divides then Where(s) + [|s|] else Where(s)
  {
    DividersAppend(s, [e]);
    assert (s + [e])[..|s|] == s;
    assert Dividers([e]) == if e.divides then [e] else [];
    assert Dividers(s) + [] == Dividers(s);
  }

  /** Each divider's place is listed. */
  ghost predicate Lists(at: seq<nat>, s: seq<Entry>) {
    forall k :: 0 <= k < |s| && s[k].divides ==> k in at
  }

  lemma ListsOne(at: seq<nat>, s: seq<Entry>, e: Entry)
    requires Lists(at, s)
    ensures Lists(if e.divides then at + [|s|] else at, s + [e])
  {
    var more := if e.divides then at + [|s|] else at;
    forall k | 0 <= k < |s| + 1 && (s + [e])[k].divides
      ensures k in more
    {
      if k < |s| {
        assert s[k].divides && k in at;
      } else {
        assert more[|at|] == k;
      }
    }
  }

  lemma {:induction false} DividersWhere(s: seq<Entry>)
    ensures IsSubsequence(Dividers(s), s, Where(s)) && Lists(Where(s), s)
  {
    if s != [] {
      var init, last := s[..|s| - 1], s[|s| - 1];
      DividersWhere(init);
      DividersOne(init, last);
      ListsOne(Where(init), init, last);
      OneMore(Dividers(init), init, Where(init), last);
      Longer(Dividers(init), init, Where(init), last);
      assert s == init + [last];
    }
  }

  /** And no other place is. */
  lemma {:induction false} WhereDivides(s: seq<Entry>)
    ensures forall k :: k in Where(s) ==> k < |s| && s[k].divides
  {
    if s != [] { WhereDivides(s[..|s| - 1]); }
  }

  lemma OneMore(r: seq<Entry>, s: seq<Entry>, at: seq<nat>, e: Entry)
    requires IsSubsequence(r, s, at)
    ensures IsSubsequence(r + [e], s + [e], at + [|s|])
  {
  }

  lemma Longer(r: seq<Entry>, s: seq<Entry>, at: seq<nat>, e: Entry)
    requires IsSubsequence(r, s, at)
    ensures IsSubsequence(r, s + [e], at)
  {
  }

  /** A subsequence of a head, then the whole tail. */
  lemma TailKept(r: seq<Entry>, head: seq<Entry>, at: seq<nat>, tail: seq<Entry>, tails: seq<nat>)
    requires IsSubsequence(r, head, at) && |tails| == |tail| && forall i :: 0 <= i < |tail| ==> tails[i] == |head| + i
    ensures IsSubsequence(r + tail, head + tail, at + tails)
    ensures forall k :: |head| <= k < |head| + |tail| ==> k in at + tails
  {
    forall k | |head| <= k < |head| + |tail|
      ensures k in at + tails
    {
      assert (at + tails)[|at| + (k - |head|)] == k;
    }
  }

  /**
   * Nothing is made up and nothing reordered; every divider is kept, in order; the newest `max` entries
   * are kept whole; and an entry left out is an older one that divides nothing.
   */
  lemma CapKeeps(s: seq<Entry>, max: nat) returns (at: seq<nat>)
    ensures IsSubsequence(Cap(s, max), s, at)
    ensures Dividers(Cap(s, max)) == Dividers(s)
    ensures |s| > max ==> |Cap(s, max)| >= max && Cap(s, max)[|Cap(s, max)| - max..] == s[|s| - max..]
    ensures forall k :: 0 <= k < |s| ==> (k in at <==> s[k].divides || k + max >= |s|)
  {
    if |s| <= max {
      at := seq(|s|, i => i);
      assert forall k :: 0 <= k < |s| ==> at[k] == k;
      return;
    }
    var cut := |s| - max;
    var head, tail := s[..cut], s[cut..];
    var heads, tails := Where(head), seq(max, i requires 0 <= i < max => cut + i);
    at := heads + tails;
    assert s == head + tail;
    DividersWhere(head);
    TailKept(Dividers(head), head, heads, tail, tails);
    DividersAppend(head, tail);
    DividersAppend(Dividers(head), tail);
    DividersOfDividers(head);
    hide Dividers, Where, IsSubsequence;
    assert Cap(s, max) == Dividers(head) + tail;
    assert (Dividers(head) + tail)[|Dividers(head) + tail| - max..] == tail;
    forall k | 0 <= k < |s|
      ensures k in at <==> s[k].divides || k + max >= |s|
    {
      if k < cut {
        assert head[k] == s[k] && Lists(heads, head);
        WhereDivides(head);
        assert k in at <==> k in heads;
      }
    }
  }
}
