/** What a close, a drop of the socket, an end, an expiry, a forget or an eviction does to a browser. */
module PaneEnds {
  import opened Common
  import opened PaneManager
  import opened PanePlaces
  import opened PaneRooms

  /** May be kept for a reattach: it has a key, parking is on, and it is not closing. */
  predicate Parks(s: Manager, b: Browser) {
    b.key.Some? && s.parks && !b.gone
  }

  /** A browser off its stream is the last parked one, its key's earlier one closed; or it is closed. */
  lemma CloseParksOrCloses(s: Manager, x: Stream)
    requires Inv(s) && x in s.panes
    ensures var d, p := CloseStep(s, x), s.panes[x];
      && d.panes == s.panes - {x} && |d.browsers| == |s.browsers|
      && (if Parks(s, s.browsers[p])
          then d.browsers[p] == s.browsers[p] && d.parked != [] && d.parked[|d.parked| - 1] == Parked(s.browsers[p].key.value, p)
          else d.browsers[p].gone && d.parked == s.parked)
      && (forall q :: 0 <= q < |s.browsers| && q != p ==>
            d.browsers[q] == s.browsers[q] || (d.browsers[q].gone && IsParked(s, q) && s.browsers[q].key == s.browsers[p].key))
      && (forall e :: e in d.parked ==> e in s.parked || e.pane == p)
  {
    var s1, p := s.(panes := s.panes - {x}), s.panes[x];
    assert IsLive(s, p);
    forall e | e in s.parked
      ensures e.pane != p && e.pane < |s.browsers| && s.browsers[e.pane].key == Some(e.key)
    {
      assert OwnPlace(s, e);
    }
    ParkEntries(s1, p);
    hide Inv, IsLive, Without;
    var b := s.browsers[p];
    if Parks(s, b) {
      var at := KeyIndex(s.parked, b.key.value);
      if at.Some? { assert s.parked[at.value] in s.parked; }
    }
  }

  /** The socket drops: of the listed streams none is left, and each browser there was is parked, or closing. */
  lemma {:induction false} ParkAllEndsStreams(s: Manager, streams: seq<Stream>)
    requires Inv(s)
    ensures var d := ParkAllStep(s, streams);
      && (forall x :: x in d.panes <==> x in s.panes && x !in streams)
      && (forall x :: x in d.panes ==> d.panes[x] == s.panes[x])
      && |d.browsers| == |s.browsers|
      && (forall x :: x in s.panes && x in streams ==> IsParked(d, s.panes[x]) || d.browsers[s.panes[x]].gone)
    decreases |streams|
  {
    hide Inv, CloseStep, IsParked;
    if streams != [] {
      var x, rest := streams[0], streams[1..];
      assert forall y :: y in streams <==> y == x || y in rest;
      ParkAllHeld(s, streams);
      InPanes(s);
      if x in s.panes {
        CloseKeeps(s, x);
        CloseParksOrCloses(s, x);
        var s1 := CloseStep(s, x);
        ParkAllEndsStreams(s1, rest);
        StaysOff(s, x);
        ParkAllLeaves(s1, rest, s.panes[x]);
      } else {
        ParkAllEndsStreams(s, rest);
      }
    }
  }

  lemma InPanes(s: Manager)
    requires Inv(s)
    ensures forall x :: x in s.panes ==> s.panes[x] < |s.browsers|
  {
    hide Locks, Holders;
  }

  /** A closed stream's browser is on no other, and parked or closing. */
  lemma StaysOff(s: Manager, x: Stream)
    requires Inv(s) && x in s.panes
    ensures var d, p := CloseStep(s, x), s.panes[x];
      p < |d.browsers| && !IsLive(d, p) && (IsParked(d, p) || d.browsers[p].gone)
  {
    CloseParksOrCloses(s, x);
    var d, p := CloseStep(s, x), s.panes[x];
    hide CloseStep, Locks, Holders;
    forall y | y in d.panes
      ensures d.panes[y] != p
    {
      assert y in s.panes && y != x;
    }
    if Parks(s, s.browsers[p]) { assert d.parked[|d.parked| - 1] in d.parked; }
  }

  /** A browser that is on no stream, and parked or closing, is so after more of them were parked. */
  lemma {:induction false} ParkAllLeaves(s: Manager, streams: seq<Stream>, p: nat)
    requires Inv(s) && p < |s.browsers| && !IsLive(s, p) && (IsParked(s, p) || s.browsers[p].gone)
    ensures var d := ParkAllStep(s, streams); p < |d.browsers| && !IsLive(d, p) && (IsParked(d, p) || d.browsers[p].gone)
    decreases |streams|
  {
    hide Inv, CloseStep, IsParked, IsLive;
    if streams != [] {
      var x := streams[0];
      if x in s.panes && s.panes[x] < |s.browsers| {
        CloseKeeps(s, x);
        CloseLeaves(s, x, p);
        ParkAllLeaves(CloseStep(s, x), streams[1..], p);
      } else {
        ParkAllLeaves(s, streams[1..], p);
      }
    }
  }

  lemma CloseLeaves(s: Manager, x: Stream, p: nat)
    requires Inv(s) && x in s.panes && p < |s.browsers| && !IsLive(s, p) && (IsParked(s, p) || s.browsers[p].gone)
    ensures var d := CloseStep(s, x); p < |d.browsers| && !IsLive(d, p) && (IsParked(d, p) || d.browsers[p].gone)
  {
    CloseParksOrCloses(s, x);
    var d, q := CloseStep(s, x), s.panes[x];
    assert IsLive(s, q) && q != p;
    if !d.browsers[p].gone { CloseKeepsParked(s, x, p); }
    hide CloseStep, Inv;
    forall y | y in d.panes
      ensures d.panes[y] != p
    {
      assert s.panes[y] in s.panes.Values;
    }
  }

  /** Another parked browser is parked still, unless it had the key of the one that comes, and then it is closing. */
  lemma CloseKeepsParked(s: Manager, x: Stream, p: nat)
    requires Inv(s) && x in s.panes && IsParked(s, p) && p < |s.browsers| && p != s.panes[x] && !CloseStep(s, x).browsers[p].gone
    ensures IsParked(CloseStep(s, x), p)
  {
    var q := s.panes[x];
    var e :| e in s.parked && e.pane == p;
    assert OwnPlace(s, e);
    var b := s.browsers[q];
    if Parks(s, b) {
      var at := KeyIndex(s.parked, b.key.value);
      if at.Some? {
        ParkedStay(s.parked, at.value);
        assert IsLive(s, q);
        assert s.parked[at.value] in s.parked && OwnPlace(s, s.parked[at.value]);
        assert e != s.parked[at.value];
      }
    }
  }

  lemma OutOfEveryPlace(s: Manager, p: nat)
    requires Inv(s) && p < |s.browsers|
    ensures var d := Gone(s, p);
      && d.browsers == s.browsers && !IsLive(d, p) && !IsParked(d, p)
      && (forall x :: x in d.panes <==> x in s.panes && s.panes[x] != p)
  {
    var d, key := Gone(s, p), s.browsers[p].key;
    forall e | e in s.parked && e.pane == p
      ensures key == Some(e.key)
    {
      assert OwnPlace(s, e);
    }
    if key.Some? {
      var at := KeyIndex(s.parked, key.value);
      if at.Some? { ParkedStay(s.parked, at.value); }
    }
    hide Locks, Holders, Without, OwnPlace;
    assert forall e :: e in d.parked ==> e in s.parked;
    assert !IsParked(d, p);
  }

  /** The page is gone, or the process: the browser is closing, on no stream and not parked. */
  lemma EndLeavesNoPlace(s: Manager, a: Action, p: nat)
    requires Inv(s) && Enabled(s, a) && (a == PageGone(p) || a == Exit(p)) && !s.browsers[p].gone
    ensures var d := Step(s, a);
      && |d.browsers| == |s.browsers| && d.browsers[p].gone && !IsLive(d, p) && !IsParked(d, p)
      && (forall x :: x in d.panes <==> x in s.panes && s.panes[x] != p)
      && (a.Exit? ==> d.browsers[p].exited)
  {
    var b := s.browsers[p].(gone := true, exited := s.browsers[p].exited || a.Exit?);
    var s1 := s.(browsers := s.browsers[p := b]);
    ShrinkKeeps(s, s1);
    assert Step(s, a) == Gone(s1, p);
    hide Step, Gone, Inv;
    OutOfEveryPlace(s1, p);
  }

  /** A parked browser's time is over: it is closing, and its key parks none. */
  lemma ExpiryCloses(s: Manager, i: nat)
    requires Inv(s) && i < |s.parked|
    ensures var d, e := ExpireStep(s, s.parked[i].key), s.parked[i];
      && e.pane < |s.browsers| && d.browsers == s.browsers[e.pane := s.browsers[e.pane].(gone := true)] && d.panes == s.panes
      && d.parked == Without(s.parked, i) && !IsParked(d, e.pane)
  {
    assert s.parked[i] in s.parked && OwnPlace(s, s.parked[i]);
    assert KeyIndex(s.parked, s.parked[i].key) == Some(i);
    UnparkKeeps(s, i);
    hide Locks, Holders, Placement, Without;
  }

  /** A forgotten key's browsers, live or parked, are closing and nowhere, and all others are as they were. */
  lemma ForgetClosesTheKey(s: Manager, key: Key, p: nat)
    requires Inv(s) && p < |s.browsers|
    ensures var d := ForgetStep(s, key);
      && |d.browsers| == |s.browsers|
      && (s.browsers[p].key == Some(key) && (IsLive(s, p) || IsParked(s, p)) ==> d.browsers[p].gone && !IsLive(d, p) && !IsParked(d, p))
      && (s.browsers[p].key != Some(key) ==> d.browsers[p] == s.browsers[p] && (IsLive(s, p) ==> IsLive(d, p)))
  {
    var browsers := seq(|s.browsers|, p requires 0 <= p < |s.browsers| =>
      if s.browsers[p].key == Some(key) && IsLive(s, p) then s.browsers[p].(gone := true) else s.browsers[p]);
    var panes := map x | x in s.panes && (s.panes[x] >= |s.browsers| || s.browsers[s.panes[x]].key != Some(key)) :: s.panes[x];
    var s1 := s.(browsers := browsers, panes := panes);
    assert ForgetStep(s, key) == ExpireStep(s1, key);
    ShrinkKeeps(s, s1);
    assert s.browsers[p].key == Some(key) ==> !IsLive(s1, p);
    if s.browsers[p].key != Some(key) && IsLive(s, p) {
      var x :| x in s.panes && s.panes[x] == p;
      assert s1.panes[x] == p;
    }
    ExpireOnlyTheKey(s1, key, p);
    hide ForgetStep, ExpireStep, Locks, Holders, Placement;
  }

  lemma ExpireOnlyTheKey(s: Manager, key: Key, p: nat)
    requires Inv(s) && p < |s.browsers|
    ensures var d := ExpireStep(s, key);
      && d.panes == s.panes && |d.browsers| == |s.browsers| && (s.browsers[p].gone ==> d.browsers[p].gone)
      && (s.browsers[p].key == Some(key) ==> !IsParked(d, p) && (IsParked(s, p) ==> d.browsers[p].gone))
      && (s.browsers[p].key != Some(key) ==> d.browsers[p] == s.browsers[p])
  {
    var at := KeyIndex(s.parked, key);
    forall e | e in s.parked
      ensures e.pane < |s.browsers| && s.browsers[e.pane].key == Some(e.key)
    {
      assert OwnPlace(s, e);
    }
    if at.Some? {
      assert s.parked[at.value] in s.parked;
      ExpiryCloses(s, at.value);
      UnparkKeeps(s, at.value);
      ParkedStay(s.parked, at.value);
    }
    hide Inv, ExpireStep;
  }

  /** The exit of a profile's holder frees it, and of no other browser any. */
  lemma ExitFreesProfile(s: Manager, p: nat, name: Profile)
    requires Inv(s) && Enabled(s, Unheld(p))
    ensures name in UnheldStep(s, p).holders <==> name in s.holders && s.holders[name] != p
    ensures name in UnheldStep(s, p).holders ==> UnheldStep(s, p).holders[name] == s.holders[name]
  {
  }

  /** A delete goes ahead exactly when nobody holds the profile and it is still wanted; else its lock is let go. */
  lemma DeleteGoesAheadIff(s: Manager, name: Profile, wanted: bool)
    requires name in s.locks && s.locks[name].Checking?
    ensures var d := CheckStep(s, name, wanted);
      (name in d.locks && d.locks[name].Deleting? <==> name !in s.holders && wanted) && (name !in d.locks <==> name in s.holders || !wanted)
  {
  }

  /** After the wait for a quitting browser the attach keeps its profile exactly when nobody has it; else it loses its key too. */
  lemma WaitDecides(s: Manager, name: Profile, elsewhere: bool)
    requires name in s.locks && s.locks[name].Waiting? && s.locks[name].req.kept == Some(name)
    ensures var req, w := s.locks[name].req, WaitedStep(s, name, elsewhere).locks[name];
      && w.Cleared? && (if name !in s.holders && !elsewhere then w.req == req else w.req.kept.None? && w.req.key.None?)
      && w.req.stream == req.stream && w.req.guest == req.guest && w.req.grant == req.grant && w.req.max == req.max && w.req.memory == req.memory
  {
  }

  /** An attach that failed: its stream ends and its browser is closing. */
  lemma FailureCloses(s: Manager, x: Stream, p: nat)
    requires Inv(s) && Enabled(s, Fail(x, p))
    ensures var d := FailStep(s, x, p);
      d.panes == s.panes - {x} && d.browsers == s.browsers[p := s.browsers[p].(gone := true)] && d.parked == s.parked
  {
  }

  // ---- Which are evicted ----

  /** The parked browsers of a kind, in order. */
  function OfKind(s: Manager, guest: bool): seq<Parked> {
    OtherKind(s, s.parked, !guest)
  }

  lemma {:induction false} OldestIsFirst(s: Manager, parked: seq<Parked>, guest: bool, i: nat)
    requires i < |parked| && forall j :: 0 <= j < |parked| ==> parked[j].pane < |s.browsers|
    requires s.browsers[parked[i].pane].guest == guest && forall j :: 0 <= j < i ==> s.browsers[parked[j].pane].guest != guest
    ensures OtherKind(s, parked, !guest) == [parked[i]] + OtherKind(s, Without(parked, i), !guest)
  {
    if i == 0 {
      assert Without(parked, 0) == parked[1..];
    } else {
      OldestIsFirst(s, parked[1..], guest, i - 1);
      assert Without(parked, i)[0] == parked[0] && Without(parked, i)[1..] == Without(parked[1..], i - 1);
    }
  }

  lemma {:induction false} NoneOfKind(s: Manager, parked: seq<Parked>, guest: bool)
    requires forall j :: 0 <= j < |parked| ==> parked[j].pane < |s.browsers| && s.browsers[parked[j].pane].guest != guest
    ensures OtherKind(s, parked, !guest) == []
  {
    if parked != [] { NoneOfKind(s, parked[1..], guest); }
  }

  /** An eviction takes the oldest of its kind, if there is one. */
  lemma EvictsTheOldest(s: Manager, guest: bool)
    requires Known(s)
    ensures Evict(s, guest).None? <==> OfKind(s, guest) == []
    ensures Evict(s, guest).Some? ==>
      var s', p := Evict(s, guest).value, OfKind(s, guest)[0].pane;
      OfKind(s', guest) == OfKind(s, guest)[1..] && p < |s'.browsers| && s'.browsers[p].gone
  {
    var at := Oldest(s, guest, 0);
    if at.Some? {
      var s' := Evict(s, guest).value;
      OldestIsFirst(s, s.parked, guest, at.value);
      OtherKindSame(s, s', s'.parked, !guest);
    } else {
      NoneOfKind(s, s.parked, guest);
    }
  }

  /** Guests make room for one more by as many evictions as it takes, the oldest first, and no more; an owner by one at most. */
  lemma {:induction false} GuestRoomEvictsInOrder(s: Manager, max: nat) returns (n: nat)
    requires Inv(s) && Known(s)
    ensures var (s', room) := GuestRoom(s, max);
      && n <= |OfKind(s, true)| && OfKind(s', true) == OfKind(s, true)[n..]
      && (room <==> |Placed(s', true)| < max) && |Placed(s', true)| + n == |Placed(s, true)|
      && (n > 0 ==> |Placed(s', true)| + 1 >= max) && (!room ==> OfKind(s', true) == [])
    decreases |s.parked|
  {
    hide Placed, OtherKind, Inv;
    EvictsTheOldest(s, true);
    n := 0;
    if |Placed(s, true)| >= max && Evict(s, true).Some? {
      var s1 := Evict(s, true).value;
      EvictKeeps(s, true);
      EvictFreesOne(s, true);
      n := GuestRoomEvictsInOrder(s1, max);
      n := n + 1;
    }
  }

  lemma EvictFreesOne(s: Manager, guest: bool)
    requires Inv(s) && Known(s) && Evict(s, guest).Some?
    ensures |Placed(Evict(s, guest).value, guest)| + 1 == |Placed(s, guest)|
  {
    var i, s' := Oldest(s, guest, 0).value, Evict(s, guest).value;
    var p := s.parked[i].pane;
    assert s' == Closed(s, p).(parked := Without(s.parked, i)) && s.browsers[p].guest == guest;
    UnparkedOne(s, i);
    assert s.parked[i] in s.parked && IsParked(s, p);
    hide Inv, Without, Evict, Oldest, IsParked;
    assert Placed(s', guest) == Placed(s, guest) - {p};
  }

  /** With one entry out, the others are parked still, and its browser is not. */
  lemma UnparkedOne(s: Manager, i: nat)
    requires Inv(s) && i < |s.parked|
    ensures var p, s' := s.parked[i].pane, Closed(s, s.parked[i].pane).(parked := Without(s.parked, i));
      && !IsLive(s, p) && p < |s.browsers|
      && forall q :: 0 <= q < |s.browsers| ==> (IsParked(s', q) <==> IsParked(s, q) && q != p)
  {
    assert s.parked[i] in s.parked && OwnPlace(s, s.parked[i]);
    ParkedStay(s.parked, i);
    hide Without;
    var p, s' := s.parked[i].pane, Closed(s, s.parked[i].pane).(parked := Without(s.parked, i));
    forall q | 0 <= q < |s.browsers|
      ensures IsParked(s', q) <==> IsParked(s, q) && q != p
    {
      if IsParked(s', q) {
        var e :| e in s'.parked && e.pane == q;
        assert e in s.parked && OwnPlace(s, e);
      }
    }
  }

  lemma OwnerRoomEvictsOne(s: Manager, req: Request)
    requires Inv(s) && Known(s) && !req.guest
    ensures var (s', room) := Room(s, req); var kept := OfKind(s, false);
      && (|Placed(s, false)| < 4 ==> room && s' == s)
      && (|Placed(s, false)| >= 4 ==> (room <==> kept != []) && OfKind(s', false) == if kept == [] then [] else kept[1..])
  {
    hide Placed, OtherKind;
    EvictsTheOldest(s, false);
  }
}
