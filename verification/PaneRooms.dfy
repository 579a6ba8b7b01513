/** Room for browsers: evictions stay within their kind, guests within their limit, owners within `MAX_PANES`. */
module PaneRooms {
  import opened Common
  import opened PaneManager
  import opened PanePlaces

  // ---- Evictions ----

  /** Browsers closed and unparked since: parked ones of one kind only. */
  ghost predicate EvictedOnly(s: Manager, s': Manager, guest: bool) {
    && Around(s, s') && Known(s')
    && (forall p :: 0 <= p < |s.browsers| ==>
          s'.browsers[p] == s.browsers[p] || (s.browsers[p].guest == guest && IsParked(s, p) && s'.browsers[p] == s.browsers[p].(gone := true)))
    && OtherKind(s', s'.parked, guest) == OtherKind(s, s.parked, guest)
    && (forall e :: e in s'.parked ==> e in s.parked)
  }

  /** The parked browsers of the other kind, in order. */
  function OtherKind(s: Manager, parked: seq<Parked>, guest: bool): seq<Parked> {
    if parked == [] then []
    else (if parked[0].pane < |s.browsers| && s.browsers[parked[0].pane].guest != guest then [parked[0]] else []) + OtherKind(s, parked[1..], guest)
  }

  lemma {:induction false} OtherKindSame(s: Manager, s': Manager, parked: seq<Parked>, guest: bool)
    requires |s'.browsers| == |s.browsers| && forall p :: 0 <= p < |s.browsers| ==> s'.browsers[p].guest == s.browsers[p].guest
    ensures OtherKind(s', parked, guest) == OtherKind(s, parked, guest)
  {
    if parked != [] { OtherKindSame(s, s', parked[1..], guest); }
  }

  lemma {:induction false} OtherKindWithout(s: Manager, parked: seq<Parked>, guest: bool, i: nat)
    requires i < |parked| && parked[i].pane < |s.browsers| && s.browsers[parked[i].pane].guest == guest
    ensures OtherKind(s, Without(parked, i), guest) == OtherKind(s, parked, guest)
  {
    if i == 0 {
      assert Without(parked, 0) == parked[1..];
    } else {
      assert Without(parked, i)[0] == parked[0] && Without(parked, i)[1..] == Without(parked[1..], i - 1);
      OtherKindWithout(s, parked[1..], guest, i - 1);
    }
  }

  lemma EvictIs(s: Manager, guest: bool)
    requires Known(s) && Evict(s, guest).Some?
    ensures EvictedOnly(s, Evict(s, guest).value, guest)
  {
    var i, s' := Oldest(s, guest, 0).value, Evict(s, guest).value;
    OtherKindWithout(s, s.parked, guest, i);
    OtherKindSame(s, s', s'.parked, guest);
    hide OtherKind;
    assert s.parked[i] in s.parked;
  }

  lemma EvictedTwice(s: Manager, s1: Manager, s2: Manager, guest: bool)
    requires EvictedOnly(s, s1, guest) && EvictedOnly(s1, s2, guest)
    ensures EvictedOnly(s, s2, guest)
  {
    hide OtherKind;
    forall p | 0 <= p < |s.browsers|
      ensures s2.browsers[p] == s.browsers[p] || (s.browsers[p].guest == guest && IsParked(s, p) && s2.browsers[p] == s.browsers[p].(gone := true))
    {
      assert s2.browsers[p] == s1.browsers[p] || s2.browsers[p] == s1.browsers[p].(gone := true);
    }
  }

  lemma {:induction false} GuestRoomIs(s: Manager, max: nat)
    requires Known(s)
    ensures var (s', room) := GuestRoom(s, max);
      EvictedOnly(s, s', true) && (room ==> |Placed(s', true)| < max) && (!room ==> Evict(s', true).None?)
    decreases |s.parked|
  {
    hide Placed, OtherKind;
    if |Placed(s, true)| >= max {
      if Evict(s, true).Some? {
        var s1 := Evict(s, true).value;
        EvictIs(s, true);
        GuestRoomIs(s1, max);
        EvictedTwice(s, s1, GuestRoom(s1, max).0, true);
      }
    }
  }

  /**
   * Room is made by closing parked browsers of the attach's own kind, and then its count is under its
   * limit. A refusal for want of room means none of the kind is parked; any other closed nothing.
   */
  lemma RoomIs(s: Manager, req: Request)
    requires Known(s)
    ensures var (s', room) := Room(s, req);
      && EvictedOnly(s, s', req.guest)
      && (room && req.guest ==> |Placed(s', true)| < req.max && |LiveGuests(s)| < req.max && req.memory)
      && (!room ==> s' == s || Evict(s', req.guest).None?)
  {
    hide Placed, LiveGuests, OtherKind;
    if req.guest {
      if req.max > 0 && req.memory && |LiveGuests(s)| < req.max { GuestRoomIs(s, req.max); }
    } else if |Placed(s, false)| >= MAX_PANES && Evict(s, false).Some? {
      EvictIs(s, false);
    }
  }

  /** A fresh guest never leaves more guest browsers, live and parked, than its limit. */
  lemma FreshGuestFits(s: Manager, req: Request, lock: Option<Profile>)
    requires Inv(s) && Known(s) && req.guest && |Open(s, req, lock).browsers| > |s.browsers|
    ensures |Placed(Open(s, req, lock), true)| <= req.max
  {
    RoomIs(s, req);
    var s1, s' := Room(s, req).0, Open(s, req, lock);
    hide Room, OtherKind;
    var p := |s.browsers|;
    assert s1.browsers == s'.browsers[..p];
    forall q | q in Placed(s', true)
      ensures q in Placed(s1, true) || q == p
    {
      if q != p && IsLive(s', q) {
        var x :| x in s'.panes && s'.panes[x] == q;
        assert x in s1.panes && s1.panes[x] == q;
      }
    }
    assert Placed(s', true) <= Placed(s1, true) + {p};
    Fewer(Placed(s', true), Placed(s1, true) + {p});
  }

  lemma Fewer<T>(a: set<T>, b: set<T>)
    requires a <= b
    ensures |a| <= |b|
  {
    assert b == a + (b - a);
  }

  // ---- Owners ----

  ghost predicate Held(s: Manager, p: nat) {
    p < |s.browsers| && (IsLive(s, p) || IsParked(s, p) || IsTaking(s, p))
  }

  /** The owner's browsers that are live, parked, or between two streams. */
  ghost function OwnersHeld(s: Manager): set<nat> {
    set p | 0 <= p < |s.browsers| && Held(s, p) && !s.browsers[p].guest
  }

  /** Nothing new is held, and browsers keep their kind. */
  ghost predicate NoneNew(s: Manager, s': Manager) {
    && |s'.browsers| >= |s.browsers|
    && (forall p :: 0 <= p < |s.browsers| ==> s'.browsers[p].guest == s.browsers[p].guest && (Held(s', p) ==> Held(s, p)))
  }

  lemma SameBrowsers(s: Manager, s': Manager)
    requires NoneNew(s, s') && |s'.browsers| == |s.browsers|
    ensures |OwnersHeld(s')| <= |OwnersHeld(s)|
  {
    Fewer(OwnersHeld(s'), OwnersHeld(s));
  }

  lemma Then(s: Manager, s1: Manager, s2: Manager)
    requires NoneNew(s, s1) && NoneNew(s1, s2)
    ensures NoneNew(s, s2)
  {
    hide Held;
  }

  lemma ShrinkHeld(s: Manager, s': Manager)
    requires Inv(s) && Shrinks(s, s')
    ensures NoneNew(s, s')
  {
    ShrinkKeeps(s, s');
    hide Placement, Locks, Holders, IsLive, IsParked;
  }

  lemma UnparkEntries(s: Manager, key: Key)
    ensures forall e :: e in Unpark(s, key).parked ==> e in s.parked
  {
  }

  lemma ParkEntries(s: Manager, p: nat)
    requires p < |s.browsers|
    ensures forall e :: e in Park(s, p).parked ==> e in s.parked || e.pane == p
    ensures Park(s, p).panes == s.panes && Park(s, p).locks == s.locks && |Park(s, p).browsers| == |s.browsers|
    ensures forall q :: 0 <= q < |s.browsers| ==> Park(s, p).browsers[q].guest == s.browsers[q].guest
  {
    var b := s.browsers[p];
    if b.key.Some? && s.parks && !b.gone {
      var at := KeyIndex(s.parked, b.key.value);
      var s1 := if at.Some? && s.parked[at.value].pane != p then Closed(s, s.parked[at.value].pane) else s;
      UnparkEntries(s1, b.key.value);
      hide Unpark;
      assert Park(s, p).parked == Unpark(s1, b.key.value).parked + [Parked(b.key.value, p)];
    }
  }

  lemma ParkHeld(s: Manager, p: nat)
    requires p < |s.browsers|
    ensures |Park(s, p).browsers| == |s.browsers|
    ensures forall q :: 0 <= q < |s.browsers| ==> Park(s, p).browsers[q].guest == s.browsers[q].guest
    ensures forall q :: 0 <= q < |s.browsers| && Held(Park(s, p), q) ==> q == p || Held(s, q)
  {
    ParkEntries(s, p);
    hide Park;
  }

  lemma CloseHeld(s: Manager, x: Stream)
    requires Inv(s) && x in s.panes
    ensures NoneNew(s, CloseStep(s, x)) && |CloseStep(s, x).browsers| == |s.browsers|
  {
    var s1, p := s.(panes := s.panes - {x}), s.panes[x];
    assert IsLive(s, p);
    ShrinkHeld(s, s1);
    ParkHeld(s1, p);
    hide Placement, Locks, Holders, Park, IsLive, IsParked;
  }

  lemma {:induction false} ParkAllHeld(s: Manager, streams: seq<Stream>)
    requires Inv(s)
    ensures NoneNew(s, ParkAllStep(s, streams)) && |ParkAllStep(s, streams).browsers| == |s.browsers|
    decreases |streams|
  {
    hide Inv, Held;
    if streams != [] {
      if streams[0] in s.panes && s.panes[streams[0]] < |s.browsers| {
        var s1 := CloseStep(s, streams[0]);
        CloseKeeps(s, streams[0]);
        CloseHeld(s, streams[0]);
        ParkAllHeld(s1, streams[1..]);
        Then(s, s1, ParkAllStep(s1, streams[1..]));
      } else {
        ParkAllHeld(s, streams[1..]);
      }
    }
  }

  lemma ExpireHeld(s: Manager, key: Key)
    requires Inv(s)
    ensures NoneNew(s, ExpireStep(s, key)) && |ExpireStep(s, key).browsers| == |s.browsers|
  {
    if KeyIndex(s.parked, key).Some? { ShrinkHeld(s, ExpireStep(s, key)); }
  }

  lemma ForgetHeld(s: Manager, key: Key)
    requires Inv(s)
    ensures NoneNew(s, ForgetStep(s, key)) && |ForgetStep(s, key).browsers| == |s.browsers|
  {
    var browsers := seq(|s.browsers|, p requires 0 <= p < |s.browsers| =>
      if s.browsers[p].key == Some(key) && IsLive(s, p) then s.browsers[p].(gone := true) else s.browsers[p]);
    var panes := map x | x in s.panes && (s.panes[x] >= |s.browsers| || s.browsers[s.panes[x]].key != Some(key)) :: s.panes[x];
    var s1 := s.(browsers := browsers, panes := panes);
    assert ForgetStep(s, key) == ExpireStep(s1, key);
    ShrinkKeeps(s, s1);
    ShrinkHeld(s, s1);
    ExpireHeld(s1, key);
    Then(s, s1, ExpireStep(s1, key));
  }

  lemma TakeHeld(s: Manager, n: Profile)
    requires Inv(s) && n in s.locks && s.locks[n].Taking?
    ensures NoneNew(s, TakeStep(s, n))
  {
    var s', p := TakeStep(s, n), s.locks[n].pane;
    assert WorkOk(s, n, s.locks[n]) && IsTaking(s, p);
    hide Placement, Locks, Holders;
    forall q | 0 <= q < |s.browsers| && q != p && IsLive(s', q)
      ensures IsLive(s, q)
    {
      var y :| y in s'.panes && s'.panes[y] == q;
      assert y in s.panes && s.panes[y] == q;
    }
  }

  /** A lock's change frees a browser between streams, or starts on none. */
  lemma LockHeld(s: Manager, s': Manager)
    requires s' == s.(locks := s'.locks) && forall n :: n in s'.locks && s'.locks[n].Taking? ==> n in s.locks && s.locks[n] == s'.locks[n]
    ensures NoneNew(s, s')
  {
  }

  /** Where an attach opens a fresh throwaway browser at once: the manager as it is then. */
  function OpensAt(s0: Manager, req: Request): Option<Manager>
    requires Known(s0)
  {
    var s := s0.(used := s0.used + {req.stream});
    if req.kept.Some? then None
    else
      var at := if req.key.Some? then KeyIndex(s.parked, req.key.value) else None;
      var rest := s.(parked := if at.Some? then Without(s.parked, at.value) else s.parked);
      if at.Some? && !s.browsers[s.parked[at.value].pane].gone then
        var p := s.parked[at.value].pane;
        if SameShare(s.browsers[p], req) then None else Some(Closed(rest, p))
      else Some(rest)
  }

  lemma RoomHeld(s: Manager, req: Request)
    requires Inv(s) && Known(s)
    ensures NoneNew(s, Room(s, req).0)
  {
    var s1 := Room(s, req).0;
    RoomKeeps(s, req);
    RoomIs(s, req);
    hide Room, OtherKind, Placement, Locks, Holders, Placed, LiveGuests;
  }

  lemma InsertHeld(s: Manager, req: Request)
    requires forall x :: x in s.panes ==> s.panes[x] < |s.browsers|
    ensures NoneNew(s, Insert(s, req)) && |Insert(s, req).browsers| == |s.browsers| + 1
    ensures Insert(s, req).browsers[|s.browsers|].guest == req.guest
    ensures req.stream !in s.panes ==> forall q :: 0 <= q < |s.browsers| && Held(s, q) ==> Held(Insert(s, req), q)
    ensures Held(Insert(s, req), |s.browsers|)
  {
    var s', p := Insert(s, req), |s.browsers|;
    assert s'.panes[req.stream] == p;
    forall q | 0 <= q < p
      ensures IsLive(s', q) ==> IsLive(s, q)
      ensures req.stream !in s.panes && IsLive(s, q) ==> IsLive(s', q)
    {
      if IsLive(s', q) {
        var x :| x in s'.panes && s'.panes[x] == q;
        assert x in s.panes && s.panes[x] == q;
      }
      if IsLive(s, q) {
        var x :| x in s.panes && s.panes[x] == q;
        assert x != req.stream ==> x in s'.panes && s'.panes[x] == q;
      }
    }
    hide IsLive;
  }

  lemma SettleHeld(s: Manager, lock: Option<Profile>)
    ensures NoneNew(s, Locked(s, lock, Settling)) && Locked(s, lock, Settling).browsers == s.browsers
    ensures lock.None? || (lock.value in s.locks && !s.locks[lock.value].Taking?) ==>
      forall q :: 0 <= q < |s.browsers| && Held(s, q) ==> Held(Locked(s, lock, Settling), q)
  {
    var s' := Locked(s, lock, Settling);
    forall q | 0 <= q < |s.browsers|
      ensures IsTaking(s', q) ==> IsTaking(s, q)
      ensures (lock.None? || (lock.value in s.locks && !s.locks[lock.value].Taking?)) && IsTaking(s, q) ==> IsTaking(s', q)
    {
      if n :| n in s.locks && s.locks[n].Taking? && s.locks[n].pane == q {
        assert Some(n) != lock ==> n in s'.locks && s'.locks[n] == s.locks[n];
      }
    }
    hide IsTaking;
  }

  lemma OpenHeld(s: Manager, req: Request, lock: Option<Profile>)
    requires Inv(s) && Known(s)
    ensures NoneNew(s, Open(s, req, lock))
    ensures |Open(s, req, lock).browsers| == |s.browsers| + if Room(s, req).1 then 1 else 0
    ensures Room(s, req).1 ==> Open(s, req, lock).browsers[|s.browsers|].guest == req.guest
  {
    RoomHeld(s, req);
    RoomKeeps(s, req);
    var s1, room := Room(s, req).0, Room(s, req).1;
    assert Open(s, req, lock) == if room then Locked(Insert(s1, req), lock, Settling) else Locked(s1, lock, Settling);
    hide Room, Open, Placement, Locks, Holders, Held;
    if room {
      InsertHeld(s1, req);
      SettleHeld(Insert(s1, req), lock);
      hide Insert, Locked, NoneNew;
      Then(s, s1, Insert(s1, req));
      Then(s, Insert(s1, req), Locked(Insert(s1, req), lock, Settling));
    } else {
      SettleHeld(s1, lock);
      hide Locked, NoneNew;
      Then(s, s1, Locked(s1, lock, Settling));
    }
  }

  /** Live, parked and between streams the owner has `MAX_PANES` browsers, but `counts` sees fewer. */
  ghost predicate Crowded(s: Manager, req: Request) {
    !req.guest && |Placed(s, false)| < MAX_PANES && |OwnersHeld(s)| >= MAX_PANES
  }

  lemma OpenHolds(s: Manager, req: Request, lock: Option<Profile>)
    requires Inv(s) && Known(s) && Room(s, req) == (s, true) && !req.guest && req.stream !in s.panes
    requires lock.Some? ==> lock.value in s.locks && !s.locks[lock.value].Taking?
    ensures |OwnersHeld(Open(s, req, lock))| == |OwnersHeld(s)| + 1
  {
    var s', s1, p := Open(s, req, lock), Insert(s, req), |s.browsers|;
    assert s' == Locked(s1, lock, Settling);
    OpenHeld(s, req, lock);
    hide Open, Placement, Locks, Holders, Room, Held;
    InsertHeld(s, req);
    SettleHeld(s1, lock);
    assert s1.locks == s.locks;
    hide Insert, Locked;
    assert OwnersHeld(s') == OwnersHeld(s) + {p};
  }

  /** The browser evicted was held and is no longer. */
  lemma EvictFrees(s: Manager, guest: bool)
    requires Inv(s) && Known(s) && Evict(s, guest).Some? && !guest
    ensures |OwnersHeld(Evict(s, guest).value)| < |OwnersHeld(s)|
  {
    var i, s' := Oldest(s, guest, 0).value, Evict(s, guest).value;
    var p := s.parked[i].pane;
    assert s.parked[i] in s.parked && Held(s, p);
    UnparkKeeps(s, i);
    EvictKeeps(s, guest);
    assert s' == Closed(s.(parked := Without(s.parked, i)), p);
    RoomHeldByEvict(s, guest);
    hide Evict, Oldest, Placement, Locks, Holders;
    assert !Held(s', p) && p in OwnersHeld(s);
    Fewer(OwnersHeld(s'), OwnersHeld(s) - {p});
  }

  lemma RoomHeldByEvict(s: Manager, guest: bool)
    requires Known(s) && Evict(s, guest).Some?
    ensures NoneNew(s, Evict(s, guest).value) && |Evict(s, guest).value.browsers| == |s.browsers|
  {
    EvictIs(s, guest);
    hide Evict, OtherKind;
  }

  /** Opening keeps the owner's browsers within `MAX_PANES` exactly when it is not crowded by one between streams. */
  lemma OpenFitsIff(s: Manager, req: Request, lock: Option<Profile>)
    requires Inv(s) && Known(s) && |OwnersHeld(s)| <= MAX_PANES && req.stream !in s.panes
    requires lock.Some? ==> lock.value in s.locks && !s.locks[lock.value].Taking?
    ensures |OwnersHeld(Open(s, req, lock))| <= MAX_PANES <==> !Crowded(s, req)
  {
    OpenHeld(s, req, lock);
    var s', p := Open(s, req, lock), |s.browsers|;
    if req.guest || !Room(s, req).1 {
      hide Room, Open, Held, Placed, Inv;
      PlacedAreHeld(s);
      assert OwnersHeld(s') <= OwnersHeld(s);
      Fewer(OwnersHeld(s'), OwnersHeld(s));
      NoRoom(s, req);
    } else if |Placed(s, false)| < MAX_PANES {
      hide Open, Held, Placed, Inv;
      OpenHolds(s, req, lock);
    } else {
      var s1 := Evict(s, false).value;
      assert Room(s, req) == (s1, true) && s' == Locked(Insert(s1, req), lock, Settling);
      EvictKeeps(s, false);
      hide Open, Held, Placed, Inv, Room;
      EvictFrees(s, false);
      InsertedOne(s1, req, lock);
    }
  }

  lemma NoRoom(s: Manager, req: Request)
    requires Known(s) && (req.guest || !Room(s, req).1)
    ensures !Crowded(s, req)
  {
  }

  lemma PlacedAreHeld(s: Manager)
    ensures Placed(s, false) <= OwnersHeld(s) && |Placed(s, false)| <= |OwnersHeld(s)|
  {
    Fewer(Placed(s, false), OwnersHeld(s));
  }

  lemma InsertedOne(s: Manager, req: Request, lock: Option<Profile>)
    requires Inv(s)
    ensures |OwnersHeld(Locked(Insert(s, req), lock, Settling))| <= |OwnersHeld(s)| + 1
  {
    var s1, p := Insert(s, req), |s.browsers|;
    var s' := Locked(s1, lock, Settling);
    InsertHeld(s, req);
    SettleHeld(s1, lock);
    hide Insert, Locked, Held, Inv;
    Then2(s, s1, s');
    Fewer(OwnersHeld(s'), OwnersHeld(s) + {p});
  }

  lemma Then2(s: Manager, s1: Manager, s': Manager)
    requires NoneNew(s, s1) && NoneNew(s1, s') && |s1.browsers| == |s.browsers| + 1 && s'.browsers == s1.browsers
    ensures OwnersHeld(s') <= OwnersHeld(s) + {|s.browsers|}
  {
    hide Held;
  }

  // ---- Every step ----

  lemma TakeoverHeld(s: Manager, req: Request)
    requires Inv(s) && TakesOver(s, req)
    ensures var p := s.holders[req.kept.value];
      var s' := Locked(Detached(s, p), req.kept, Taking(req.stream, p));
      NoneNew(s, s') && |s'.browsers| == |s.browsers|
  {
    var p := s.holders[req.kept.value];
    assert IsLive(s, p);
    ShrinkHeld(s, Detached(s, p));
    hide Placement, Locks, Holders, IsLive;
  }

  lemma HandedBackHeld(s: Manager, i: nat, x: Stream)
    requires Inv(s) && i < |s.parked|
    ensures var s' := s.(parked := Without(s.parked, i), panes := s.panes[x := s.parked[i].pane]);
      NoneNew(s, s')
  {
    var p, rest := s.parked[i].pane, s.(parked := Without(s.parked, i));
    assert s.parked[i] in s.parked && IsParked(s, p);
    ShrinkHeld(s, rest);
    var s' := rest.(panes := rest.panes[x := p]);
    forall q | 0 <= q < |s.browsers| && q != p && IsLive(s', q)
      ensures IsLive(rest, q)
    {
      var y :| y in s'.panes && s'.panes[y] == q;
      assert rest.panes[y] == q;
    }
    hide Placement, Locks, Holders, IsLive;
  }

  predicate HandsBack(s: Manager, req: Request, i: nat) {
    i < |s.parked| && s.parked[i].pane < |s.browsers| && !s.browsers[s.parked[i].pane].gone && SameShare(s.browsers[s.parked[i].pane], req)
  }

  /** The key's parked browser goes to this attach, or back for want of room. */
  lemma HandBackHeld(s: Manager, req: Request, i: nat)
    requires Inv(s) && Known(s) && req.key.Some? && KeyIndex(s.parked, req.key.value) == Some(i) && HandsBack(s, req, i)
    ensures NoneNew(s, Reclaim(s, req)) && |Reclaim(s, req).browsers| == |s.browsers|
  {
    var p, rest, s' := s.parked[i].pane, s.(parked := Without(s.parked, i)), Reclaim(s, req);
    if GuestFits(rest, req) {
      var s1 := rest.(panes := rest.panes[req.stream := p]);
      assert s' == Locked(s1, req.kept, Settling);
      hide Reclaim, Inv;
      HandedBackHeld(s, i, req.stream);
      SettleHeld(s1, req.kept);
      hide NoneNew;
      Then(s, s1, s');
    } else {
      assert s' == Locked(Park(rest, p), req.kept, Settling);
      hide Reclaim, Inv, Park;
      BackHeld(s, rest, i);
      SettleHeld(Park(rest, p), req.kept);
      hide NoneNew;
      Then(s, Park(rest, p), s');
    }
  }

  /** On a kept profile, with none handed back, the attach goes on to wait. */
  lemma WaitHeld(s: Manager, req: Request)
    requires Inv(s) && Known(s) && req.kept.Some?
    requires var at := if req.key.Some? then KeyIndex(s.parked, req.key.value) else None; at.None? || !HandsBack(s, req, at.value)
    ensures NoneNew(s, Reclaim(s, req)) && |Reclaim(s, req).browsers| == |s.browsers|
  {
    var at := if req.key.Some? then KeyIndex(s.parked, req.key.value) else None;
    var s' := Reclaim(s, req);
    var s1 := if at.None? then s
              else
                var rest := s.(parked := Without(s.parked, at.value));
                if s.browsers[s.parked[at.value].pane].gone then rest else Closed(rest, s.parked[at.value].pane);
    assert s' == s1.(locks := s1.locks[req.kept.value := Waiting(req)]) by {
      if at.None? { assert s.(parked := s.parked) == s; }
    }
    hide Reclaim;
    ShrinkHeld(s, s1);
    LockHeld(s1, s');
    hide NoneNew;
    Then(s, s1, s');
  }

  /** Up to the opening of a fresh browser, an attach holds nothing new. */
  lemma ReclaimHeld(s: Manager, req: Request)
    requires Inv(s) && Known(s)
    requires req.kept.None? ==> (var at := if req.key.Some? then KeyIndex(s.parked, req.key.value) else None; at.Some? && HandsBack(s, req, at.value))
    ensures NoneNew(s, Reclaim(s, req)) && |Reclaim(s, req).browsers| == |s.browsers|
  {
    var at := if req.key.Some? then KeyIndex(s.parked, req.key.value) else None;
    hide Inv, Reclaim;
    if at.Some? && HandsBack(s, req, at.value) {
      HandBackHeld(s, req, at.value);
    } else {
      WaitHeld(s, req);
    }
  }

  lemma BackHeld(s: Manager, rest: Manager, i: nat)
    requires Inv(s) && i < |s.parked| && rest == s.(parked := Without(s.parked, i)) && s.parked[i].pane < |s.browsers|
    ensures NoneNew(s, Park(rest, s.parked[i].pane)) && |Park(rest, s.parked[i].pane).browsers| == |s.browsers|
  {
    var p := s.parked[i].pane;
    assert s.parked[i] in s.parked && IsParked(s, p);
    ShrinkHeld(s, rest);
    ParkHeld(rest, p);
    hide Park, Placement, Locks, Holders, IsLive, IsParked;
  }

  /** The step opens a fresh owner's browser while one between streams takes the room `counts` sees. */
  ghost predicate CrowdedStep(s: Manager, a: Action)
    requires Enabled(s, a)
  {
    match a
    case OpenFresh(n) => Crowded(s, s.locks[n].req)
    case Attach(req) => OpensAt(s, req).Some? && Crowded(OpensAt(s, req).value, req)
    case _ => false
  }

  lemma UsedHeld(s: Manager, x: Stream)
    ensures NoneNew(s, s.(used := s.used + {x}))
  {
  }

  lemma AttachOpens(s0: Manager, req: Request, s1: Manager)
    requires Inv(s0) && Known(s0) && req.stream !in s0.used && OpensAt(s0, req) == Some(s1)
    ensures Known(s1) && Inv(s1) && NoneNew(s0, s1) && |s1.browsers| == |s0.browsers| && req.stream !in s1.panes
    ensures AttachStep(s0, req) == Open(s1, req, None)
  {
    var s := s0.(used := s0.used + {req.stream});
    OpensIs(s0, req, s1);
    UsedKeeps(s0, req.stream);
    UsedHeld(s0, req.stream);
    hide AttachStep, OpensAt, Open;
    ShrinkKeeps(s, s1);
    ShrinkHeld(s, s1);
    Then(s0, s, s1);
  }

  /** The manager an attach that keeps nothing reclaims from: its own, less the key's parked browser. */
  lemma ReclaimOpens(s: Manager, req: Request, s1: Manager)
    requires Known(s) && req.kept.None?
    requires var at := if req.key.Some? then KeyIndex(s.parked, req.key.value) else None;
      s1 == if at.None? then s
            else
              var rest := s.(parked := Without(s.parked, at.value));
              if s.browsers[s.parked[at.value].pane].gone then rest else Closed(rest, s.parked[at.value].pane)
    requires var at := if req.key.Some? then KeyIndex(s.parked, req.key.value) else None; at.None? || !HandsBack(s, req, at.value)
    ensures Known(s1) && Reclaim(s, req) == Open(s1, req, None) && Shrinks(s, s1)
  {
    hide Open;
    var at := if req.key.Some? then KeyIndex(s.parked, req.key.value) else None;
    if at.None? { assert s.(parked := s.parked) == s; }
  }

  lemma OpensIs(s0: Manager, req: Request, s1: Manager)
    requires Known(s0) && OpensAt(s0, req) == Some(s1)
    ensures Shrinks(s0.(used := s0.used + {req.stream}), s1) && AttachStep(s0, req) == Open(s1, req, None)
  {
    var s := s0.(used := s0.used + {req.stream});
    assert Known(s) && Dismissed(s, req) == s && !TakesOver(s, req);
    var at := if req.key.Some? then KeyIndex(s.parked, req.key.value) else None;
    if at.None? { assert s.(parked := s.parked) == s; }
    assert AttachStep(s0, req) == Reclaim(s, req) by { hide Reclaim, Dismissed, TakesOver; }
    hide Reclaim, Open, AttachStep, Shrinks;
    ReclaimOpens(s, req, s1);
  }

  lemma DismissHeld(s: Manager, req: Request)
    requires Inv(s) && Known(s)
    ensures var d := Dismissed(s, req);
      Inv(d) && Known(d) && NoneNew(s, d) && |d.browsers| == |s.browsers| && (req.kept.None? ==> d == s)
  {
    var d := Dismissed(s, req);
    DismissKeeps(s, req);
    if d != s { ShrinkHeld(s, d); } else { NoneNewItself(s); }
    hide NoneNew, Locks, Holders;
    assert Known(d);
  }

  lemma AttachHeld(s0: Manager, req: Request)
    requires Inv(s0) && Known(s0) && req.stream !in s0.used && OpensAt(s0, req).None?
    ensures NoneNew(s0, AttachStep(s0, req)) && |AttachStep(s0, req).browsers| == |s0.browsers|
  {
    var s, s' := s0.(used := s0.used + {req.stream}), AttachStep(s0, req);
    UsedKeeps(s0, req.stream);
    UsedHeld(s0, req.stream);
    hide Inv, NoneNew;
    if TakesOver(s, req) {
      TakeoverHeld(s, req);
      Then(s0, s, s');
    } else {
      var d := Dismissed(s, req);
      DismissHeld(s, req);
      assert s' == Reclaim(d, req);
      hide Dismissed, Reclaim, AttachStep;
      ReclaimHeld(d, req);
      Then(s0, s, d);
      Then(s0, d, s');
    }
  }

  lemma StepFitsIff(s: Manager, a: Action)
    requires Inv(s) && Enabled(s, a) && |OwnersHeld(s)| <= MAX_PANES
    ensures |OwnersHeld(Step(s, a))| <= MAX_PANES <==> !CrowdedStep(s, a)
  {
    match a
    case OpenFresh(n) =>
      assert WorkOk(s, n, s.locks[n]) && StreamOf(s.locks[n]) == Some(s.locks[n].req.stream);
      OpenFitsIff(s, s.locks[n].req, Some(n));
    case Attach(req) =>
      if OpensAt(s, req).Some? {
        var s1 := OpensAt(s, req).value;
        AttachOpens(s, req, s1);
        SameBrowsers(s, s1);
        OpenFitsIff(s1, req, None);
      } else {
        AttachHeld(s, req);
        SameBrowsers(s, AttachStep(s, req));
      }
    case _ =>
      OtherHeld(s, a);
      SameBrowsers(s, Step(s, a));
  }

  lemma GoneShrinks(s: Manager, b: Browser, p: nat)
    requires p < |s.browsers| && b == s.browsers[p].(gone := true, exited := b.exited) && (s.browsers[p].exited ==> b.exited)
    ensures Shrinks(s, s.(browsers := s.browsers[p := b])) && Shrinks(s, Gone(s.(browsers := s.browsers[p := b]), p))
  {
  }

  lemma GoneHeld(s: Manager, p: nat)
    requires Inv(s) && p < |s.browsers|
    ensures NoneNew(s, PageGoneStep(s, p)) && NoneNew(s, ExitStep(s, p))
  {
    GoneShrinks(s, s.browsers[p].(gone := true), p);
    GoneShrinks(s, s.browsers[p].(gone := true, exited := true), p);
    hide Inv, Shrinks, Gone;
    if s.browsers[p].gone {
      NoneNewItself(s);
    } else {
      ShrinkHeld(s, PageGoneStep(s, p));
    }
    hide NoneNew;
    ShrinkHeld(s, ExitStep(s, p));
  }

  lemma NoneNewItself(s: Manager)
    ensures NoneNew(s, s)
  {
  }

  lemma UnheldHeld(s: Manager, p: nat)
    requires p < |s.browsers|
    ensures NoneNew(s, UnheldStep(s, p))
  {
  }

  lemma FailHeld(s: Manager, x: Stream, p: nat)
    requires Inv(s) && p < |s.browsers|
    ensures NoneNew(s, FailStep(s, x, p)) && |FailStep(s, x, p).browsers| == |s.browsers|
  {
    ShrinkHeld(s, FailStep(s, x, p));
  }

  lemma OtherHeld(s: Manager, a: Action)
    requires Inv(s) && Enabled(s, a) && !a.Attach? && !a.OpenFresh?
    ensures NoneNew(s, Step(s, a)) && |Step(s, a).browsers| == |s.browsers|
  {
    hide Inv, NoneNew, Placed, Gone, ParkAllStep, ForgetStep, ExpireStep, Park;
    match a
    case Take(n) => TakeHeld(s, n);
    case Waited(n, elsewhere) => LockHeld(s, WaitedStep(s, n, elsewhere));
    case Unlock(n) => LockHeld(s, UnlockStep(s, n));
    case Fail(x, p) => FailHeld(s, x, p);
    case Close(x) => CloseHeld(s, x);
    case PageGone(p) => GoneHeld(s, p); GoneLength(s, p);
    case Exit(p) => GoneHeld(s, p); GoneLength(s, p);
    case Unheld(p) => UnheldHeld(s, p);
    case Expire(k) => ExpireHeld(s, k);
    case ParkAll(streams) => ParkAllHeld(s, streams);
    case Forget(k) => ForgetHeld(s, k);
    case DeleteBegin(n) => LockHeld(s, s.(locks := s.locks[n := Checking]));
    case DeleteCheck(n, wanted) => LockHeld(s, CheckStep(s, n, wanted));
    case DeleteDone(n) => LockHeld(s, UnlockStep(s, n));
  }

  lemma GoneLength(s: Manager, p: nat)
    requires p < |s.browsers|
    ensures |PageGoneStep(s, p).browsers| == |s.browsers| && |ExitStep(s, p).browsers| == |s.browsers|
  {
  }

  ghost predicate AlwaysFits(s: Manager, acts: seq<Action>)
    requires ValidRun(s, acts)
    decreases |acts|
  {
    |OwnersHeld(s)| <= MAX_PANES && (acts == [] || AlwaysFits(Step(s, acts[0]), acts[1..]))
  }

  ghost predicate NeverCrowded(s: Manager, acts: seq<Action>)
    requires ValidRun(s, acts)
    decreases |acts|
  {
    acts == [] || (!CrowdedStep(s, acts[0]) && NeverCrowded(Step(s, acts[0]), acts[1..]))
  }

  lemma {:induction false} FitsIff(s: Manager, acts: seq<Action>)
    requires Inv(s) && ValidRun(s, acts) && |OwnersHeld(s)| <= MAX_PANES
    ensures AlwaysFits(s, acts) <==> NeverCrowded(s, acts)
    decreases |acts|
  {
    hide Inv, Step, Enabled, OwnersHeld, CrowdedStep;
    if acts != [] {
      var s1 := Step(s, acts[0]);
      StepFitsIff(s, acts[0]);
      StepKeeps(s, acts[0]);
      if |OwnersHeld(s1)| <= MAX_PANES { FitsIff(s1, acts[1..]); }
    }
  }

  /**
   * Over a whole run the owner's browsers, live, parked or between two streams, stay within `MAX_PANES`
   * exactly when none is opened fresh while one being taken over holds the last place; and then so does
   * what `counts` counts.
   */
  lemma OwnersFitIff(parks: bool, acts: seq<Action>)
    requires ValidRun(Start(parks), acts)
    ensures AlwaysFits(Start(parks), acts) <==> NeverCrowded(Start(parks), acts)
    ensures NeverCrowded(Start(parks), acts) ==> |Placed(Run(Start(parks), acts), false)| <= MAX_PANES
  {
    StartKeeps(parks);
    assert OwnersHeld(Start(parks)) == {};
    FitsIff(Start(parks), acts);
    if AlwaysFits(Start(parks), acts) { LastFits(Start(parks), acts); }
  }

  lemma {:induction false} LastFits(s: Manager, acts: seq<Action>)
    requires ValidRun(s, acts) && AlwaysFits(s, acts)
    ensures |Placed(Run(s, acts), false)| <= MAX_PANES
    decreases |acts|
  {
    hide Step, Enabled, OwnersHeld, Placed;
    if acts == [] { PlacedAreHeld(s); } else { LastFits(Step(s, acts[0]), acts[1..]); }
  }
}
