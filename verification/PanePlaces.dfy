/** Over every run: a browser is in one place, and a kept profile has one browser, its recorded holder. */
module PanePlaces {
  import opened Common
  import opened PaneManager

  // ---- What every step keeps ----

  function StreamOf(w: Work): Option<Stream> {
    match w
    case Taking(x, _) => Some(x)
    case Waiting(req) => Some(req.stream)
    case Cleared(req) => Some(req.stream)
    case _ => None
  }

  /** Live browsers are on one stream each; parked ones under their own key, and not live. */
  ghost predicate Placement(s: Manager) {
    && (forall x :: x in s.panes ==> s.panes[x] < |s.browsers| && x in s.used)
    && (forall x, y :: x in s.panes && y in s.panes && x != y ==> s.panes[x] != s.panes[y])
    && (forall e :: e in s.parked ==> OwnPlace(s, e))
    && (forall i, j :: 0 <= i < j < |s.parked| ==> s.parked[i].key != s.parked[j].key)
  }

  ghost predicate OwnPlace(s: Manager, e: Parked) {
    e.pane < |s.browsers| && s.browsers[e.pane].key == Some(e.key) && !IsLive(s, e.pane)
  }

  /** A browser between two streams is nowhere else. */
  ghost predicate WorkOk(s: Manager, name: Profile, w: Work) {
    && (StreamOf(w).Some? ==> StreamOf(w).value in s.used && StreamOf(w).value !in s.panes)
    && match w
       case Taking(_, p) => p < |s.browsers| && s.browsers[p].kept == Some(name) && !IsLive(s, p) && !IsParked(s, p)
       case Waiting(req) => req.kept == Some(name)
       case Cleared(req) => req.kept.None? || (req.kept.value == name && name !in s.holders)
       case Deleting => name !in s.holders
       case _ => true
  }

  ghost predicate Locks(s: Manager) {
    && (forall n :: n in s.locks ==> WorkOk(s, n, s.locks[n]))
    && (forall n, m :: n in s.locks && m in s.locks && n != m && StreamOf(s.locks[n]).Some? ==> StreamOf(s.locks[n]) != StreamOf(s.locks[m]))
  }

  ghost predicate HolderOk(s: Manager, p: nat)
    requires p < |s.browsers|
  {
    var b := s.browsers[p];
    b.kept.Some? && !b.exited ==> b.kept.value in s.holders && s.holders[b.kept.value] == p
  }

  ghost predicate Holders(s: Manager) {
    && (forall n :: n in s.holders ==> s.holders[n] < |s.browsers| && s.browsers[s.holders[n]].kept == Some(n))
    && (forall p :: 0 <= p < |s.browsers| ==> HolderOk(s, p))
  }

  ghost predicate Inv(s: Manager) {
    Placement(s) && Locks(s) && Holders(s)
  }

  // ---- The moves steps are made of ----

  /** Browsers may close or end, and leave their places; nothing else. */
  ghost predicate Shrinks(s: Manager, s': Manager) {
    && s' == s.(browsers := s'.browsers, panes := s'.panes, parked := s'.parked)
    && |s'.browsers| == |s.browsers|
    && (forall p :: 0 <= p < |s.browsers| ==>
          s'.browsers[p] == s.browsers[p].(gone := s'.browsers[p].gone, exited := s'.browsers[p].exited) && (s.browsers[p].exited ==> s'.browsers[p].exited))
    && (forall x :: x in s'.panes ==> x in s.panes && s'.panes[x] == s.panes[x])
    && (s'.parked == s.parked || exists i :: 0 <= i < |s.parked| && s'.parked == Without(s.parked, i))
  }

  lemma ParkedStay(parked: seq<Parked>, i: nat)
    requires i < |parked| && forall j, k :: 0 <= j < k < |parked| ==> parked[j].key != parked[k].key
    ensures forall e :: e in Without(parked, i) ==> e in parked && e != parked[i]
    ensures forall e :: e in parked && e != parked[i] ==> e in Without(parked, i)
    ensures forall j, k :: 0 <= j < k < |parked| - 1 ==> Without(parked, i)[j].key != Without(parked, i)[k].key
  {
    var r := Without(parked, i);
    assert forall j :: 0 <= j < |r| ==> r[j] == parked[if j < i then j else j + 1];
    forall e | e in parked && e != parked[i]
      ensures e in r
    {
      var j :| 0 <= j < |parked| && parked[j] == e;
      assert r[if j < i then j else j - 1] == e;
    }
  }

  lemma ShrinkPlaces(s: Manager, s': Manager)
    requires Placement(s) && Shrinks(s, s')
    ensures Placement(s')
    ensures forall p :: 0 <= p < |s.browsers| ==> (IsLive(s', p) ==> IsLive(s, p)) && (IsParked(s', p) ==> IsParked(s, p))
  {
    if s'.parked != s.parked {
      var i :| 0 <= i < |s.parked| && s'.parked == Without(s.parked, i);
      ParkedStay(s.parked, i);
    }
    assert forall e :: e in s'.parked ==> e in s.parked;
    hide Without;
    forall p | 0 <= p < |s.browsers|
      ensures (IsLive(s', p) ==> IsLive(s, p)) && (IsParked(s', p) ==> IsParked(s, p))
    {
      if IsLive(s', p) {
        var x :| x in s'.panes && s'.panes[x] == p;
        assert s.panes[x] == p;
      }
    }
    forall e | e in s'.parked
      ensures OwnPlace(s', e)
    {
      assert OwnPlace(s, e);
    }
  }

  lemma ShrinkKeeps(s: Manager, s': Manager)
    requires Inv(s) && Shrinks(s, s')
    ensures Inv(s')
    ensures forall p :: 0 <= p < |s.browsers| ==> (IsLive(s', p) ==> IsLive(s, p)) && (IsParked(s', p) ==> IsParked(s, p))
  {
    ShrinkPlaces(s, s');
    hide Placement, IsLive, IsParked;
    forall p | 0 <= p < |s.browsers|
      ensures HolderOk(s', p)
    {
      assert HolderOk(s, p);
    }
    forall n | n in s'.locks
      ensures WorkOk(s', n, s'.locks[n])
    {
      assert WorkOk(s, n, s.locks[n]);
    }
  }

  ghost predicate Nowhere(s: Manager, p: nat) {
    p < |s.browsers| && !IsLive(s, p) && !IsParked(s, p) && !IsTaking(s, p)
  }

  ghost predicate Unclaimed(s: Manager, x: Stream) {
    x in s.used && x !in s.panes && forall n :: n in s.locks ==> StreamOf(s.locks[n]) != Some(x)
  }

  /** A browser that is nowhere goes live on an unclaimed stream. */
  lemma LiveKeeps(s: Manager, x: Stream, p: nat)
    requires Inv(s) && Nowhere(s, p) && Unclaimed(s, x)
    ensures Inv(s.(panes := s.panes[x := p]))
  {
    var s' := s.(panes := s.panes[x := p]);
    forall q | q != p
      ensures IsLive(s', q) <==> IsLive(s, q)
    {
      if IsLive(s, q) {
        var y :| y in s.panes && s.panes[y] == q;
        assert s'.panes[y] == q;
      }
    }
    forall e | e in s'.parked
      ensures OwnPlace(s', e)
    {
      assert OwnPlace(s, e);
    }
    forall n | n in s'.locks
      ensures WorkOk(s', n, s'.locks[n])
    {
      assert WorkOk(s, n, s.locks[n]);
    }
    assert forall q :: 0 <= q < |s.browsers| && HolderOk(s, q) ==> HolderOk(s', q);
  }

  /** A browser that is nowhere is parked last, under its key, no other being there. */
  lemma ParkedKeeps(s: Manager, key: Key, p: nat)
    requires Inv(s) && Nowhere(s, p) && s.browsers[p].key == Some(key) && KeyIndex(s.parked, key).None?
    ensures Inv(s.(parked := s.parked + [Parked(key, p)]))
  {
    var s' := s.(parked := s.parked + [Parked(key, p)]);
    forall e | e in s'.parked
      ensures OwnPlace(s', e)
    {
      if e in s.parked { assert OwnPlace(s, e); }
    }
    forall n | n in s'.locks
      ensures WorkOk(s', n, s'.locks[n])
    {
      assert WorkOk(s, n, s.locks[n]);
    }
    assert forall q :: 0 <= q < |s.browsers| && HolderOk(s, q) ==> HolderOk(s', q);
  }

  lemma LockKeeps(s: Manager, n: Profile, w: Work)
    requires Inv(s) && WorkOk(s, n, w)
    requires StreamOf(w).Some? ==> forall m :: m in s.locks && m != n ==> StreamOf(s.locks[m]) != StreamOf(w)
    ensures Inv(s.(locks := s.locks[n := w]))
  {
    var s' := s.(locks := s.locks[n := w]);
    forall m | m in s'.locks
      ensures WorkOk(s', m, s'.locks[m])
    {
      if m != n { assert WorkOk(s, m, s.locks[m]); }
    }
    assert forall e :: OwnPlace(s, e) ==> OwnPlace(s', e);
    assert forall q :: 0 <= q < |s.browsers| && HolderOk(s, q) ==> HolderOk(s', q);
  }

  lemma UnlockKeeps(s: Manager, n: Profile)
    requires Inv(s)
    ensures Inv(UnlockStep(s, n))
  {
    var s' := UnlockStep(s, n);
    forall m | m in s'.locks
      ensures WorkOk(s', m, s'.locks[m])
    {
      assert WorkOk(s, m, s.locks[m]);
    }
    assert forall e :: OwnPlace(s, e) ==> OwnPlace(s', e);
    assert forall q :: 0 <= q < |s.browsers| && HolderOk(s, q) ==> HolderOk(s', q);
  }

  lemma InsertPlaces(s: Manager, req: Request)
    requires Placement(s) && Unclaimed(s, req.stream)
    ensures Placement(Insert(s, req)) && forall q :: 0 <= q < |s.browsers| ==> (IsLive(Insert(s, req), q) <==> IsLive(s, q))
  {
    var s', p := Insert(s, req), |s.browsers|;
    assert forall q :: 0 <= q < p ==> s'.browsers[q] == s.browsers[q];
    forall q | 0 <= q < p
      ensures IsLive(s', q) <==> IsLive(s, q)
    {
      if IsLive(s, q) {
        var y :| y in s.panes && s.panes[y] == q;
        assert s'.panes[y] == q;
      }
    }
    forall e | e in s'.parked
      ensures OwnPlace(s', e)
    {
      assert OwnPlace(s, e);
    }
  }

  lemma InsertHolders(s: Manager, req: Request)
    requires Holders(s) && (req.kept.Some? ==> req.kept.value !in s.holders)
    ensures Holders(Insert(s, req))
  {
    var s' := Insert(s, req);
    forall q | 0 <= q < |s.browsers|
      ensures HolderOk(s', q)
    {
      assert HolderOk(s, q);
    }
  }

  /** A new browser, on a profile nobody holds and only this attach has the lock of. */
  lemma InsertKeeps(s: Manager, req: Request)
    requires Inv(s) && Unclaimed(s, req.stream)
    requires req.kept.Some? ==> req.kept.value !in s.holders && (req.kept.value in s.locks ==> s.locks[req.kept.value].Settling?)
    ensures Inv(Insert(s, req))
  {
    var s' := Insert(s, req);
    InsertPlaces(s, req);
    InsertHolders(s, req);
    hide Placement, Holders, IsLive;
    forall n | n in s'.locks
      ensures WorkOk(s', n, s'.locks[n])
    {
      assert WorkOk(s, n, s.locks[n]);
    }
  }

  // ---- The steps ----

  /** Nothing but browsers' ends and the parked list differs. */
  ghost predicate Around(s: Manager, s': Manager) {
    s' == s.(browsers := s'.browsers, parked := s'.parked) && |s'.browsers| == |s.browsers|
  }

  lemma UnparkKeeps(s: Manager, i: nat)
    requires Inv(s) && i < |s.parked|
    ensures var p, s' := s.parked[i].pane, s.(parked := Without(s.parked, i));
      Inv(s') && Nowhere(s', p) && Inv(Closed(s', p)) && Nowhere(Closed(s', p), p) && KeyIndex(s'.parked, s.parked[i].key).None?
  {
    var p, s' := s.parked[i].pane, s.(parked := Without(s.parked, i));
    assert s.parked[i] in s.parked && OwnPlace(s, s.parked[i]);
    ParkedStay(s.parked, i);
    hide Without, OwnPlace;
    ShrinkKeeps(s, s');
    forall e | e in s'.parked
      ensures e.pane != p && e.key != s.parked[i].key
    {
      assert e in s.parked && e != s.parked[i];
      assert OwnKey(s, e) && OwnKey(s, s.parked[i]);
    }
    forall n | n in s.locks
      ensures !(s.locks[n].Taking? && s.locks[n].pane == p)
    {
      assert WorkOk(s, n, s.locks[n]);
    }
    assert Nowhere(s', p);
    ShrinkKeeps(s', Closed(s', p));
  }

  ghost predicate OwnKey(s: Manager, e: Parked) {
    e in s.parked ==> OwnPlace(s, e)
  }

  /** The key's earlier parked browser is closed, and another is nowhere still. */
  lemma ReplacedKeeps(s: Manager, i: nat, p: nat, s2: Manager)
    requires Inv(s) && Nowhere(s, p) && i < |s.parked|
    requires s2 == Closed(s.(parked := Without(s.parked, i)), s.parked[i].pane)
    ensures Inv(s2) && Nowhere(s2, p) && KeyIndex(s2.parked, s.parked[i].key).None? && s2.browsers[p] == s.browsers[p]
  {
    assert s.parked[i] in s.parked && s.parked[i].pane != p;
    UnparkKeeps(s, i);
    ParkedStay(s.parked, i);
    hide Placement, Locks, Holders, Without;
  }

  lemma ParkKeeps(s: Manager, p: nat)
    requires Inv(s) && Nowhere(s, p)
    ensures Inv(Park(s, p)) && Around(s, Park(s, p))
  {
    var b := s.browsers[p];
    if b.key.None? || !s.parks || b.gone {
      ShrinkKeeps(s, Closed(s, p));
    } else {
      var key := b.key.value;
      var at := KeyIndex(s.parked, key);
      hide Placement, Locks, Holders;
      if at.None? {
        ParkedKeeps(s, key, p);
      } else {
        var i := at.value;
        var s2 := Closed(s.(parked := Without(s.parked, i)), s.parked[i].pane);
        assert s.parked[i] in s.parked && s.parked[i].pane != p;
        assert s2 == Unpark(Closed(s, s.parked[i].pane), key);
        ReplacedKeeps(s, i, p, s2);
        ParkedKeeps(s2, key, p);
      }
    }
  }

  /** A live browser off its stream is nowhere. */
  lemma OffStream(s: Manager, s': Manager, p: nat)
    requires Inv(s) && IsLive(s, p) && p < |s.browsers| && s' == s.(panes := s'.panes) && !IsLive(s', p)
    requires forall x :: x in s'.panes ==> x in s.panes && s'.panes[x] == s.panes[x]
    ensures Inv(s') && Nowhere(s', p)
  {
    ShrinkKeeps(s, s');
    forall e | e in s.parked
      ensures e.pane != p
    {
      assert OwnPlace(s, e);
    }
    forall n | n in s.locks
      ensures !(s.locks[n].Taking? && s.locks[n].pane == p)
    {
      assert WorkOk(s, n, s.locks[n]);
    }
  }

  lemma CloseKeeps(s: Manager, x: Stream)
    requires Inv(s) && x in s.panes
    ensures Inv(CloseStep(s, x))
  {
    var s1, p := s.(panes := s.panes - {x}), s.panes[x];
    assert IsLive(s, p) && !IsLive(s1, p);
    OffStream(s, s1, p);
    ParkKeeps(s1, p);
  }

  lemma {:induction false} ParkAllKeeps(s: Manager, streams: seq<Stream>)
    requires Inv(s)
    ensures Inv(ParkAllStep(s, streams))
    decreases |streams|
  {
    hide Inv;
    if streams != [] {
      if streams[0] in s.panes && s.panes[streams[0]] < |s.browsers| {
        CloseKeeps(s, streams[0]);
        ParkAllKeeps(CloseStep(s, streams[0]), streams[1..]);
      } else {
        ParkAllKeeps(s, streams[1..]);
      }
    }
  }

  lemma GoneKeeps(s: Manager, b: Browser, p: nat)
    requires Inv(s) && p < |s.browsers| && b == s.browsers[p].(gone := true, exited := b.exited) && (s.browsers[p].exited ==> b.exited)
    ensures Inv(s.(browsers := s.browsers[p := b])) && Inv(Gone(s.(browsers := s.browsers[p := b]), p))
  {
    var s1 := s.(browsers := s.browsers[p := b]);
    ShrinkKeeps(s, s1);
    ShrinkKeeps(s, Gone(s1, p));
  }

  lemma UnheldKeeps(s: Manager, p: nat)
    requires Inv(s) && p < |s.browsers| && s.browsers[p].exited
    ensures Inv(UnheldStep(s, p))
  {
    var s' := UnheldStep(s, p);
    forall q | 0 <= q < |s.browsers|
      ensures HolderOk(s', q)
    {
      assert HolderOk(s, q);
    }
    hide HolderOk;
    assert forall e :: OwnPlace(s, e) ==> OwnPlace(s', e);
    forall n | n in s'.locks
      ensures WorkOk(s', n, s'.locks[n])
    {
      assert WorkOk(s, n, s.locks[n]);
    }
  }

  lemma ExpireKeeps(s: Manager, key: Key)
    requires Inv(s)
    ensures Inv(ExpireStep(s, key))
  {
    var at := KeyIndex(s.parked, key);
    if at.Some? {
      UnparkKeeps(s, at.value);
    }
  }

  lemma ForgetKeeps(s: Manager, key: Key)
    requires Inv(s)
    ensures Inv(ForgetStep(s, key))
  {
    var browsers := seq(|s.browsers|, p requires 0 <= p < |s.browsers| =>
      if s.browsers[p].key == Some(key) && IsLive(s, p) then s.browsers[p].(gone := true) else s.browsers[p]);
    var panes := map x | x in s.panes && (s.panes[x] >= |s.browsers| || s.browsers[s.panes[x]].key != Some(key)) :: s.panes[x];
    var s1 := s.(browsers := browsers, panes := panes);
    assert ForgetStep(s, key) == ExpireStep(s1, key);
    ShrinkKeeps(s, s1);
    ExpireKeeps(s1, key);
  }

  // ---- An attach ----

  lemma EvictKeeps(s: Manager, guest: bool)
    requires Inv(s) && Known(s) && Evict(s, guest).Some?
    ensures Inv(Evict(s, guest).value) && Around(s, Evict(s, guest).value)
  {
    var i := Oldest(s, guest, 0).value;
    UnparkKeeps(s, i);
    assert Evict(s, guest).value == Closed(s.(parked := Without(s.parked, i)), s.parked[i].pane);
  }

  lemma {:induction false} GuestRoomKeeps(s: Manager, max: nat)
    requires Inv(s) && Known(s)
    ensures Inv(GuestRoom(s, max).0) && Around(s, GuestRoom(s, max).0)
    decreases |s.parked|
  {
    hide Inv, Placed;
    if |Placed(s, true)| >= max && Evict(s, true).Some? {
      EvictKeeps(s, true);
      GuestRoomKeeps(Evict(s, true).value, max);
    }
  }

  lemma RoomKeeps(s: Manager, req: Request)
    requires Inv(s) && Known(s)
    ensures Inv(Room(s, req).0) && Around(s, Room(s, req).0)
  {
    hide Inv, Placed;
    if req.guest {
      GuestRoomKeeps(s, req.max);
    } else if |Placed(s, false)| >= MAX_PANES && Evict(s, false).Some? {
      EvictKeeps(s, false);
    }
  }

  lemma SettleKeeps(s: Manager, name: Option<Profile>)
    requires Inv(s)
    ensures Inv(Locked(s, name, Settling))
  {
    if name.Some? { LockKeeps(s, name.value, Settling); }
  }

  /** A throwaway browser, or one on the profile this attach has cleared. */
  lemma OpenKeeps(s: Manager, req: Request, lock: Option<Profile>)
    requires Inv(s) && Known(s) && (lock.None? ==> req.kept.None? && Unclaimed(s, req.stream))
    requires lock.Some? ==> lock.value in s.locks && s.locks[lock.value] == Cleared(req)
    ensures Inv(Open(s, req, lock))
  {
    RoomKeeps(s, req);
    var s1, room := Room(s, req).0, Room(s, req).1;
    hide Room;
    if !room {
      SettleKeeps(s1, lock);
    } else if lock.None? {
      InsertKeeps(s1, req);
    } else {
      var n := lock.value;
      assert WorkOk(s, n, s.locks[n]);
      LockKeeps(s1, n, Settling);
      var s2 := s1.(locks := s1.locks[n := Settling]);
      assert Unclaimed(s2, req.stream) by {
        assert StreamOf(s.locks[n]) == Some(req.stream);
      }
      InsertKeeps(s2, req);
      assert Insert(s2, req) == Locked(Insert(s1, req), lock, Settling);
    }
  }

  lemma AfreshKeeps(s: Manager, req: Request)
    requires Inv(s) && Known(s) && Unclaimed(s, req.stream) && (req.kept.Some? ==> req.kept.value !in s.locks)
    ensures Inv(Afresh(s, req))
  {
    if req.kept.Some? {
      LockKeeps(s, req.kept.value, Waiting(req));
    } else {
      OpenKeeps(s, req, None);
    }
  }

  lemma ReclaimKeeps(s: Manager, req: Request)
    requires Inv(s) && Known(s) && Unclaimed(s, req.stream) && (req.kept.Some? ==> req.kept.value !in s.locks)
    ensures Inv(Reclaim(s, req))
  {
    var at := if req.key.Some? then KeyIndex(s.parked, req.key.value) else None;
    if at.None? {
      assert Reclaim(s, req) == Afresh(s, req);
      AfreshKeeps(s, req);
    } else {
      var p := s.parked[at.value].pane;
      var rest := s.(parked := Without(s.parked, at.value));
      UnparkKeeps(s, at.value);
      hide Placement, Locks, Holders, Park, Afresh, Nowhere;
      if s.browsers[p].gone {
        AfreshKeeps(rest, req);
      } else if !SameShare(s.browsers[p], req) {
        AfreshKeeps(Closed(rest, p), req);
      } else if GuestFits(rest, req) {
        LiveKeeps(rest, req.stream, p);
        SettleKeeps(rest.(panes := rest.panes[req.stream := p]), req.kept);
      } else {
        ParkKeeps(rest, p);
        SettleKeeps(Park(rest, p), req.kept);
      }
    }
  }

  lemma UsedKeeps(s: Manager, x: Stream)
    requires Inv(s) && x !in s.used
    ensures Inv(s.(used := s.used + {x})) && Unclaimed(s.(used := s.used + {x}), x)
  {
    var s' := s.(used := s.used + {x});
    assert forall e :: OwnPlace(s, e) ==> OwnPlace(s', e);
    assert forall q :: 0 <= q < |s.browsers| && HolderOk(s, q) ==> HolderOk(s', q);
    forall n | n in s'.locks
      ensures WorkOk(s', n, s'.locks[n])
    {
      assert WorkOk(s, n, s.locks[n]);
    }
  }

  lemma TakeoverKeeps(s: Manager, req: Request)
    requires Inv(s) && Unclaimed(s, req.stream) && TakesOver(s, req) && req.kept.value !in s.locks
    ensures var p := s.holders[req.kept.value]; Inv(Locked(Detached(s, p), req.kept, Taking(req.stream, p)))
  {
    var p := s.holders[req.kept.value];
    var d := Detached(s, p);
    assert !IsLive(d, p);
    OffStream(s, d, p);
    assert s.browsers[p].kept == req.kept;
    hide Placement, Locks, Holders;
    LockKeeps(d, req.kept.value, Taking(req.stream, p));
  }

  lemma DismissKeeps(s: Manager, req: Request)
    requires Inv(s)
    ensures Inv(Dismissed(s, req)) && Dismissed(s, req).locks == s.locks && Dismissed(s, req).used == s.used
    ensures Dismissed(s, req).panes.Keys <= s.panes.Keys
  {
    var d := Dismissed(s, req);
    if d != s { ShrinkKeeps(s, d); }
  }

  lemma AttachKeeps(s0: Manager, req: Request)
    requires Inv(s0) && req.stream !in s0.used && (req.kept.Some? ==> req.kept.value !in s0.locks) && Known(s0)
    ensures Inv(AttachStep(s0, req))
  {
    var s := s0.(used := s0.used + {req.stream});
    UsedKeeps(s0, req.stream);
    hide Placement, Locks, Holders;
    if TakesOver(s, req) {
      TakeoverKeeps(s, req);
    } else {
      DismissKeeps(s, req);
      assert Known(Dismissed(s, req));
      hide Dismissed;
      ReclaimKeeps(Dismissed(s, req), req);
    }
  }

  lemma TakeKeeps(s: Manager, n: Profile)
    requires Inv(s) && n in s.locks && s.locks[n].Taking?
    ensures Inv(TakeStep(s, n))
  {
    var x, p := s.locks[n].stream, s.locks[n].pane;
    var s2 := s.(locks := s.locks[n := Settling]);
    LockKeeps(s, n, Settling);
    assert WorkOk(s, n, s.locks[n]);
    forall m | m in s2.locks
      ensures !(s2.locks[m].Taking? && s2.locks[m].pane == p)
    {
      if m != n { assert WorkOk(s, m, s.locks[m]); }
    }
    assert Nowhere(s2, p);
    assert Unclaimed(s2, x) by {
      assert StreamOf(s.locks[n]) == Some(x);
    }
    LiveKeeps(s2, x, p);
    assert s2.(panes := s2.panes[x := p]) == TakeStep(s, n);
  }

  lemma WaitedKeeps(s: Manager, n: Profile, elsewhere: bool)
    requires Inv(s) && n in s.locks && s.locks[n].Waiting?
    ensures Inv(WaitedStep(s, n, elsewhere))
  {
    var req := s.locks[n].req;
    assert WorkOk(s, n, s.locks[n]);
    assert StreamOf(s.locks[n]) == Some(req.stream);
    LockKeeps(s, n, Cleared(if n in s.holders || elsewhere then req.(key := None, kept := None) else req));
  }

  // ---- Whole runs ----

  lemma StepKeeps(s: Manager, a: Action)
    requires Inv(s) && Enabled(s, a)
    ensures Inv(Step(s, a))
  {
    hide Placement, Locks, Holders;
    match a
    case Attach(req) => AttachKeeps(s, req);
    case Take(n) => TakeKeeps(s, n);
    case Waited(n, elsewhere) => WaitedKeeps(s, n, elsewhere);
    case OpenFresh(n) => OpenKeeps(s, s.locks[n].req, Some(n));
    case Unlock(n) => UnlockKeeps(s, n);
    case Fail(x, p) => ShrinkKeeps(s, FailStep(s, x, p));
    case Close(x) => CloseKeeps(s, x);
    case PageGone(p) => GoneKeeps(s, s.browsers[p].(gone := true), p);
    case Exit(p) => GoneKeeps(s, s.browsers[p].(gone := true, exited := true), p);
    case Unheld(p) => UnheldKeeps(s, p);
    case Expire(k) => ExpireKeeps(s, k);
    case ParkAll(streams) => ParkAllKeeps(s, streams);
    case Forget(k) => ForgetKeeps(s, k);
    case DeleteBegin(n) => LockKeeps(s, n, Checking);
    case DeleteCheck(n, wanted) => CheckKeeps(s, n, wanted);
    case DeleteDone(n) => UnlockKeeps(s, n);
  }

  lemma CheckKeeps(s: Manager, n: Profile, wanted: bool)
    requires Inv(s)
    ensures Inv(CheckStep(s, n, wanted))
  {
    if n in s.holders || !wanted { UnlockKeeps(s, n); } else { LockKeeps(s, n, Deleting); }
  }

  lemma {:induction false} RunKeeps(s: Manager, acts: seq<Action>)
    requires Inv(s) && ValidRun(s, acts)
    ensures Inv(Run(s, acts))
    decreases |acts|
  {
    hide Inv, Step, Enabled;
    if acts != [] {
      StepKeeps(s, acts[0]);
      RunKeeps(Step(s, acts[0]), acts[1..]);
    }
  }

  lemma StartKeeps(parks: bool)
    ensures Inv(Start(parks))
  {
  }

  /** However attaches, takeovers, parks, closes, exits and deletes interleave, a profile's one running browser is its recorded holder. */
  lemma OneBrowserPerProfile(parks: bool, acts: seq<Action>, p: nat, name: Profile)
    requires ValidRun(Start(parks), acts)
    requires var s := Run(Start(parks), acts); p < |s.browsers| && s.browsers[p].kept == Some(name) && !s.browsers[p].exited
    ensures var s := Run(Start(parks), acts);
      && name in s.holders && s.holders[name] == p
      && forall q :: 0 <= q < |s.browsers| && q != p && s.browsers[q].kept == Some(name) ==> s.browsers[q].exited
  {
    StartKeeps(parks);
    RunKeeps(Start(parks), acts);
    hide Run, Placement, Locks;
    var s := Run(Start(parks), acts);
    assert HolderOk(s, p);
    forall q | 0 <= q < |s.browsers| && q != p && s.browsers[q].kept == Some(name)
      ensures s.browsers[q].exited
    {
      assert HolderOk(s, q);
    }
  }

  /** While a profile is being deleted no browser is recorded on it. */
  lemma DeletedOnlyUnheld(parks: bool, acts: seq<Action>, name: Profile)
    requires ValidRun(Start(parks), acts)
    requires var s := Run(Start(parks), acts); name in s.locks && s.locks[name].Deleting?
    ensures name !in Run(Start(parks), acts).holders
  {
    StartKeeps(parks);
    RunKeeps(Start(parks), acts);
    hide Run, Placement, Holders;
    var s := Run(Start(parks), acts);
    assert WorkOk(s, name, s.locks[name]);
  }

  /** A browser is live on one stream, or parked once under its own key, or between streams, or in none of these. */
  lemma OnePlace(parks: bool, acts: seq<Action>, p: nat)
    requires ValidRun(Start(parks), acts) && p < |Run(Start(parks), acts).browsers|
    ensures var s := Run(Start(parks), acts);
      && (IsLive(s, p) ==> !IsParked(s, p) && !IsTaking(s, p)) && (IsParked(s, p) ==> !IsTaking(s, p))
      && (forall x, y :: x in s.panes && y in s.panes && s.panes[x] == p && s.panes[y] == p ==> x == y)
      && (forall i, j :: 0 <= i < |s.parked| && 0 <= j < |s.parked| && s.parked[i].pane == p && s.parked[j].pane == p ==> i == j)
      && (forall i :: 0 <= i < |s.parked| && s.parked[i].pane == p ==> s.browsers[p].key == Some(s.parked[i].key))
  {
    StartKeeps(parks);
    RunKeeps(Start(parks), acts);
    hide Run, Holders;
    var s := Run(Start(parks), acts);
    forall i | 0 <= i < |s.parked| && s.parked[i].pane == p
      ensures s.browsers[p].key == Some(s.parked[i].key) && !IsLive(s, p)
    {
      assert s.parked[i] in s.parked && OwnPlace(s, s.parked[i]);
    }
    forall n | n in s.locks && s.locks[n].Taking? && s.locks[n].pane == p
      ensures !IsLive(s, p) && !IsParked(s, p)
    {
      assert WorkOk(s, n, s.locks[n]);
    }
  }
}
