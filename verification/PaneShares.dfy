/** Whose browser a viewer gets: over every run one made for its own kind and its own share, and a parked or live one handed on exactly then. */
module PaneShares {
  import opened Common
  import opened PaneManager
  import opened PanePlaces
  import opened PaneRooms

  /** The browser is of the kind asked for, and a guest's names the origins the request's share does. */
  predicate MadeFor(b: Browser, req: Request) {
    b.guest == req.guest && (b.guest ==> b.grant == req.grant)
  }

  /** Who asked for each stream. */
  function Asked(asked: map<Stream, Request>, acts: seq<Action>): map<Stream, Request>
    decreases |acts|
  {
    if acts == [] then asked
    else Asked(if acts[0].Attach? then asked[acts[0].req.stream := acts[0].req] else asked, acts[1..])
  }

  /** The request is `asked`'s for its stream, but for a key and a profile it may have lost. */
  ghost predicate IsAsked(asked: map<Stream, Request>, req: Request) {
    req.stream in asked && req.guest == asked[req.stream].guest && req.grant == asked[req.stream].grant
  }

  ghost predicate WorkServes(s: Manager, asked: map<Stream, Request>, w: Work) {
    match w
    case Taking(x, p) => x in asked && p < |s.browsers| && MadeFor(s.browsers[p], asked[x])
    case Waiting(req) => IsAsked(asked, req)
    case Cleared(req) => IsAsked(asked, req)
    case _ => true
  }

  ghost predicate Served(s: Manager, asked: map<Stream, Request>) {
    && asked.Keys <= s.used
    && (forall x :: x in s.panes ==> x in asked && s.panes[x] < |s.browsers| && MadeFor(s.browsers[s.panes[x]], asked[x]))
    && (forall n :: n in s.locks ==> WorkServes(s, asked, s.locks[n]))
  }

  // ---- What leaves it so ----

  /** Browsers keep their kind and share, none goes live, and no lock starts on a browser or a request. */
  ghost predicate HandsNone(s: Manager, s': Manager) {
    && s.used <= s'.used && |s.browsers| <= |s'.browsers|
    && (forall p :: 0 <= p < |s.browsers| ==> s'.browsers[p].guest == s.browsers[p].guest && s'.browsers[p].grant == s.browsers[p].grant)
    && (forall x :: x in s'.panes ==> x in s.panes && s'.panes[x] == s.panes[x])
    && (forall n :: n in s'.locks ==> (n in s.locks && s'.locks[n] == s.locks[n]) || StreamOf(s'.locks[n]).None?)
  }

  lemma HandsNoneKeeps(s: Manager, s': Manager, asked: map<Stream, Request>)
    requires Served(s, asked) && HandsNone(s, s')
    ensures Served(s', asked)
  {
    forall n | n in s'.locks
      ensures WorkServes(s', asked, s'.locks[n])
    {
      if n in s.locks { assert WorkServes(s, asked, s.locks[n]); }
    }
  }

  lemma ThenNone(s: Manager, s1: Manager, s2: Manager)
    requires HandsNone(s, s1) && HandsNone(s1, s2)
    ensures HandsNone(s, s2)
  {
  }

  lemma ParkHandsNone(s: Manager, p: nat)
    requires p < |s.browsers|
    ensures HandsNone(s, Park(s, p)) && Park(s, p).panes == s.panes && Park(s, p).locks == s.locks
  {
    ParkBrowsers(s, p);
    hide Park;
  }

  /** Parking changes no lock and no stream, and of a browser only that it may be closing. */
  lemma ParkBrowsers(s: Manager, p: nat)
    requires p < |s.browsers|
    ensures var s' := Park(s, p);
      && s'.panes == s.panes && s'.locks == s.locks && s'.used == s.used && |s'.browsers| == |s.browsers|
      && forall q :: 0 <= q < |s.browsers| ==> s'.browsers[q] == s.browsers[q] || s'.browsers[q] == s.browsers[q].(gone := true)
  {
    hide Without;
    var b := s.browsers[p];
    if b.key.Some? && s.parks && !b.gone {
      var at := KeyIndex(s.parked, b.key.value);
      var s1 := if at.Some? && s.parked[at.value].pane != p then Closed(s, s.parked[at.value].pane) else s;
      assert Unpark(s1, b.key.value) == s1.(parked := Unpark(s1, b.key.value).parked);
      hide Unpark, KeyIndex;
    }
  }

  lemma CloseHandsNone(s: Manager, x: Stream)
    requires x in s.panes && s.panes[x] < |s.browsers|
    ensures HandsNone(s, CloseStep(s, x))
  {
    ParkHandsNone(s.(panes := s.panes - {x}), s.panes[x]);
    hide Park;
  }

  lemma {:induction false} ParkAllHandsNone(s: Manager, streams: seq<Stream>)
    ensures HandsNone(s, ParkAllStep(s, streams))
    decreases |streams|
  {
    hide CloseStep;
    if streams != [] {
      if streams[0] in s.panes && s.panes[streams[0]] < |s.browsers| {
        var s1 := CloseStep(s, streams[0]);
        CloseHandsNone(s, streams[0]);
        ParkAllHandsNone(s1, streams[1..]);
        ThenNone(s, s1, ParkAllStep(s1, streams[1..]));
      } else {
        ParkAllHandsNone(s, streams[1..]);
      }
    }
  }

  lemma RoomHandsNone(s: Manager, req: Request)
    requires Known(s)
    ensures HandsNone(s, Room(s, req).0) && Room(s, req).0.locks == s.locks && Known(Room(s, req).0)
    ensures |Room(s, req).0.browsers| == |s.browsers| && Room(s, req).0.panes == s.panes
  {
    RoomIs(s, req);
    hide Room, OtherKind, Placed, LiveGuests;
  }

  /** An end, a close, a park, a lock let go: the steps of which no viewer gets a browser. */
  lemma QuietHandsNone(s: Manager, a: Action)
    requires Enabled(s, a) && !a.Attach? && !a.Take? && !a.Waited? && !a.OpenFresh? && !a.ParkAll? && !a.Close?
    ensures HandsNone(s, Step(s, a))
  {
    hide Park, Room, GuestRoom, Evict, Open, AttachStep, ParkAllStep, CloseStep;
    match a
    case PageGone(p) => if !s.browsers[p].gone { EndHandsNone(s, Closed(s, p), p); }
    case Exit(p) => EndHandsNone(s, s.(browsers := s.browsers[p := s.browsers[p].(gone := true, exited := true)]), p);
    case Expire(k) => ExpireHandsNone(s, k);
    case Forget(k) => ForgetHandsNone(s, k);
    case _ =>
  }

  lemma EndHandsNone(s: Manager, s1: Manager, p: nat)
    requires HandsNone(s, s1) && p < |s1.browsers|
    ensures HandsNone(s, Gone(s1, p))
  {
    hide Without;
    assert HandsNone(s1, Gone(s1, p));
    hide Gone;
    ThenNone(s, s1, Gone(s1, p));
  }

  lemma ExpireHandsNone(s: Manager, key: Key)
    ensures HandsNone(s, ExpireStep(s, key))
  {
    hide Without;
  }

  lemma ForgetHandsNone(s: Manager, key: Key)
    ensures HandsNone(s, ForgetStep(s, key))
  {
    var browsers := seq(|s.browsers|, p requires 0 <= p < |s.browsers| =>
      if s.browsers[p].key == Some(key) && IsLive(s, p) then s.browsers[p].(gone := true) else s.browsers[p]);
    var panes := map x | x in s.panes && (s.panes[x] >= |s.browsers| || s.browsers[s.panes[x]].key != Some(key)) :: s.panes[x];
    var s1 := s.(browsers := browsers, panes := panes);
    assert ForgetStep(s, key) == ExpireStep(s1, key);
    assert HandsNone(s, s1);
    hide ForgetStep, ExpireStep;
    ExpireHandsNone(s1, key);
    ThenNone(s, s1, ExpireStep(s1, key));
  }

  // ---- The steps that hand a browser on ----

  lemma OpenServes(s: Manager, asked: map<Stream, Request>, req: Request, lock: Option<Profile>)
    requires Known(s) && Served(s, asked) && IsAsked(asked, req)
    ensures Served(Open(s, req, lock), asked)
  {
    hide Room, HandsNone, Served, Insert, Locked;
    RoomHandsNone(s, req);
    var s1 := Room(s, req).0;
    HandsNoneKeeps(s, s1, asked);
    if Room(s, req).1 {
      InsertServes(s1, asked, req);
      SettleServes(Insert(s1, req), asked, lock);
    } else {
      SettleServes(s1, asked, lock);
    }
  }

  lemma InsertServes(s: Manager, asked: map<Stream, Request>, req: Request)
    requires Served(s, asked) && IsAsked(asked, req)
    ensures Served(Insert(s, req), asked)
  {
    var s' := Insert(s, req);
    forall n | n in s'.locks
      ensures WorkServes(s', asked, s'.locks[n])
    {
      assert WorkServes(s, asked, s.locks[n]);
    }
  }

  lemma LockServes(s: Manager, asked: map<Stream, Request>, n: Profile, w: Work)
    requires Served(s, asked) && WorkServes(s, asked, w)
    ensures Served(s.(locks := s.locks[n := w]), asked)
  {
    var s' := s.(locks := s.locks[n := w]);
    forall m | m in s'.locks
      ensures WorkServes(s', asked, s'.locks[m])
    {
      if m != n { assert WorkServes(s, asked, s.locks[m]); }
    }
  }

  lemma LiveServes(s: Manager, asked: map<Stream, Request>, x: Stream, p: nat)
    requires Served(s, asked) && x in asked && p < |s.browsers| && MadeFor(s.browsers[p], asked[x])
    ensures Served(s.(panes := s.panes[x := p]), asked)
  {
    var s' := s.(panes := s.panes[x := p]);
    forall m | m in s'.locks
      ensures WorkServes(s', asked, s'.locks[m])
    {
      assert WorkServes(s, asked, s.locks[m]);
    }
  }

  lemma SettleServes(s: Manager, asked: map<Stream, Request>, name: Option<Profile>)
    requires Served(s, asked)
    ensures Served(Locked(s, name, Settling), asked)
  {
    if name.Some? { LockServes(s, asked, name.value, Settling); }
  }

  lemma AfreshServes(s: Manager, asked: map<Stream, Request>, req: Request)
    requires Known(s) && Served(s, asked) && IsAsked(asked, req)
    ensures Served(Afresh(s, req), asked)
  {
    hide Open, Served;
    if req.kept.Some? { LockServes(s, asked, req.kept.value, Waiting(req)); } else { OpenServes(s, asked, req, None); }
  }

  lemma ReclaimServes(s: Manager, asked: map<Stream, Request>, req: Request)
    requires Known(s) && Served(s, asked) && IsAsked(asked, req)
    ensures Served(Reclaim(s, req), asked)
  {
    var at := if req.key.Some? then KeyIndex(s.parked, req.key.value) else None;
    if at.None? {
      assert Reclaim(s, req) == Afresh(s, req);
      AfreshServes(s, asked, req);
    } else {
      var p, rest := s.parked[at.value].pane, s.(parked := Without(s.parked, at.value));
      assert Known(rest);
      HandsNoneKeeps(s, rest, asked);
      hide Park, Afresh, Served, HandsNone;
      if s.browsers[p].gone {
        AfreshServes(rest, asked, req);
      } else if !SameShare(s.browsers[p], req) {
        ClosedServes(rest, asked, p);
        AfreshServes(Closed(rest, p), asked, req);
      } else if GuestFits(rest, req) {
        LiveServes(rest, asked, req.stream, p);
        SettleServes(rest.(panes := rest.panes[req.stream := p]), asked, req.kept);
      } else {
        ParkHandsNone(rest, p);
        HandsNoneKeeps(rest, Park(rest, p), asked);
        SettleServes(Park(rest, p), asked, req.kept);
      }
    }
  }

  lemma ClosedServes(s: Manager, asked: map<Stream, Request>, p: nat)
    requires Known(s) && Served(s, asked)
    ensures Known(Closed(s, p)) && Served(Closed(s, p), asked)
  {
    HandsNoneKeeps(s, Closed(s, p), asked);
  }

  lemma AskServes(s: Manager, asked: map<Stream, Request>, req: Request)
    requires Served(s, asked) && req.stream !in s.used
    ensures Served(s.(used := s.used + {req.stream}), asked[req.stream := req])
  {
    var s', more := s.(used := s.used + {req.stream}), asked[req.stream := req];
    forall n | n in s'.locks
      ensures WorkServes(s', more, s'.locks[n])
    {
      assert WorkServes(s, asked, s.locks[n]);
    }
  }

  lemma AttachServes(s0: Manager, asked: map<Stream, Request>, req: Request)
    requires Known(s0) && Served(s0, asked) && req.stream !in s0.used
    ensures Served(AttachStep(s0, req), asked[req.stream := req])
  {
    var s, more := s0.(used := s0.used + {req.stream}), asked[req.stream := req];
    AskServes(s0, asked, req);
    if TakesOver(s, req) {
      var p := s.holders[req.kept.value];
      HandsNoneKeeps(s, Detached(s, p), more);
      LockServes(Detached(s, p), more, req.kept.value, Taking(req.stream, p));
    } else {
      HandsNoneKeeps(s, Dismissed(s, req), more);
      assert Known(Dismissed(s, req));
      hide Served, Reclaim, Dismissed, TakesOver;
      ReclaimServes(Dismissed(s, req), more, req);
    }
  }

  lemma StepServes(s: Manager, asked: map<Stream, Request>, a: Action)
    requires Enabled(s, a) && Served(s, asked)
    ensures Served(Step(s, a), if a.Attach? then asked[a.req.stream := a.req] else asked)
  {
    match a
    case Attach(req) => AttachServes(s, asked, req);
    case Take(n) => {
      assert WorkServes(s, asked, s.locks[n]);
      LiveServes(s, asked, s.locks[n].stream, s.locks[n].pane);
      LockServes(s.(panes := s.panes[s.locks[n].stream := s.locks[n].pane]), asked, n, Settling);
    }
    case Waited(n, elsewhere) => {
      assert WorkServes(s, asked, s.locks[n]);
      LockServes(s, asked, n, WaitedStep(s, n, elsewhere).locks[n]);
    }
    case OpenFresh(n) => {
      assert WorkServes(s, asked, s.locks[n]);
      OpenServes(s, asked, s.locks[n].req, Some(n));
    }
    case _ => {
      hide Served, Step;
      OthersHandNone(s, a);
      HandsNoneKeeps(s, Step(s, a), asked);
    }
  }

  lemma OthersHandNone(s: Manager, a: Action)
    requires Enabled(s, a) && !a.Attach? && !a.Take? && !a.Waited? && !a.OpenFresh?
    ensures HandsNone(s, Step(s, a))
  {
    hide HandsNone;
    if a.ParkAll? {
      ParkAllHandsNone(s, a.streams);
    } else if a.Close? {
      CloseHandsNone(s, a.stream);
    } else {
      QuietHandsNone(s, a);
    }
  }

  lemma {:induction false} RunServes(s: Manager, asked: map<Stream, Request>, acts: seq<Action>)
    requires ValidRun(s, acts) && Served(s, asked)
    ensures Served(Run(s, acts), Asked(asked, acts))
    decreases |acts|
  {
    hide Step, Enabled, Served;
    if acts != [] {
      StepServes(s, asked, acts[0]);
      RunServes(Step(s, acts[0]), if acts[0].Attach? then asked[acts[0].req.stream := acts[0].req] else asked, acts[1..]);
    }
  }

  lemma {:induction false} AskedIn(asked: map<Stream, Request>, acts: seq<Action>, x: Stream)
    requires x in Asked(asked, acts)
    ensures (x in asked && Asked(asked, acts)[x] == asked[x]) || (Asked(asked, acts)[x].stream == x && Attach(Asked(asked, acts)[x]) in acts)
    decreases |acts|
  {
    if acts != [] {
      AskedIn(if acts[0].Attach? then asked[acts[0].req.stream := acts[0].req] else asked, acts[1..], x);
      assert acts[0] in acts && forall a :: a in acts[1..] ==> a in acts;
    }
  }

  /**
   * Whatever opens, takeovers, parks and reattaches came before, the browser live on a stream is of the kind
   * that stream's attach asked for, and a guest's was made for the share that attach names.
   */
  lemma ViewersGetTheirShare(parks: bool, acts: seq<Action>, x: Stream)
    requires ValidRun(Start(parks), acts) && x in Run(Start(parks), acts).panes
    ensures var s := Run(Start(parks), acts); exists req ::
      Attach(req) in acts && req.stream == x && s.panes[x] < |s.browsers| &&
      s.browsers[s.panes[x]].guest == req.guest && (req.guest ==> s.browsers[s.panes[x]].grant == req.grant)
  {
    RunServes(Start(parks), map[], acts);
    hide Run;
    AskedIn(map[], acts, x);
    assert Attach(Asked(map[], acts)[x]) in acts;
  }

  // ---- When a browser is handed on ----

  /** The browsers counted against a limit: those some stream has, and for the room of a fresh one those parked too. */
  lemma CountsAre(s: Manager, guest: bool, p: nat)
    requires Inv(s) && p < |s.browsers|
    ensures p in LiveGuests(s) <==> s.browsers[p].guest && exists x :: x in s.panes && s.panes[x] == p
    ensures p in Placed(s, guest) <==>
      s.browsers[p].guest == guest && ((exists x :: x in s.panes && s.panes[x] == p) || exists i :: 0 <= i < |s.parked| && s.parked[i].pane == p)
  {
    assert IsLive(s, p) <==> exists x :: x in s.panes && s.panes[x] == p;
    if i :| 0 <= i < |s.parked| && s.parked[i].pane == p {
      assert s.parked[i] in s.parked;
    }
    if IsParked(s, p) {
      var e :| e in s.parked && e.pane == p;
      var i :| 0 <= i < |s.parked| && s.parked[i] == e;
    }
  }

  /** There is room for one more of the kind among those in use: owners always, guests under today's limit. */
  predicate FindsRoom(s: Manager, req: Request) {
    !req.guest || (req.max > 0 && |LiveGuests(s)| < req.max)
  }

  /** The key's parked browser is handed back to an attach of no kept profile. */
  lemma ParkedGoesLive(s: Manager, req: Request, i: nat)
    requires Inv(s) && Enabled(s, Attach(req)) && req.kept.None? && req.key.Some? && i < |s.parked| && s.parked[i].key == req.key.value
    requires var p := s.parked[i].pane; !s.browsers[p].gone && MadeFor(s.browsers[p], req) && FindsRoom(s, req)
    ensures var d := AttachStep(s, req);
      d == s.(used := s.used + {req.stream}, parked := Without(s.parked, i), panes := s.panes[req.stream := s.parked[i].pane])
  {
    KeyAt(s, i);
    SameGuests(s, req.stream, i);
  }

  /** With no room it is parked again, as it was, and no browser is opened. */
  lemma ParkedWaitsOn(s: Manager, req: Request, i: nat)
    requires Inv(s) && Enabled(s, Attach(req)) && req.kept.None? && req.key.Some? && i < |s.parked| && s.parked[i].key == req.key.value
    requires var p := s.parked[i].pane; !s.browsers[p].gone && MadeFor(s.browsers[p], req) && !FindsRoom(s, req)
    ensures var d := AttachStep(s, req);
      d.panes == s.panes && |d.browsers| == |s.browsers| && (s.parks ==> d.browsers == s.browsers && IsParked(d, s.parked[i].pane))
  {
    KeyAt(s, i);
    SameGuests(s, req.stream, i);
    var rest := s.(used := s.used + {req.stream}, parked := Without(s.parked, i));
    var p := s.parked[i].pane;
    assert s.parked[i] in s.parked && OwnPlace(s, s.parked[i]);
    NotThere(s, i);
    assert AttachStep(s, req) == Park(rest, p);
    assert s.parks ==> Park(rest, p) == rest.(parked := rest.parked + [Parked(req.key.value, p)]);
  }

  /** One made for another kind or share, or closed already, is on no stream afterwards: the attach gets a new browser or none. */
  lemma OtherShareIsClosed(s: Manager, req: Request, i: nat)
    requires Inv(s) && Enabled(s, Attach(req)) && req.kept.None? && req.key.Some? && i < |s.parked| && s.parked[i].key == req.key.value
    requires var p := s.parked[i].pane; s.browsers[p].gone || !MadeFor(s.browsers[p], req)
    ensures var d, p := AttachStep(s, req), s.parked[i].pane;
      && p < |d.browsers| && d.browsers[p].gone && !IsLive(d, p)
      && (req.stream in d.panes ==> d.panes[req.stream] == |s.browsers|)
  {
    KeyAt(s, i);
    var p := s.parked[i].pane;
    var rest := s.(used := s.used + {req.stream}, parked := Without(s.parked, i));
    var s1 := if s.browsers[p].gone then rest else Closed(rest, p);
    assert s.parked[i] in s.parked && OwnPlace(s, s.parked[i]);
    assert OpensAt(s, req) == Some(s1);
    assert !IsLive(s1, p) && Known(s1) && req.stream !in s1.panes;
    hide AttachStep, Without, OwnPlace, OpensAt, Open, Placement, Locks, Holders, IsLive;
    OpensIs(s, req, s1);
    OpensNew(s1, req, p);
  }

  lemma OpensNew(s: Manager, req: Request, p: nat)
    requires Known(s) && p < |s.browsers| && s.browsers[p].gone && !IsLive(s, p) && req.stream !in s.panes
    ensures var d := Open(s, req, None);
      p < |d.browsers| && d.browsers[p].gone && !IsLive(d, p) && (req.stream in d.panes ==> d.panes[req.stream] == |s.browsers|)
  {
    RoomIs(s, req);
    var s1, d := Room(s, req).0, Open(s, req, None);
    hide Room, OtherKind, Placed, LiveGuests;
    assert s1.panes == s.panes && |s1.browsers| == |s.browsers| && s1.browsers[p].gone;
    forall x | x in d.panes
      ensures d.panes[x] != p
    {
      if x != req.stream { assert s.panes[x] in s.panes.Values; }
    }
  }

  /**
   * An attach of no kept profile gets its key's parked browser exactly when that one is not gone, was made
   * for the same kind and share, and a guest finds room among those in use.
   */
  lemma HandedBackIff(s: Manager, req: Request, i: nat)
    requires Inv(s) && Enabled(s, Attach(req)) && req.kept.None? && req.key.Some? && i < |s.parked| && s.parked[i].key == req.key.value
    ensures var d, p := Step(s, Attach(req)), s.parked[i].pane;
      (req.stream in d.panes && d.panes[req.stream] == p) <==>
      (!s.browsers[p].gone && s.browsers[p].guest == req.guest && (req.guest ==> s.browsers[p].grant == req.grant)
       && (req.guest ==> 0 < req.max && |LiveGuests(s)| < req.max))
  {
    hide AttachStep, LiveGuests;
    var p := s.parked[i].pane;
    if s.browsers[p].gone || !MadeFor(s.browsers[p], req) {
      OtherShareIsClosed(s, req, i);
    } else if FindsRoom(s, req) {
      ParkedGoesLive(s, req, i);
    } else {
      ParkedWaitsOn(s, req, i);
      assert req.stream !in s.panes;
    }
  }

  lemma KeyAt(s: Manager, i: nat)
    requires Placement(s) && i < |s.parked|
    ensures KeyIndex(s.parked, s.parked[i].key) == Some(i)
  {
  }

  lemma NotThere(s: Manager, i: nat)
    requires Placement(s) && i < |s.parked|
    ensures KeyIndex(Without(s.parked, i), s.parked[i].key).None?
  {
    ParkedStay(s.parked, i);
  }

  lemma SameGuests(s: Manager, x: Stream, i: nat)
    requires i < |s.parked|
    ensures LiveGuests(s.(used := s.used + {x}, parked := Without(s.parked, i))) == LiveGuests(s)
  {
  }

  /** The holder of the request's kept profile while it is live on some stream and not closing. */
  ghost predicate LiveHolder(s: Manager, req: Request, p: nat) {
    req.kept.Some? && req.kept.value in s.holders && s.holders[req.kept.value] == p && p < |s.browsers| && IsLive(s, p) && !s.browsers[p].gone
  }

  /**
   * A live browser on the attach's kept profile leaves its old viewer: to go on to this one if it was made for
   * the same kind and share, and else to be closed.
   */
  lemma LiveHolderIsTakenIff(s: Manager, req: Request, p: nat)
    requires Inv(s) && Enabled(s, Attach(req)) && LiveHolder(s, req, p)
    ensures var d := AttachStep(s, req);
      && !IsLive(d, p) && req.kept.value in d.locks && p < |d.browsers|
      && (d.locks[req.kept.value] == Taking(req.stream, p) <==>
            s.browsers[p].guest == req.guest && (req.guest ==> s.browsers[p].grant == req.grant))
      && (d.locks[req.kept.value] == Taking(req.stream, p) || d.browsers[p].gone)
  {
    hide AttachStep, IsLive, Placement, Locks, Holders;
    if MadeFor(s.browsers[p], req) {
      HolderIsTaken(s, req, p);
    } else {
      HolderIsClosed(s, req, p);
    }
  }

  /** And once it is suspended it is live for this one. */
  lemma TakenGoesLive(s: Manager, name: Profile)
    requires Enabled(s, Take(name))
    ensures var d, w := Step(s, Take(name)), s.locks[name];
      w.stream in d.panes && d.panes[w.stream] == w.pane && d.browsers == s.browsers && !d.locks[name].Taking?
  {
  }

  lemma HolderIsTaken(s: Manager, req: Request, p: nat)
    requires Known(s) && LiveHolder(s, req, p) && MadeFor(s.browsers[p], req)
    ensures var d := AttachStep(s, req);
      d.browsers == s.browsers && !IsLive(d, p) && req.kept.value in d.locks && d.locks[req.kept.value] == Taking(req.stream, p)
  {
    var s1 := s.(used := s.used + {req.stream});
    assert AttachStep(s, req) == Locked(Detached(s1, p), req.kept, Taking(req.stream, p));
    assert !IsLive(Detached(s1, p), p);
  }

  lemma HolderIsClosed(s: Manager, req: Request, p: nat)
    requires Inv(s) && Known(s) && LiveHolder(s, req, p) && !MadeFor(s.browsers[p], req)
    ensures var d := AttachStep(s, req);
      p < |d.browsers| && d.browsers[p].gone && !IsLive(d, p) && req.kept.value in d.locks && !d.locks[req.kept.value].Taking?
  {
    var s1 := s.(used := s.used + {req.stream});
    var d1 := Closed(Detached(s1, p), p);
    assert !IsLive(d1, p) && d1.browsers[p].gone && Known(d1);
    NotParked(s, p);
    assert !IsParked(d1, p);
    hide Locks, Holders, Placement, Reclaim;
    assert AttachStep(s, req) == Reclaim(d1, req);
    hide AttachStep;
    ReclaimLeaves(d1, req, p);
  }

  lemma NotParked(s: Manager, p: nat)
    requires Placement(s) && IsLive(s, p)
    ensures !IsParked(s, p)
  {
    forall e | e in s.parked
      ensures e.pane != p
    {
      assert OwnPlace(s, e);
    }
  }

  /** A browser closed and nowhere stays so while the attach goes on. */
  lemma ReclaimLeaves(s: Manager, req: Request, p: nat)
    requires Known(s) && p < |s.browsers| && s.browsers[p].gone && !IsLive(s, p) && !IsParked(s, p) && req.kept.Some?
    ensures var d := Reclaim(s, req);
      p < |d.browsers| && d.browsers[p].gone && !IsLive(d, p) && req.kept.value in d.locks && !d.locks[req.kept.value].Taking?
  {
    var at := if req.key.Some? then KeyIndex(s.parked, req.key.value) else None;
    var d := Reclaim(s, req);
    if at.Some? {
      var q := s.parked[at.value].pane;
      assert s.parked[at.value] in s.parked && q != p;
      var rest := s.(parked := Without(s.parked, at.value));
      if !s.browsers[q].gone && SameShare(s.browsers[q], req) && !GuestFits(rest, req) {
        ParkHandsNone(rest, q);
        ParkCloses(rest, q, p);
        assert d == Locked(Park(rest, q), req.kept, Settling);
        hide Park;
      }
    }
    forall x | x in d.panes
      ensures d.panes[x] != p
    {
      if x in s.panes && d.panes[x] == s.panes[x] { assert s.panes[x] in s.panes.Values; }
    }
  }

  lemma ParkCloses(s: Manager, q: nat, p: nat)
    requires q < |s.browsers| && p < |s.browsers| && s.browsers[p].gone
    ensures |Park(s, q).browsers| == |s.browsers| && Park(s, q).browsers[p].gone
  {
  }
}
