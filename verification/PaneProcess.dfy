/** The manager's maps as its methods change them, in place; each method against its step. */
module PaneProcess {
  import opened Common
  import opened PaneManager

  class PaneBrowsers {
    var browsers: seq<Browser>
    var panes: map<Stream, nat>
    var parked: seq<Parked>
    var holders: map<Profile, nat>
    var locks: map<Profile, Work>
    var used: set<Stream>
    const parks: bool

    function State(): Manager
      reads this
    {
      Manager(browsers, panes, parked, holders, locks, used, parks)
    }

    constructor (parks: bool)
      ensures State() == Start(parks)
    {
      this.parks := parks;
      browsers, panes, parked, holders, locks, used := [], map[], [], map[], map[], {};
    }

    method CloseBrowser(p: nat)
      modifies this
      ensures State() == Closed(old(State()), p)
    {
      if p < |browsers| { browsers := browsers[p := browsers[p].(gone := true)]; }
    }

    method UnparkKey(key: Key) returns (p: Option<nat>)
      modifies this
      ensures State() == Unpark(old(State()), key)
      ensures var at := KeyIndex(old(parked), key); p == if at.None? then None else Some(old(parked)[at.value].pane)
    {
      var i := 0;
      while i < |parked| && parked[i].key != key
        invariant 0 <= i <= |parked| && forall j :: 0 <= j < i ==> parked[j].key != key
      {
        i := i + 1;
      }
      if i == |parked| { return None; }
      p := Some(parked[i].pane);
      parked := parked[..i] + parked[i + 1..];
    }

    method ParkBrowser(p: nat) returns (kept: bool)
      requires p < |browsers|
      modifies this
      ensures State() == Park(old(State()), p)
      ensures kept <==> old(browsers)[p].key.Some? && parks && !old(browsers)[p].gone
    {
      var b := browsers[p];
      if b.key.None? || !parks || b.gone {
        CloseBrowser(p);
        return false;
      }
      var previous := UnparkKey(b.key.value);
      if previous.Some? && previous.value != p { CloseBrowser(previous.value); }
      parked := parked + [Parked(b.key.value, p)];
      return true;
    }

    method EvictParked(guest: bool) returns (found: bool)
      requires Known(State())
      modifies this
      ensures var e := Evict(old(State()), guest); found == e.Some? && State() == if found then e.value else old(State())
      ensures Known(State()) && (found ==> |parked| < |old(parked)|)
    {
      var i := 0;
      while i < |parked|
        invariant 0 <= i <= |parked| && Oldest(State(), guest, 0) == Oldest(State(), guest, i)
        invariant forall j :: 0 <= j < i ==> browsers[parked[j].pane].guest != guest
      {
        if browsers[parked[i].pane].guest == guest {
          var p := parked[i].pane;
          parked := parked[..i] + parked[i + 1..];
          CloseBrowser(p);
          return true;
        }
        i := i + 1;
      }
      return false;
    }

    /** Room for a fresh browser: any refusal that does not depend on room comes before the first eviction. */
    method MakeRoom(req: Request) returns (room: bool)
      requires Known(State())
      modifies this
      ensures (State(), room) == Room(old(State()), req) && Known(State())
    {
      if !req.guest {
        if |Placed(State(), false)| < MAX_PANES { return true; }
        room := EvictParked(false);
        return;
      }
      if req.max == 0 || !req.memory || |LiveGuests(State())| >= req.max { return false; }
      while |Placed(State(), true)| >= req.max
        invariant Known(State()) && GuestRoom(State(), req.max) == GuestRoom(old(State()), req.max)
        decreases |parked|
      {
        var found := EvictParked(true);
        if !found { return false; }
      }
      return true;
    }

    method OpenPane(req: Request, lock: Option<Profile>) returns (made: bool)
      requires Known(State())
      modifies this
      ensures State() == Open(old(State()), req, lock) && made == Room(old(State()), req).1
    {
      made := MakeRoom(req);
      if made {
        var p := |browsers|;
        browsers := browsers + [Browser(req.key, req.guest, req.grant, req.kept, false, false)];
        if req.kept.Some? { holders := holders[req.kept.value := p]; }
        panes := panes[req.stream := p];
      }
      if lock.Some? { locks := locks[lock.value := Settling]; }
    }

    method EndStreams(p: nat)
      modifies this
      ensures State() == Detached(old(State()), p)
    {
      panes := map x | x in panes && panes[x] != p :: panes[x];
    }

    /** A live browser on the kept profile is taken over, or closed for its other grant. */
    method TakeOver(req: Request) returns (taken: bool)
      modifies this
      ensures taken <==> TakesOver(old(State()), req)
      ensures State() == if taken then
          Locked(Detached(old(State()), old(holders)[req.kept.value]), req.kept, Taking(req.stream, old(holders)[req.kept.value]))
        else Dismissed(old(State()), req)
    {
      if req.kept.None? || req.kept.value !in holders || holders[req.kept.value] >= |browsers| { return false; }
      var p := holders[req.kept.value];
      if browsers[p].gone || p !in panes.Values { return false; }
      var same := SameShare(browsers[p], req);
      EndStreams(p);
      if same {
        locks := locks[req.kept.value := Taking(req.stream, p)];
        return true;
      }
      CloseBrowser(p);
      return false;
    }

    method OpenAfresh(req: Request)
      requires Known(State())
      modifies this
      ensures State() == Afresh(old(State()), req)
    {
      if req.kept.Some? {
        locks := locks[req.kept.value := Waiting(req)];
      } else {
        var made := OpenPane(req, None);
      }
    }

    /** The key's parked browser handed back while its share is the same and there is room, or a fresh one. */
    method ReclaimOrOpen(req: Request)
      requires Known(State())
      modifies this
      ensures State() == Reclaim(old(State()), req)
    {
      var reclaimed := None;
      if req.key.Some? { reclaimed := UnparkKey(req.key.value); }
      if reclaimed.Some? && !browsers[reclaimed.value].gone {
        var p := reclaimed.value;
        if SameShare(browsers[p], req) {
          if GuestFits(State(), req) {
            panes := panes[req.stream := p];
          } else {
            var kept := ParkBrowser(p);
          }
          if req.kept.Some? { locks := locks[req.kept.value := Settling]; }
          return;
        }
        CloseBrowser(p);
      }
      OpenAfresh(req);
    }

    /** `attachPane` up to its first await. */
    method AttachPane(req: Request)
      requires Known(State())
      modifies this
      ensures State() == AttachStep(old(State()), req)
    {
      used := used + {req.stream};
      ghost var s := State();
      var taken := TakeOver(req);
      if !taken {
        assert Known(Dismissed(s, req));
        ReclaimOrOpen(req);
      }
    }

    /** The taken-over browser is suspended: it is live again, on the new viewer's stream. */
    method FinishTakeover(name: Profile)
      requires name in locks && locks[name].Taking?
      modifies this
      ensures State() == TakeStep(old(State()), name)
    {
      panes := panes[locks[name].stream := locks[name].pane];
      locks := locks[name := Settling];
    }

    method CloseStream(stream: Stream) returns (found: bool)
      requires Known(State())
      modifies this
      ensures found <==> stream in old(panes)
      ensures State() == if found then CloseStep(old(State()), stream) else old(State())
    {
      if stream !in panes { return false; }
      var p := panes[stream];
      panes := panes - {stream};
      var kept := ParkBrowser(p);
      return true;
    }

    /** The socket dropped. */
    method ParkEvery(streams: seq<Stream>)
      requires Known(State())
      modifies this
      ensures State() == ParkAllStep(old(State()), streams)
    {
      var i := 0;
      while i < |streams|
        invariant 0 <= i <= |streams| && Known(State())
        invariant ParkAllStep(State(), streams[i..]) == ParkAllStep(old(State()), streams)
      {
        ghost var before := State();
        ParkKnown(before, streams[i]);
        var found := CloseStream(streams[i]);
        i := i + 1;
      }
    }

    method PaneExited(p: nat)
      requires p < |browsers|
      modifies this
      ensures State() == UnheldStep(old(State()), p)
    {
      var kept := browsers[p].kept;
      if kept.Some? && kept.value in holders && holders[kept.value] == p { holders := holders - {kept.value}; }
    }

    method CheckDelete(name: Profile, wanted: bool) returns (deleting: bool)
      modifies this
      ensures State() == CheckStep(old(State()), name, wanted)
      ensures deleting ==> name !in holders && name in locks && locks[name].Deleting?
    {
      if name in holders || !wanted {
        locks := locks - {name};
        return false;
      }
      locks := locks[name := Deleting];
      return true;
    }
  }

  lemma ParkKnown(s: Manager, x: Stream)
    requires Known(s)
    ensures x in s.panes ==> Known(CloseStep(s, x))
  {
    if x in s.panes {
      var s1, p := s.(panes := s.panes - {x}), s.panes[x];
      var r := Park(s1, p);
      forall i | 0 <= i < |r.parked|
        ensures r.parked[i].pane < |r.browsers|
      {
        assert r.parked[i] in r.parked;
      }
    }
  }
}
