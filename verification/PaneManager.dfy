/**
 * The browser pane manager: live browsers by viewer stream, parked ones by pane key, and the browser
 * recorded as the holder of each kept profile. A step is one stretch of the manager's code between two
 * awaits, a timer, or the end of a browser process; what a profile's lock serialises is in `locks`.
 */
module PaneManager {
  import opened Common

  const MAX_PANES := 4

  type Stream = nat
  type Key = nat
  type Profile = nat

  /** A browser. `grant` is the set of origins a guest's share names; `gone` once closing or closed. */
  datatype Browser = Browser(key: Option<Key>, guest: bool, grant: nat, kept: Option<Profile>, gone: bool, exited: bool)

  datatype Parked = Parked(key: Key, pane: nat)

  /** An attach: `max` reviewers at once, `memory` enough for one more. */
  datatype Request = Request(stream: Stream, key: Option<Key>, guest: bool, grant: nat, kept: Option<Profile>, max: nat, memory: bool)

  /**
   * Who has a profile's lock: an attach taking a live browser over, waiting for one to quit, about to
   * open its own, or awaiting the browser's answer; or a delete, before and after its check.
   */
  datatype Work = Taking(stream: Stream, pane: nat) | Waiting(req: Request) | Cleared(req: Request) | Settling | Checking | Deleting

  /** Browsers are numbered in the order they were made. `parked` is in insertion order. `parks`: parking is on. */
  datatype Manager = Manager(
    browsers: seq<Browser>, panes: map<Stream, nat>, parked: seq<Parked>, holders: map<Profile, nat>,
    locks: map<Profile, Work>, used: set<Stream>, parks: bool)

  function Start(parks: bool): Manager {
    Manager([], map[], [], map[], map[], {}, parks)
  }

  // ---- Where browsers are ----

  predicate IsParked(s: Manager, p: nat) {
    exists e :: e in s.parked && e.pane == p
  }

  predicate IsLive(s: Manager, p: nat) {
    p in s.panes.Values
  }

  ghost predicate IsTaking(s: Manager, p: nat) {
    exists n :: n in s.locks && s.locks[n].Taking? && s.locks[n].pane == p
  }

  /** The browsers `counts` counts of one kind: live and parked. */
  function Placed(s: Manager, guest: bool): set<nat> {
    set p | 0 <= p < |s.browsers| && s.browsers[p].guest == guest && (IsLive(s, p) || IsParked(s, p))
  }

  function LiveGuests(s: Manager): set<nat> {
    set p | 0 <= p < |s.browsers| && s.browsers[p].guest && IsLive(s, p)
  }

  function KeyIndex(parked: seq<Parked>, key: Key): (at: Option<nat>)
    ensures at.None? <==> forall i :: 0 <= i < |parked| ==> parked[i].key != key
    ensures at.Some? ==> at.value < |parked| && parked[at.value].key == key
    ensures at.Some? ==> forall i :: 0 <= i < at.value ==> parked[i].key != key
  {
    if parked == [] then None
    else if parked[0].key == key then Some(0)
    else
      var rest := KeyIndex(parked[1..], key);
      if rest.None? then None else Some(rest.value + 1)
  }

  // ---- Closing, parking, evicting ----

  function Closed(s: Manager, p: nat): Manager {
    if p < |s.browsers| then s.(browsers := s.browsers[p := s.browsers[p].(gone := true)]) else s
  }

  /** `unpark`: the key's browser, out of the parked ones. */
  function Unpark(s: Manager, key: Key): Manager {
    var at := KeyIndex(s.parked, key);
    if at.None? then s else s.(parked := Without(s.parked, at.value))
  }

  /** `park`: kept for a reattach under its own key, the key's earlier browser closed; or closed. */
  function Park(s: Manager, p: nat): Manager
    requires p < |s.browsers|
  {
    var b := s.browsers[p];
    if b.key.None? || !s.parks || b.gone then Closed(s, p)
    else
      var at := KeyIndex(s.parked, b.key.value);
      var s1 := if at.Some? && s.parked[at.value].pane != p then Closed(s, s.parked[at.value].pane) else s;
      var s2 := Unpark(s1, b.key.value);
      s2.(parked := s2.parked + [Parked(b.key.value, p)])
  }

  /** The oldest parked browser of one kind. */
  function Oldest(s: Manager, guest: bool, from: nat): (at: Option<nat>)
    requires forall i :: 0 <= i < |s.parked| ==> s.parked[i].pane < |s.browsers|
    ensures at.None? <==> forall i :: from <= i < |s.parked| ==> s.browsers[s.parked[i].pane].guest != guest
    ensures at.Some? ==> from <= at.value < |s.parked| && s.browsers[s.parked[at.value].pane].guest == guest
    ensures at.Some? ==> forall i :: from <= i < at.value ==> s.browsers[s.parked[i].pane].guest != guest
    decreases |s.parked| - from
  {
    if from >= |s.parked| then None
    else if s.browsers[s.parked[from].pane].guest == guest then Some(from)
    else Oldest(s, guest, from + 1)
  }

  ghost predicate Known(s: Manager) {
    && (forall i :: 0 <= i < |s.parked| ==> s.parked[i].pane < |s.browsers|)
    && (forall x :: x in s.panes ==> s.panes[x] < |s.browsers|)
  }

  /** `evictParked`: the oldest parked browser of the kind closed, or none there. */
  function Evict(s: Manager, guest: bool): (r: Option<Manager>)
    requires Known(s)
    ensures r.Some? ==> Known(r.value) && |r.value.parked| < |s.parked|
  {
    var at := Oldest(s, guest, 0);
    if at.None? then None
    else Some(Closed(s, s.parked[at.value].pane).(parked := Without(s.parked, at.value)))
  }

  /** Parked guests evicted until there is room for one under `max`; whether there is. */
  function GuestRoom(s: Manager, max: nat): (r: (Manager, bool))
    requires Known(s)
    ensures Known(r.0)
    decreases |s.parked|
  {
    if |Placed(s, true)| < max then (s, true)
    else
      var e := Evict(s, true);
      if e.None? then (s, false) else GuestRoom(e.value, max)
  }

  /** Room for a fresh browser, made by evictions of its kind. A refusal keeps the evictions made. */
  function Room(s: Manager, req: Request): (r: (Manager, bool))
    requires Known(s)
    ensures Known(r.0)
  {
    if req.guest then
      if req.max == 0 || !req.memory || |LiveGuests(s)| >= req.max then (s, false) else GuestRoom(s, req.max)
    else if |Placed(s, false)| < MAX_PANES then (s, true)
    else
      var e := Evict(s, false);
      if e.None? then (s, false) else (e.value, true)
  }

  /** A new browser for the request, live on its stream and, on a kept profile, recorded as its holder. */
  function Insert(s: Manager, req: Request): Manager {
    var p := |s.browsers|;
    s.(browsers := s.browsers + [Browser(req.key, req.guest, req.grant, req.kept, false, false)],
       panes := s.panes[req.stream := p],
       holders := if req.kept.Some? then s.holders[req.kept.value := p] else s.holders)
  }

  function Locked(s: Manager, name: Option<Profile>, w: Work): Manager {
    if name.Some? then s.(locks := s.locks[name.value := w]) else s
  }

  function Open(s: Manager, req: Request, lock: Option<Profile>): Manager
    requires Known(s)
  {
    var (s1, room) := Room(s, req);
    if room then Locked(Insert(s1, req), lock, Settling) else Locked(s1, lock, Settling)
  }

  predicate SameShare(b: Browser, req: Request) {
    b.guest == req.guest && (req.guest ==> b.grant == req.grant)
  }

  function Detached(s: Manager, p: nat): Manager {
    s.(panes := map x | x in s.panes && s.panes[x] != p :: s.panes[x])
  }

  /** A kept profile's live browser on the request's grant: its old stream ends and this attach takes it. */
  predicate TakesOver(s: Manager, req: Request) {
    && req.kept.Some? && req.kept.value in s.holders && s.holders[req.kept.value] < |s.browsers|
    && var p := s.holders[req.kept.value]; !s.browsers[p].gone && IsLive(s, p) && SameShare(s.browsers[p], req)
  }

  /** On another grant it is closed instead, and the attach goes on. */
  function Dismissed(s: Manager, req: Request): Manager {
    if req.kept.Some? && req.kept.value in s.holders && s.holders[req.kept.value] < |s.browsers|
       && var p := s.holders[req.kept.value]; !s.browsers[p].gone && IsLive(s, p) && !SameShare(s.browsers[p], req)
    then Closed(Detached(s, s.holders[req.kept.value]), s.holders[req.kept.value])
    else s
  }

  predicate GuestFits(s: Manager, req: Request) {
    req.guest ==> req.max > 0 && |LiveGuests(s)| < req.max
  }

  /** The parked browser of the key handed back, closed on another grant, or none: a fresh one is to be opened. */
  function Reclaim(s: Manager, req: Request): Manager
    requires Known(s)
  {
    var at := if req.key.Some? then KeyIndex(s.parked, req.key.value) else None;
    var rest := s.(parked := if at.Some? then Without(s.parked, at.value) else s.parked);
    if at.Some? && !s.browsers[s.parked[at.value].pane].gone then
      var p := s.parked[at.value].pane;
      if SameShare(s.browsers[p], req) then
        if GuestFits(rest, req) then Locked(rest.(panes := rest.panes[req.stream := p]), req.kept, Settling)
        else Locked(Park(rest, p), req.kept, Settling)
      else Afresh(Closed(rest, p), req)
    else Afresh(rest, req)
  }

  function Afresh(s: Manager, req: Request): Manager
    requires Known(s)
  {
    if req.kept.Some? then Locked(s, req.kept, Waiting(req)) else Open(s, req, None)
  }

  /** The first stretch of `attachPane`. */
  function AttachStep(s0: Manager, req: Request): Manager
    requires Known(s0)
  {
    var s := s0.(used := s0.used + {req.stream});
    if TakesOver(s, req) then
      var p := s.holders[req.kept.value];
      Locked(Detached(s, p), req.kept, Taking(req.stream, p))
    else Reclaim(Dismissed(s, req), req)
  }

  /** The wait for a quitting browser is over: the profile is free, or this attach gets a throwaway one and no key. */
  function WaitedStep(s: Manager, name: Profile, elsewhere: bool): Manager
    requires name in s.locks && s.locks[name].Waiting?
  {
    var req := s.locks[name].req;
    s.(locks := s.locks[name := Cleared(if name in s.holders || elsewhere then req.(key := None, kept := None) else req)])
  }

  function TakeStep(s: Manager, name: Profile): Manager
    requires name in s.locks && s.locks[name].Taking?
  {
    s.(panes := s.panes[s.locks[name].stream := s.locks[name].pane], locks := s.locks[name := Settling])
  }

  function UnlockStep(s: Manager, name: Profile): Manager {
    s.(locks := s.locks - {name})
  }

  /** An attach's open or resume failed: its stream ends, and its browser is closed wherever it is by now. */
  function FailStep(s: Manager, stream: Stream, p: nat): Manager {
    Closed(s.(panes := s.panes - {stream}), p)
  }

  /** The viewer closed the pane. */
  function CloseStep(s: Manager, stream: Stream): Manager
    requires stream in s.panes && s.panes[stream] < |s.browsers|
  {
    Park(s.(panes := s.panes - {stream}), s.panes[stream])
  }

  /** `onPaneExit`: out of wherever it is. */
  function Gone(s: Manager, p: nat): Manager
    requires p < |s.browsers|
  {
    var key := s.browsers[p].key;
    var at := if key.Some? then KeyIndex(s.parked, key.value) else None;
    var s1 := Detached(s, p);
    if at.Some? && s.parked[at.value].pane == p then s1.(parked := Without(s.parked, at.value)) else s1
  }

  /** The page crashed or closed itself. */
  function PageGoneStep(s: Manager, p: nat): Manager
    requires p < |s.browsers|
  {
    if s.browsers[p].gone then s else Gone(Closed(s, p), p)
  }

  function ExitStep(s: Manager, p: nat): Manager
    requires p < |s.browsers|
  {
    var s1 := s.(browsers := s.browsers[p := s.browsers[p].(gone := true, exited := true)]);
    if s.browsers[p].gone then s1 else Gone(s1, p)
  }

  /** The browser's exit reaches the manager. */
  function UnheldStep(s: Manager, p: nat): Manager
    requires p < |s.browsers|
  {
    var kept := s.browsers[p].kept;
    if kept.Some? && kept.value in s.holders && s.holders[kept.value] == p then s.(holders := s.holders - {kept.value}) else s
  }

  function ExpireStep(s: Manager, key: Key): Manager {
    var at := KeyIndex(s.parked, key);
    if at.None? then s else Closed(Unpark(s, key), s.parked[at.value].pane)
  }

  /** The socket dropped: every live browser parked, stream by stream. */
  function ParkAllStep(s: Manager, streams: seq<Stream>): Manager
    decreases |streams|
  {
    if streams == [] then s
    else if streams[0] in s.panes && s.panes[streams[0]] < |s.browsers| then ParkAllStep(CloseStep(s, streams[0]), streams[1..])
    else ParkAllStep(s, streams[1..])
  }

  /** `forgetProfile`, up to its delete: the key's browsers closed, wherever they are. */
  function ForgetStep(s: Manager, key: Key): Manager {
    var browsers := seq(|s.browsers|, p requires 0 <= p < |s.browsers| =>
      if s.browsers[p].key == Some(key) && IsLive(s, p) then s.browsers[p].(gone := true) else s.browsers[p]);
    var panes := map x | x in s.panes && (s.panes[x] >= |s.browsers| || s.browsers[s.panes[x]].key != Some(key)) :: s.panes[x];
    ExpireStep(s.(browsers := browsers, panes := panes), key)
  }

  /** `deleteProfile` after its wait: refused while the profile has a holder, or no longer wanted. */
  function CheckStep(s: Manager, name: Profile, wanted: bool): Manager {
    if name in s.holders || !wanted then UnlockStep(s, name) else s.(locks := s.locks[name := Deleting])
  }

  datatype Action =
    | Attach(req: Request)
    | Take(name: Profile)
    | Waited(name: Profile, elsewhere: bool)
    | OpenFresh(name: Profile)
    | Unlock(name: Profile)
    | Fail(stream: Stream, pane: nat)
    | Close(stream: Stream)
    | PageGone(pane: nat)
    | Exit(pane: nat)
    | Unheld(pane: nat)
    | Expire(key: Key)
    | ParkAll(streams: seq<Stream>)
    | Forget(key: Key)
    | DeleteBegin(name: Profile)
    | DeleteCheck(name: Profile, wanted: bool)
    | DeleteDone(name: Profile)

  ghost predicate Enabled(s: Manager, a: Action) {
    Known(s) && match a
    case Attach(req) => req.stream !in s.used && (req.kept.Some? ==> req.kept.value !in s.locks && req.key.Some?)
    case Take(n) => n in s.locks && s.locks[n].Taking?
    case Waited(n, _) => n in s.locks && s.locks[n].Waiting?
    case OpenFresh(n) => n in s.locks && s.locks[n].Cleared?
    case Unlock(n) => n in s.locks && s.locks[n].Settling?
    case Fail(x, p) => x in s.used && p < |s.browsers| && (x in s.panes ==> s.panes[x] == p)
    case Close(x) => x in s.panes
    case PageGone(p) => p < |s.browsers|
    case Exit(p) => p < |s.browsers|
    case Unheld(p) => p < |s.browsers| && s.browsers[p].exited
    case DeleteBegin(n) => n !in s.locks
    case DeleteCheck(n, _) => n in s.locks && s.locks[n].Checking?
    case DeleteDone(n) => n in s.locks && s.locks[n].Deleting?
    case _ => true
  }

  ghost function Step(s: Manager, a: Action): Manager
    requires Enabled(s, a)
  {
    match a
    case Attach(req) => AttachStep(s, req)
    case Take(n) => TakeStep(s, n)
    case Waited(n, elsewhere) => WaitedStep(s, n, elsewhere)
    case OpenFresh(n) => Open(s, s.locks[n].req, Some(n))
    case Unlock(n) => UnlockStep(s, n)
    case Fail(x, p) => FailStep(s, x, p)
    case Close(x) => CloseStep(s, x)
    case PageGone(p) => PageGoneStep(s, p)
    case Exit(p) => ExitStep(s, p)
    case Unheld(p) => UnheldStep(s, p)
    case Expire(k) => ExpireStep(s, k)
    case ParkAll(streams) => ParkAllStep(s, streams)
    case Forget(k) => ForgetStep(s, k)
    case DeleteBegin(n) => s.(locks := s.locks[n := Checking])
    case DeleteCheck(n, wanted) => CheckStep(s, n, wanted)
    case DeleteDone(n) => UnlockStep(s, n)
  }

  ghost predicate ValidRun(s: Manager, acts: seq<Action>)
    decreases |acts|
  {
    acts == [] || (Enabled(s, acts[0]) && ValidRun(Step(s, acts[0]), acts[1..]))
  }

  ghost function Run(s: Manager, acts: seq<Action>): Manager
    requires ValidRun(s, acts)
    decreases |acts|
  {
    if acts == [] then s else Run(Step(s, acts[0]), acts[1..])
  }
}
