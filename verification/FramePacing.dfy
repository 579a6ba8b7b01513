/**
 * A pane's frames: screencast frames from Chromium and snapshots go to the viewer and are held until its
 * ack or a timeout; a released screencast frame is acked to Chromium once the socket has drained and the
 * frame interval has passed. Times are in milliseconds of a clock that does not run backwards.
 */
module FramePacing {
  import opened Common

  const MIN_FRAME_INTERVAL_MS := 50
  const ACK_HOLD_BYTES := 1024 * 1024

  /** A frame out to the viewer: `cast` is Chromium's number for it, none for a snapshot. `no` tells entries apart. */
  datatype Entry = Entry(no: nat, cast: Option<nat>)

  /** A snapshot asked for: its number, the screencast frames sent by then, and where in the history it was asked. */
  datatype Shot = Shot(mine: nat, cast: nat, at: nat)

  datatype Mark = CastSent(frame: nat) | Released(frame: nat) | Acked(frame: nat, time: int, unsent: nat) | Asked(shot: nat) | ShotSent(shot: nat)

  /** `waiting`: released frames whose ack awaits its timer. `arrived` counts Chromium's frames, `entries` those sent. */
  datatype Pane = Pane(
    now: int, shown: bool, closed: bool, pending: seq<Entry>, castSeq: nat, snapshotSeq: nat, lastAckAt: int,
    waiting: seq<nat>, shots: seq<Shot>, arrived: nat, entries: nat, marks: seq<Mark>)

  function Opened(now: int): Pane {
    Pane(now, false, false, [], 0, 0, 0, [], [], 0, 0, [])
  }

  function IndexOf(pending: seq<Entry>, no: nat): (at: Option<nat>)
    ensures at.Some? ==> at.value < |pending| && pending[at.value].no == no
    ensures at.None? ==> forall i :: 0 <= i < |pending| ==> pending[i].no != no
  {
    if pending == [] then None
    else if pending[0].no == no then Some(0)
    else
      var rest := IndexOf(pending[1..], no);
      if rest.None? then None else Some(rest.value + 1)
  }

  function SendFrame(p: Pane, cast: Option<nat>, mark: Mark): Pane {
    p.(castSeq := p.castSeq + if cast.Some? then 1 else 0, pending := p.pending + [Entry(p.entries, cast)], entries := p.entries + 1,
       marks := p.marks + [mark])
  }

  /** One look at whether a waiting frame may be acked: `unsent` bytes are still in the agent's socket. */
  function Tick(p: Pane, i: nat, unsent: nat): Pane
    requires i < |p.waiting|
  {
    if p.closed then p.(waiting := Without(p.waiting, i))
    else if p.lastAckAt + MIN_FRAME_INTERVAL_MS - p.now > 0 || unsent >= ACK_HOLD_BYTES then p
    else p.(waiting := Without(p.waiting, i), lastAckAt := p.now, marks := p.marks + [Acked(p.waiting[i], p.now, unsent)])
  }

  function AckWhenDrained(p: Pane, frame: nat, unsent: nat): Pane {
    Tick(p.(waiting := p.waiting + [frame]), |p.waiting|, unsent)
  }

  /** `releaseFrame`: a frame no longer pending is released already. */
  function Release(p: Pane, no: nat, unsent: nat): Pane {
    var at := IndexOf(p.pending, no);
    if at.None? then p
    else
      var e, p1 := p.pending[at.value], p.(pending := Without(p.pending, at.value));
      if e.cast.None? then p1 else AckWhenDrained(p1.(marks := p1.marks + [Released(e.cast.value)]), e.cast.value, unsent)
  }

  function FrameIn(p: Pane, unsent: nat): Pane {
    var frame, p1 := p.arrived, p.(arrived := p.arrived + 1);
    if p.closed then p1
    else if !p.shown then AckWhenDrained(p1, frame, unsent)
    else SendFrame(p1, Some(frame), CastSent(frame))
  }

  function AskShot(p: Pane): Pane {
    if p.closed || !p.shown then p
    else p.(snapshotSeq := p.snapshotSeq + 1, shots := p.shots + [Shot(p.snapshotSeq + 1, p.castSeq, |p.marks|)],
            marks := p.marks + [Asked(p.snapshotSeq + 1)])
  }

  /** A snapshot's answer: it goes out unless it is stale, or there was none. */
  function ShotIn(p: Pane, i: nat, ok: bool): Pane
    requires i < |p.shots|
  {
    var shot, p1 := p.shots[i], p.(shots := Without(p.shots, i));
    if p.closed || !p.shown || !ok || p.castSeq != shot.cast || p.snapshotSeq != shot.mine then p1
    else SendFrame(p1, None, ShotSent(shot.mine))
  }

  datatype Action =
    | Wait(ms: nat)
    | Frame(unsent: nat)
    | Ask
    | ShotAnswer(shot: nat, ok: bool)
    | ViewerAck(unsent: nat)
    | AckTimeout(no: nat, unsent: nat)
    | AckTimer(i: nat, unsent: nat)
    | Suspend
    | Resume
    | Close

  ghost predicate Enabled(p: Pane, a: Action) {
    match a
    case ShotAnswer(i, _) => i < |p.shots|
    case AckTimer(i, _) => i < |p.waiting|
    case _ => true
  }

  ghost function Step(p: Pane, a: Action): Pane
    requires Enabled(p, a)
  {
    match a
    case Wait(ms) => p.(now := p.now + ms)
    case Frame(unsent) => FrameIn(p, unsent)
    case Ask => AskShot(p)
    case ShotAnswer(i, ok) => ShotIn(p, i, ok)
    case ViewerAck(unsent) => if p.pending == [] then p else Release(p, p.pending[0].no, unsent)
    case AckTimeout(no, unsent) => Release(p, no, unsent)
    case AckTimer(i, unsent) => Tick(p, i, unsent)
    case Suspend => if p.closed then p else p.(shown := false, pending := [])
    case Resume => if p.closed then p else p.(shown := true)
    case Close => p.(closed := true, pending := [])
  }

  ghost predicate ValidRun(p: Pane, acts: seq<Action>)
    decreases |acts|
  {
    acts == [] || (Enabled(p, acts[0]) && ValidRun(Step(p, acts[0]), acts[1..]))
  }

  ghost function Run(p: Pane, acts: seq<Action>): Pane
    requires ValidRun(p, acts)
    decreases |acts|
  {
    if acts == [] then p else Run(Step(p, acts[0]), acts[1..])
  }

  // ---- What every step keeps ----

  ghost predicate IsPending(p: Pane, frame: nat) {
    exists e :: e in p.pending && e.cast == Some(frame)
  }

  ghost predicate IsAcked(p: Pane, frame: nat) {
    exists i :: 0 <= i < |p.marks| && p.marks[i].Acked? && p.marks[i].frame == frame
  }

  /** The mark's own rule, from the marks before it. */
  ghost predicate MarkOk(marks: seq<Mark>, k: nat)
    requires k < |marks|
  {
    match marks[k]
    case Acked(frame, time, unsent) =>
      && unsent < ACK_HOLD_BYTES
      && (forall j :: 0 <= j < k && marks[j].Acked? ==> marks[j].frame != frame && marks[j].time + MIN_FRAME_INTERVAL_MS <= time)
      && (forall j :: 0 <= j < k && marks[j] == CastSent(frame) ==> exists l :: j < l < k && marks[l] == Released(frame))
    case ShotSent(shot) =>
      exists i :: 0 <= i < k && marks[i] == Asked(shot) && forall l :: i < l < k ==> !marks[l].CastSent? && !marks[l].Asked?
    case _ => true
  }

  ghost predicate Marks(p: Pane) {
    && (forall k :: 0 <= k < |p.marks| ==> MarkOk(p.marks, k))
    && (forall j :: 0 <= j < |p.marks| && p.marks[j].Acked? ==> p.marks[j].time <= p.lastAckAt)
    && (forall j :: 0 <= j < |p.marks| && (p.marks[j].Acked? || p.marks[j].CastSent?) ==> p.marks[j].frame < p.arrived)
  }

  /** A frame is pending, or awaiting its ack, or acked; and one sent and no longer pending is so marked. */
  ghost predicate Frames(p: Pane) {
    && (forall i, j :: 0 <= i < j < |p.pending| ==> p.pending[i].no != p.pending[j].no && (p.pending[i].cast.Some? ==> p.pending[i].cast != p.pending[j].cast))
    && (forall e :: e in p.pending ==> e.no < p.entries && (e.cast.Some? ==> e.cast.value < p.arrived))
    && (forall i, j :: 0 <= i < j < |p.waiting| ==> p.waiting[i] != p.waiting[j])
    && (forall f :: f in p.waiting ==> f < p.arrived && !IsPending(p, f) && !IsAcked(p, f))
    && (forall f :: IsPending(p, f) ==> !IsAcked(p, f))
    && (forall f, j :: f in p.waiting && 0 <= j < |p.marks| && p.marks[j] == CastSent(f) ==> exists l :: j < l < |p.marks| && p.marks[l] == Released(f))
  }

  ghost predicate ShotOk(p: Pane, shot: Shot) {
    && shot.at < |p.marks| && p.marks[shot.at] == Asked(shot.mine)
    && shot.cast <= p.castSeq && shot.mine <= p.snapshotSeq
    && (p.castSeq == shot.cast <==> forall l :: shot.at < l < |p.marks| ==> !p.marks[l].CastSent?)
    && (p.snapshotSeq == shot.mine <==> forall l :: shot.at < l < |p.marks| ==> !p.marks[l].Asked?)
  }

  ghost predicate Inv(p: Pane) {
    Marks(p) && Frames(p) && forall i :: 0 <= i < |p.shots| ==> ShotOk(p, p.shots[i])
  }

  lemma MarksGrow(marks: seq<Mark>, m: Mark)
    requires forall k :: 0 <= k < |marks| ==> MarkOk(marks, k)
    requires MarkOk(marks + [m], |marks|)
    ensures forall k :: 0 <= k < |marks| + 1 ==> MarkOk(marks + [m], k)
  {
    var more := marks + [m];
    forall k | 0 <= k < |marks|
      ensures MarkOk(more, k)
    {
      assert MarkOk(marks, k) && more[k] == marks[k];
      match marks[k]
      case Acked(frame, time, unsent) =>
        forall j | 0 <= j < k && more[j] == CastSent(frame)
          ensures exists l :: j < l < k && more[l] == Released(frame)
        {
          var l :| j < l < k && marks[l] == Released(frame);
          assert more[l] == Released(frame);
        }
      case ShotSent(shot) =>
        var i :| 0 <= i < k && marks[i] == Asked(shot) && forall l :: i < l < k ==> !marks[l].CastSent? && !marks[l].Asked?;
        assert more[i] == Asked(shot);
      case _ =>
    }
  }

  lemma ShotsGrow(p: Pane, p': Pane, m: Mark)
    requires forall i :: 0 <= i < |p.shots| ==> ShotOk(p, p.shots[i])
    requires p'.marks == p.marks + [m]
    requires p'.castSeq == p.castSeq + (if m.CastSent? then 1 else 0) && p'.snapshotSeq == p.snapshotSeq + (if m.Asked? then 1 else 0)
    ensures forall i :: 0 <= i < |p.shots| ==> ShotOk(p', p.shots[i])
  {
    forall i | 0 <= i < |p.shots|
      ensures ShotOk(p', p.shots[i])
    {
      var shot := p.shots[i];
      assert ShotOk(p, shot) && p'.marks[|p.marks|] == m;
      assert forall l :: 0 <= l < |p.marks| ==> p'.marks[l] == p.marks[l];
    }
  }

  lemma WithoutKeeps<T>(s: seq<T>, i: nat)
    requires i < |s| && forall j, k :: 0 <= j < k < |s| ==> s[j] != s[k]
    ensures forall j, k :: 0 <= j < k < |s| - 1 ==> Without(s, i)[j] != Without(s, i)[k]
    ensures forall x :: x in Without(s, i) <==> x in s && x != s[i]
  {
    var r := Without(s, i);
    assert forall j :: 0 <= j < |r| ==> r[j] == s[if j < i then j else j + 1];
    forall x | x in s && x != s[i]
      ensures x in r
    {
      var j :| 0 <= j < |s| && s[j] == x;
      assert r[if j < i then j else j - 1] == x;
    }
  }

  lemma AckMarkOk(p: Pane, i: nat, unsent: nat)
    requires Inv(p) && i < |p.waiting| && p.lastAckAt + MIN_FRAME_INTERVAL_MS <= p.now && unsent < ACK_HOLD_BYTES
    ensures MarkOk(p.marks + [Acked(p.waiting[i], p.now, unsent)], |p.marks|)
  {
    var f := p.waiting[i];
    var more := p.marks + [Acked(f, p.now, unsent)];
    assert f in p.waiting && !IsAcked(p, f);
    forall j | 0 <= j < |p.marks| && more[j] == CastSent(f)
      ensures exists l :: j < l < |p.marks| && more[l] == Released(f)
    {
      var l :| j < l < |p.marks| && p.marks[l] == Released(f);
      assert more[l] == Released(f);
    }
  }

  lemma AckedKeeps(p: Pane, i: nat, unsent: nat)
    requires Inv(p) && i < |p.waiting| && p.lastAckAt + MIN_FRAME_INTERVAL_MS <= p.now && unsent < ACK_HOLD_BYTES
    ensures Inv(p.(waiting := Without(p.waiting, i), lastAckAt := p.now, marks := p.marks + [Acked(p.waiting[i], p.now, unsent)]))
  {
    var f, m := p.waiting[i], Acked(p.waiting[i], p.now, unsent);
    var p' := p.(waiting := Without(p.waiting, i), lastAckAt := p.now, marks := p.marks + [m]);
    AckMarkOk(p, i, unsent);
    MarksGrow(p.marks, m);
    ShotsGrow(p, p', m);
    WithoutKeeps(p.waiting, i);
    assert f in p.waiting;
    hide MarkOk, ShotOk;
    forall g
      ensures IsPending(p', g) == IsPending(p, g)
      ensures IsAcked(p', g) <==> IsAcked(p, g) || g == f
    {
      if IsAcked(p, g) {
        var k :| 0 <= k < |p.marks| && p.marks[k].Acked? && p.marks[k].frame == g;
        assert p'.marks[k] == p.marks[k];
      }
      assert p'.marks[|p.marks|] == m;
    }
    ReleasedKept(p, p', m);
  }

  lemma ReleasedKept(p: Pane, p': Pane, m: Mark)
    requires Frames(p) && p'.marks == p.marks + [m] && (m.CastSent? ==> m.frame !in p'.waiting)
    requires forall g :: g in p'.waiting ==> g in p.waiting
    ensures forall g, j :: g in p'.waiting && 0 <= j < |p'.marks| && p'.marks[j] == CastSent(g) ==> exists l :: j < l < |p'.marks| && p'.marks[l] == Released(g)
  {
    forall g, j | g in p'.waiting && 0 <= j < |p'.marks| && p'.marks[j] == CastSent(g)
      ensures exists l :: j < l < |p'.marks| && p'.marks[l] == Released(g)
    {
      assert j < |p.marks| && p.marks[j] == CastSent(g);
      var l :| j < l < |p.marks| && p.marks[l] == Released(g);
      assert p'.marks[l] == Released(g);
    }
  }

  lemma TickKeeps(p: Pane, i: nat, unsent: nat)
    requires Inv(p) && i < |p.waiting|
    ensures Inv(Tick(p, i, unsent))
  {
    if p.closed {
      WithoutKeeps(p.waiting, i);
      hide MarkOk, ShotOk;
      var p' := Tick(p, i, unsent);
      assert forall g :: IsPending(p', g) == IsPending(p, g) && IsAcked(p', g) == IsAcked(p, g);
      assert forall k :: 0 <= k < |p.shots| ==> ShotOk(p', p.shots[k]) == ShotOk(p, p.shots[k]) by { ShotsSame(p, p'); }
    } else if p.lastAckAt + MIN_FRAME_INTERVAL_MS <= p.now && unsent < ACK_HOLD_BYTES {
      AckedKeeps(p, i, unsent);
    }
  }

  lemma ShotsSame(p: Pane, p': Pane)
    requires p'.marks == p.marks && p'.castSeq == p.castSeq && p'.snapshotSeq == p.snapshotSeq
    ensures forall shot :: ShotOk(p', shot) == ShotOk(p, shot)
  {
  }

  lemma SendKeeps(p: Pane, cast: Option<nat>, mark: Mark)
    requires Inv(p) && MarkOk(p.marks + [mark], |p.marks|)
    requires if cast.Some? then mark == CastSent(cast.value) && cast.value < p.arrived && !IsPending(p, cast.value) && cast.value !in p.waiting && !IsAcked(p, cast.value)
             else mark.ShotSent?
    ensures Inv(SendFrame(p, cast, mark))
  {
    var p' := SendFrame(p, cast, mark);
    MarksGrow(p.marks, mark);
    ShotsGrow(p, p', mark);
    hide MarkOk, ShotOk;
    assert p'.pending[|p.pending|] == Entry(p.entries, cast);
    forall e | e in p'.pending
      ensures e in p.pending || e == Entry(p.entries, cast)
    {
    }
    forall g: nat
      ensures IsPending(p', g) <==> IsPending(p, g) || cast == Some(g)
      ensures IsAcked(p', g) <==> IsAcked(p, g)
    {
      if IsPending(p, g) {
        var e :| e in p.pending && e.cast == Some(g);
        assert e in p'.pending;
      }
      if IsAcked(p, g) {
        var k :| 0 <= k < |p.marks| && p.marks[k].Acked? && p.marks[k].frame == g;
        assert p'.marks[k] == p.marks[k];
      }
      if cast == Some(g) { assert Entry(p.entries, cast) in p'.pending; }
    }
    SentDistinct(p, p', cast);
    ReleasedKept(p, p', mark);
  }

  lemma SentDistinct(p: Pane, p': Pane, cast: Option<nat>)
    requires Frames(p) && p'.pending == p.pending + [Entry(p.entries, cast)] && (cast.Some? ==> !IsPending(p, cast.value))
    ensures forall i, j :: 0 <= i < j < |p'.pending| ==>
      p'.pending[i].no != p'.pending[j].no && (p'.pending[i].cast.Some? ==> p'.pending[i].cast != p'.pending[j].cast)
  {
    forall i | 0 <= i < |p.pending|
      ensures p.pending[i].no != p.entries && (cast.Some? ==> p.pending[i].cast != cast)
    {
      assert p.pending[i] in p.pending;
    }
  }

  /** A frame out of the pending list, marked released, awaits its ack. */
  lemma AwaitKeeps(p: Pane, i: nat)
    requires Inv(p) && i < |p.pending|
    ensures var e, p1 := p.pending[i], p.(pending := Without(p.pending, i));
      && Inv(p1)
      && (e.cast.Some? ==> Inv(p1.(marks := p1.marks + [Released(e.cast.value)], waiting := p1.waiting + [e.cast.value])))
  {
    var e, p1 := p.pending[i], p.(pending := Without(p.pending, i));
    assert e in p.pending;
    WithoutKeeps(p.pending, i);
    ShotsSame(p, p1);
    hide MarkOk, ShotOk;
    assert Frames(p1) by {
      assert forall g :: IsAcked(p1, g) == IsAcked(p, g);
      assert forall g :: IsPending(p1, g) ==> IsPending(p, g);
      OutDistinct(p, p1, i);
    }
    assert Inv(p1);
    if e.cast.Some? { ReleasedKeeps(p, p1, i, e.cast.value); }
  }

  lemma OutDistinct(p: Pane, p1: Pane, i: nat)
    requires Frames(p) && i < |p.pending| && p1.pending == Without(p.pending, i)
    ensures forall j, k :: 0 <= j < k < |p1.pending| ==>
      p1.pending[j].no != p1.pending[k].no && (p1.pending[j].cast.Some? ==> p1.pending[j].cast != p1.pending[k].cast)
    ensures p.pending[i].cast.Some? ==> !IsPending(p1, p.pending[i].cast.value)
  {
    assert forall j :: 0 <= j < |p1.pending| ==> p1.pending[j] == p.pending[if j < i then j else j + 1];
  }

  lemma ReleasedKeeps(p: Pane, p1: Pane, i: nat, f: nat)
    requires Inv(p) && Inv(p1) && i < |p.pending| && p.pending[i].cast == Some(f) && p1 == p.(pending := Without(p.pending, i))
    ensures Inv(p1.(marks := p1.marks + [Released(f)], waiting := p1.waiting + [f]))
  {
    var p2 := p1.(marks := p1.marks + [Released(f)], waiting := p1.waiting + [f]);
    MarksGrow(p1.marks, Released(f));
    ShotsGrow(p1, p2, Released(f));
    hide MarkOk, ShotOk;
    assert p.pending[i] in p.pending && IsPending(p, f);
    OutDistinct(p, p1, i);
    assert p2.marks[|p1.marks|] == Released(f);
    forall g
      ensures IsPending(p2, g) == IsPending(p1, g)
      ensures IsAcked(p2, g) <==> IsAcked(p1, g)
    {
      if IsAcked(p1, g) {
        var k :| 0 <= k < |p1.marks| && p1.marks[k].Acked? && p1.marks[k].frame == g;
        assert p2.marks[k] == p1.marks[k];
      }
    }
    assert f !in p.waiting;
    forall g, j | g in p2.waiting && 0 <= j < |p2.marks| && p2.marks[j] == CastSent(g)
      ensures exists l :: j < l < |p2.marks| && p2.marks[l] == Released(g)
    {
      if g != f {
        assert g in p1.waiting && p1.marks[j] == CastSent(g);
        var l :| j < l < |p1.marks| && p1.marks[l] == Released(g);
        assert p2.marks[l] == Released(g);
      }
    }
  }

  lemma ReleaseKeeps(p: Pane, no: nat, unsent: nat)
    requires Inv(p)
    ensures Inv(Release(p, no, unsent))
  {
    var at := IndexOf(p.pending, no);
    if at.Some? {
      var e := p.pending[at.value];
      AwaitKeeps(p, at.value);
      if e.cast.Some? {
        var p1 := p.(pending := Without(p.pending, at.value));
        var p2 := p1.(marks := p1.marks + [Released(e.cast.value)], waiting := p1.waiting + [e.cast.value]);
        TickKeeps(p2, |p1.waiting|, unsent);
      }
    }
  }

  lemma ArrivedKeeps(p: Pane)
    requires Inv(p)
    ensures var p1, f := p.(arrived := p.arrived + 1), p.arrived;
      Inv(p1) && f !in p1.waiting && !IsAcked(p1, f) && !IsPending(p1, f) && forall j :: 0 <= j < |p.marks| ==> p.marks[j] != CastSent(f)
  {
    var p1 := p.(arrived := p.arrived + 1);
    ShotsSame(p, p1);
    hide MarkOk, ShotOk;
    assert forall g :: IsPending(p1, g) == IsPending(p, g) && IsAcked(p1, g) == IsAcked(p, g);
  }

  lemma HiddenFrameKeeps(p: Pane, f: nat)
    requires Inv(p) && f < p.arrived && f !in p.waiting && !IsAcked(p, f) && !IsPending(p, f)
    requires forall j :: 0 <= j < |p.marks| ==> p.marks[j] != CastSent(f)
    ensures Inv(p.(waiting := p.waiting + [f]))
  {
    var p2 := p.(waiting := p.waiting + [f]);
    ShotsSame(p, p2);
    hide MarkOk, ShotOk;
    assert forall g :: IsPending(p2, g) == IsPending(p, g) && IsAcked(p2, g) == IsAcked(p, g);
  }

  lemma ShownFrameKeeps(p: Pane, f: nat)
    requires Inv(p) && f < p.arrived && f !in p.waiting && !IsAcked(p, f) && !IsPending(p, f)
    ensures Inv(SendFrame(p, Some(f), CastSent(f)))
  {
    SendKeeps(p, Some(f), CastSent(f));
  }

  lemma FrameKeeps(p: Pane, unsent: nat)
    requires Inv(p)
    ensures Inv(FrameIn(p, unsent))
  {
    var f, p1 := p.arrived, p.(arrived := p.arrived + 1);
    assert FrameIn(p, unsent) ==
      if p.closed then p1
      else if !p.shown then Tick(p1.(waiting := p1.waiting + [f]), |p1.waiting|, unsent)
      else SendFrame(p1, Some(f), CastSent(f));
    hide *;
    ArrivedKeeps(p);
    if !p.closed && !p.shown {
      HiddenFrameKeeps(p1, f);
      TickKeeps(p1.(waiting := p1.waiting + [f]), |p1.waiting|, unsent);
    } else if !p.closed {
      ShownFrameKeeps(p1, f);
    }
  }

  lemma AskKeeps(p: Pane)
    requires Inv(p)
    ensures Inv(AskShot(p))
  {
    if !p.closed && p.shown {
      var p', m := AskShot(p), Asked(p.snapshotSeq + 1);
      MarksGrow(p.marks, m);
      ShotsGrow(p, p', m);
      hide MarkOk;
      assert p'.marks[|p.marks|] == m;
      assert ShotOk(p', p'.shots[|p.shots|]);
      hide ShotOk;
      forall g
        ensures IsPending(p', g) == IsPending(p, g)
        ensures IsAcked(p', g) <==> IsAcked(p, g)
      {
        if IsAcked(p, g) {
          var k :| 0 <= k < |p.marks| && p.marks[k].Acked? && p.marks[k].frame == g;
          assert p'.marks[k] == p.marks[k];
        }
      }
      ReleasedKept(p, p', m);
    }
  }

  lemma ShotKeeps(p: Pane, i: nat, ok: bool)
    requires Inv(p) && i < |p.shots|
    ensures Inv(ShotIn(p, i, ok))
  {
    var shot, p1 := p.shots[i], p.(shots := Without(p.shots, i));
    assert ShotOk(p, shot);
    assert forall j :: 0 <= j < |p1.shots| ==> p1.shots[j] == p.shots[if j < i then j else j + 1];
    ShotsSame(p, p1);
    assert forall g :: IsPending(p1, g) == IsPending(p, g) && IsAcked(p1, g) == IsAcked(p, g);
    assert Inv(p1);
    if !p.closed && p.shown && ok && p.castSeq == shot.cast && p.snapshotSeq == shot.mine {
      assert (p.marks + [ShotSent(shot.mine)])[shot.at] == Asked(shot.mine);
      SendKeeps(p1, None, ShotSent(shot.mine));
    }
  }

  lemma StepKeeps(p: Pane, a: Action)
    requires Inv(p) && Enabled(p, a)
    ensures Inv(Step(p, a))
  {
    match a
    case Frame(unsent) => FrameKeeps(p, unsent);
    case Ask => AskKeeps(p);
    case ShotAnswer(i, ok) => ShotKeeps(p, i, ok);
    case ViewerAck(unsent) => if p.pending != [] { ReleaseKeeps(p, p.pending[0].no, unsent); }
    case AckTimeout(no, unsent) => ReleaseKeeps(p, no, unsent);
    case AckTimer(i, unsent) => TickKeeps(p, i, unsent);
    case _ =>
      var p' := Step(p, a);
      ShotsSame(p, p');
      assert forall g :: IsAcked(p', g) == IsAcked(p, g) && (IsPending(p', g) ==> IsPending(p, g));
  }

  lemma {:induction false} RunKeeps(p: Pane, acts: seq<Action>)
    requires Inv(p) && ValidRun(p, acts)
    ensures Inv(Run(p, acts))
    decreases |acts|
  {
    hide Inv, Step, Enabled;
    if acts != [] {
      StepKeeps(p, acts[0]);
      RunKeeps(Step(p, acts[0]), acts[1..]);
    }
  }

  lemma OpenedKeeps(now: int)
    ensures Inv(Opened(now))
  {
  }

  // ---- Acks and snapshots over a whole run ----

  /** Chromium is acked at most once a frame, 50 ms apart, with room in the socket, and only for a frame the viewer has had or timed out on. */
  lemma AcksArePaced(now: int, acts: seq<Action>, k: nat)
    requires ValidRun(Opened(now), acts)
    requires var marks := Run(Opened(now), acts).marks; k < |marks| && marks[k].Acked?
    ensures var marks := Run(Opened(now), acts).marks;
      && marks[k].unsent < ACK_HOLD_BYTES
      && (forall j :: 0 <= j < k && marks[j].Acked? ==>
            marks[j].frame != marks[k].frame && marks[j].time + MIN_FRAME_INTERVAL_MS <= marks[k].time)
      && (forall j :: 0 <= j < k && marks[j] == CastSent(marks[k].frame) ==>
            exists l :: j < l < k && marks[l] == Released(marks[k].frame))
  {
    OpenedKeeps(now);
    RunKeeps(Opened(now), acts);
    hide Run;
    assert MarkOk(Run(Opened(now), acts).marks, k);
  }

  function AcksIn(marks: seq<Mark>, from: int, until: int): nat {
    if marks == [] then 0
    else
      var last := marks[|marks| - 1];
      AcksIn(marks[..|marks| - 1], from, until) + if last.Acked? && from <= last.time < until then 1 else 0
  }

  /** The same acks counted to an earlier end, past which there is none. */
  lemma {:induction false} NoneLater(marks: seq<Mark>, from: int, until: int, end: int)
    requires end <= until && forall j :: 0 <= j < |marks| && marks[j].Acked? ==> marks[j].time < end
    ensures AcksIn(marks, from, until) == AcksIn(marks, from, end)
  {
    if marks != [] { NoneLater(marks[..|marks| - 1], from, until, end); }
  }

  lemma {:induction false} SpacedCount(marks: seq<Mark>, from: int, until: int)
    requires forall k :: 0 <= k < |marks| ==> MarkOk(marks, k)
    ensures AcksIn(marks, from, until) == 0 || MIN_FRAME_INTERVAL_MS * (AcksIn(marks, from, until) - 1) < until - from
  {
    if marks != [] {
      var last, before := marks[|marks| - 1], marks[..|marks| - 1];
      PrefixOk(marks, before);
      if last.Acked? && from <= last.time < until {
        assert MarkOk(marks, |marks| - 1);
        var end := last.time - MIN_FRAME_INTERVAL_MS + 1;
        forall j | 0 <= j < |before| && before[j].Acked?
          ensures before[j].time < end
        {
          assert marks[j] == before[j];
        }
        NoneLater(before, from, until, end);
        SpacedCount(before, from, end);
      } else {
        SpacedCount(before, from, until);
      }
    }
  }

  lemma PrefixOk(marks: seq<Mark>, before: seq<Mark>)
    requires marks != [] && before == marks[..|marks| - 1] && forall k :: 0 <= k < |marks| ==> MarkOk(marks, k)
    ensures forall k :: 0 <= k < |before| ==> MarkOk(before, k)
  {
    forall k | 0 <= k < |before|
      ensures MarkOk(before, k)
    {
      assert MarkOk(marks, k) && before[k] == marks[k];
      match marks[k]
      case Acked(frame, time, unsent) =>
        forall j | 0 <= j < k && before[j] == CastSent(frame)
          ensures exists l :: j < l < k && before[l] == Released(frame)
        {
          var l :| j < l < k && marks[l] == Released(frame);
          assert before[l] == Released(frame);
        }
      case ShotSent(shot) =>
        var i :| 0 <= i < k && marks[i] == Asked(shot) && forall l :: i < l < k ==> !marks[l].CastSent? && !marks[l].Asked?;
        assert before[i] == Asked(shot);
      case _ =>
    }
  }

  /** The acks of a window. */
  function AckedIn(marks: seq<Mark>, from: int, until: int): set<nat> {
    set k: nat | k < |marks| && marks[k].Acked? && from <= marks[k].time < until
  }

  lemma {:induction false} AcksInCounts(marks: seq<Mark>, from: int, until: int)
    ensures |AckedIn(marks, from, until)| == AcksIn(marks, from, until)
  {
    if marks == [] {
      assert AckedIn(marks, from, until) == {};
    } else {
      var n := |marks| - 1;
      var before := AckedIn(marks[..n], from, until);
      AcksInCounts(marks[..n], from, until);
      assert AckedIn(marks, from, until) == before + if marks[n].Acked? && from <= marks[n].time < until then {n} else {};
    }
  }

  /** In any window of a run Chromium gets at most one ack more than the window has whole frame intervals. */
  lemma AcksInAnyWindow(now: int, acts: seq<Action>, from: int, ms: nat)
    requires ValidRun(Opened(now), acts) && ms > 0
    ensures |set k: nat | k < |Run(Opened(now), acts).marks| && Run(Opened(now), acts).marks[k].Acked? && from <= Run(Opened(now), acts).marks[k].time < from + ms|
         <= (ms - 1) / 50 + 1
  {
    OpenedKeeps(now);
    RunKeeps(Opened(now), acts);
    hide Run, MarkOk;
    var marks := Run(Opened(now), acts).marks;
    SpacedCount(marks, from, from + ms);
    AcksInCounts(marks, from, from + ms);
    assert AckedIn(marks, from, from + ms) == set k: nat | k < |marks| && marks[k].Acked? && from <= marks[k].time < from + ms;
  }

  /** A snapshot goes out exactly when it came, the pane is shown, and neither a screencast frame went out nor a later one was asked for since it was. */
  lemma SnapshotGoesOutIff(now: int, acts: seq<Action>, i: nat, ok: bool)
    requires ValidRun(Opened(now), acts) && i < |Run(Opened(now), acts).shots|
    ensures var p := Run(Opened(now), acts);
      var shot, p' := p.shots[i], ShotIn(p, i, ok);
      && shot.at < |p.marks| && p.marks[shot.at] == Asked(shot.mine)
      && ((|p'.pending| > |p.pending|) <==> !p.closed && p.shown && ok && forall l :: shot.at < l < |p.marks| ==> !p.marks[l].CastSent? && !p.marks[l].Asked?)
  {
    OpenedKeeps(now);
    RunKeeps(Opened(now), acts);
    hide Run;
    var p := Run(Opened(now), acts);
    assert ShotOk(p, p.shots[i]);
  }

  // ---- What each step does ----

  /** A frame of a shown pane goes to the viewer, the last of those it has; of a hidden one it only awaits its ack. */
  lemma FrameGoesToTheViewer(p: Pane, unsent: nat)
    ensures var d, f := Step(p, Frame(unsent)), p.arrived;
      && d.arrived == f + 1
      && (!p.closed && p.shown ==>
            d.pending == p.pending + [Entry(p.entries, Some(f))] && d.marks == p.marks + [CastSent(f)] && d.castSeq == p.castSeq + 1 && d.waiting == p.waiting)
      && (!p.closed && !p.shown ==> d.pending == p.pending && d.castSeq == p.castSeq && (f in d.waiting || IsAcked(d, f)))
      && (p.closed ==> d == p.(arrived := f + 1))
  {
    if !p.closed && !p.shown {
      TickDoes(p.(arrived := p.arrived + 1, waiting := p.waiting + [p.arrived]), |p.waiting|, unsent);
    }
  }

  /**
   * A look at a released frame of an open pane acks it to Chromium exactly when the frame interval is over and
   * the socket has room; else it goes on waiting.
   */
  lemma TickDoes(p: Pane, i: nat, unsent: nat)
    requires i < |p.waiting| && !p.closed
    ensures var d, f := Step(p, AckTimer(i, unsent)), p.waiting[i];
      if p.now - p.lastAckAt >= 50 && unsent < 1024 * 1024
      then d == p.(waiting := Without(p.waiting, i), lastAckAt := p.now, marks := p.marks + [Acked(f, p.now, unsent)]) && IsAcked(d, f)
      else d == p && f in d.waiting
  {
    var d := Step(p, AckTimer(i, unsent));
    if p.now - p.lastAckAt >= 50 && unsent < 1024 * 1024 {
      assert d.marks[|p.marks|] == Acked(p.waiting[i], p.now, unsent);
    }
  }

  /** The viewer's ack releases the oldest frame it has, a timeout the one it is for, if still pending; a screencast frame then awaits its ack. */
  lemma ReleaseDoes(p: Pane, i: nat, a: Action)
    requires Inv(p) && !p.closed && i < |p.pending|
    requires (a.ViewerAck? && i == 0) || (a.AckTimeout? && a.no == p.pending[i].no)
    ensures var d, e := Step(p, a), p.pending[i];
      && d.pending == Without(p.pending, i) && d.castSeq == p.castSeq
      && (e.cast.Some? ==> e.cast.value in d.waiting || IsAcked(d, e.cast.value))
      && (e.cast.None? ==> d == p.(pending := d.pending))
  {
    PendingAt(p, i);
    var e := p.pending[i];
    assert Step(p, a) == Release(p, e.no, a.unsent);
    if e.cast.Some? {
      TickDoes(p.(pending := Without(p.pending, i), marks := p.marks + [Released(e.cast.value)], waiting := p.waiting + [e.cast.value]), |p.waiting|, a.unsent);
    }
  }

  lemma PendingAt(p: Pane, i: nat)
    requires Inv(p) && i < |p.pending|
    ensures IndexOf(p.pending, p.pending[i].no) == Some(i)
  {
    hide Marks, ShotOk;
  }

  /** A hidden pane has no viewer to hold frames for, and a closed one stays so and acks nothing. */
  lemma HidesAndCloses(p: Pane)
    ensures !p.closed ==> Step(p, Suspend) == p.(shown := false, pending := []) && Step(p, Resume) == p.(shown := true)
    ensures p.closed ==> Step(p, Suspend) == p && Step(p, Resume) == p
    ensures Step(p, Close) == p.(closed := true, pending := [])
    ensures forall i: nat, unsent: nat :: p.closed && i < |p.waiting| ==> Step(p, AckTimer(i, unsent)) == p.(waiting := Without(p.waiting, i))
  {
  }

  /** Whatever the step: a frame or a snapshot goes out only of a pane that is shown and open. */
  lemma OnlyShownPanesSend(p: Pane, a: Action)
    requires Enabled(p, a)
    ensures var d := Step(p, a); p.marks <= d.marks
    ensures forall k :: |p.marks| <= k < |Step(p, a).marks| && (Step(p, a).marks[k].CastSent? || Step(p, a).marks[k].ShotSent?) ==> p.shown && !p.closed
  {
    hide Without;
  }

  /** A shown pane asks for a snapshot, noting the frames sent so far; its answer is looked at against both. */
  lemma SnapshotIsAsked(p: Pane)
    ensures var d := AskShot(p);
      if p.shown && !p.closed then
        d.shots == p.shots + [Shot(p.snapshotSeq + 1, p.castSeq, |p.marks|)] && d.marks == p.marks + [Asked(p.snapshotSeq + 1)]
        && d == p.(shots := d.shots, marks := d.marks, snapshotSeq := p.snapshotSeq + 1)
      else d == p
  {
  }

  /** Every screencast frame that came is with the viewer, awaits its ack, or was acked. */
  ghost predicate NoneForgotten(p: Pane) {
    !p.closed && forall f :: 0 <= f < p.arrived ==> IsPending(p, f) || f in p.waiting || IsAcked(p, f)
  }

  /** The marks only grow, and a frame stays pending unless it is the one to go. */
  lemma AckedStays(p: Pane, d: Pane, f: nat)
    requires p.marks <= d.marks && IsAcked(p, f)
    ensures IsAcked(d, f)
  {
    var k :| 0 <= k < |p.marks| && p.marks[k].Acked? && p.marks[k].frame == f;
    assert d.marks[k] == p.marks[k];
  }

  lemma TickForgetsNone(p: Pane, i: nat, unsent: nat)
    requires NoneForgotten(p) && i < |p.waiting|
    ensures NoneForgotten(Tick(p, i, unsent))
  {
    TickDoes(p, i, unsent);
    var d := Tick(p, i, unsent);
    forall f | 0 <= f < d.arrived
      ensures IsPending(d, f) || f in d.waiting || IsAcked(d, f)
    {
      if IsPending(p, f) {
        assert IsPending(d, f);
      } else if IsAcked(p, f) {
        AckedStays(p, d, f);
      } else if f != p.waiting[i] {
        StaysIn(p.waiting, i, f);
      }
    }
  }

  lemma StaysIn<T>(s: seq<T>, i: nat, x: T)
    requires i < |s| && x in s && x != s[i]
    ensures x in Without(s, i)
  {
    var j :| 0 <= j < |s| && s[j] == x;
    assert Without(s, i)[if j < i then j else j - 1] == x;
  }

  lemma ReleaseForgetsNone(p: Pane, no: nat, unsent: nat)
    requires NoneForgotten(p)
    ensures NoneForgotten(Release(p, no, unsent))
  {
    var at := IndexOf(p.pending, no);
    if at.Some? {
      var e := p.pending[at.value];
      var p1 := p.(pending := Without(p.pending, at.value));
      var p2 := if e.cast.None? then p1 else p1.(marks := p1.marks + [Released(e.cast.value)], waiting := p1.waiting + [e.cast.value]);
      forall f | 0 <= f < p2.arrived
        ensures IsPending(p2, f) || f in p2.waiting || IsAcked(p2, f)
      {
        if IsAcked(p, f) {
          AckedStays(p, p2, f);
        } else if IsPending(p, f) {
          var x :| x in p.pending && x.cast == Some(f);
          if x != e { StaysIn(p.pending, at.value, x); }
        }
      }
      assert NoneForgotten(p2);
      if e.cast.Some? { TickForgetsNone(p2, |p1.waiting|, unsent); }
    }
  }

  lemma SendForgetsNone(p: Pane, cast: Option<nat>, mark: Mark, arrived: nat)
    requires !p.closed && p.arrived == arrived + (if cast.Some? then 1 else 0) && (cast.Some? ==> cast.value == arrived)
    requires forall f :: 0 <= f < arrived ==> IsPending(p, f) || f in p.waiting || IsAcked(p, f)
    ensures NoneForgotten(SendFrame(p, cast, mark))
  {
    var d := SendFrame(p, cast, mark);
    assert Entry(p.entries, cast) in d.pending;
    forall f | 0 <= f < d.arrived
      ensures IsPending(d, f) || f in d.waiting || IsAcked(d, f)
    {
      if f < arrived {
        if IsAcked(p, f) {
          AckedStays(p, d, f);
        } else if IsPending(p, f) {
          var x :| x in p.pending && x.cast == Some(f);
          assert x in d.pending;
        }
      }
    }
  }

  lemma FrameForgetsNone(p: Pane, unsent: nat)
    requires NoneForgotten(p)
    ensures NoneForgotten(FrameIn(p, unsent))
  {
    var p1 := p.(arrived := p.arrived + 1);
    forall f | 0 <= f < p.arrived
      ensures IsPending(p1, f) || f in p1.waiting || IsAcked(p1, f)
    {
      if IsAcked(p, f) { AckedStays(p, p1, f); }
      assert IsPending(p, f) == IsPending(p1, f);
    }
    if p.shown {
      SendForgetsNone(p1, Some(p.arrived), CastSent(p.arrived), p.arrived);
    } else {
      var p2 := p1.(waiting := p1.waiting + [p.arrived]);
      forall f | 0 <= f < p2.arrived
        ensures IsPending(p2, f) || f in p2.waiting || IsAcked(p2, f)
      {
        if f < p.arrived && IsAcked(p1, f) { AckedStays(p1, p2, f); }
        assert IsPending(p1, f) == IsPending(p2, f);
      }
      TickForgetsNone(p2, |p1.waiting|, unsent);
    }
  }

  lemma SameForgetsNone(p: Pane, d: Pane)
    requires NoneForgotten(p) && d.closed == p.closed && d.pending == p.pending && d.waiting == p.waiting && d.arrived == p.arrived && p.marks <= d.marks
    ensures NoneForgotten(d)
  {
    forall f | 0 <= f < d.arrived
      ensures IsPending(d, f) || f in d.waiting || IsAcked(d, f)
    {
      if IsAcked(p, f) { AckedStays(p, d, f); }
      assert IsPending(p, f) == IsPending(d, f);
    }
  }

  lemma StepForgetsNone(p: Pane, a: Action)
    requires NoneForgotten(p) && Enabled(p, a) && !a.Suspend? && !a.Close?
    ensures NoneForgotten(Step(p, a))
  {
    var d := Step(p, a);
    if a.Frame? {
      FrameForgetsNone(p, a.unsent);
    } else if a.ViewerAck? {
      if p.pending != [] { ReleaseForgetsNone(p, p.pending[0].no, a.unsent); }
    } else if a.AckTimeout? {
      ReleaseForgetsNone(p, a.no, a.unsent);
    } else if a.AckTimer? {
      TickForgetsNone(p, a.i, a.unsent);
    } else if a.ShotAnswer? {
      var p1 := p.(shots := Without(p.shots, a.shot));
      SameForgetsNone(p, p1);
      if d != p1 { SendForgetsNone(p1, None, ShotSent(p.shots[a.shot].mine), p1.arrived); }
    } else {
      SameForgetsNone(p, d);
    }
  }

  lemma {:induction false} RunForgetsNone(p: Pane, acts: seq<Action>)
    requires NoneForgotten(p) && ValidRun(p, acts) && Suspend !in acts && Close !in acts
    ensures NoneForgotten(Run(p, acts))
    decreases |acts|
  {
    hide Step, Enabled, NoneForgotten;
    if acts != [] {
      assert acts[0] in acts;
      StepForgetsNone(p, acts[0]);
      RunForgetsNone(Step(p, acts[0]), acts[1..]);
    }
  }

  /**
   * While a pane is shown no screencast frame is forgotten: each that came is with the viewer, or awaits its
   * ack, which a look past the interval with room in the socket makes, or was acked.
   */
  lemma EveryFrameIsAcked(now: int, acts: seq<Action>, f: nat, ms: nat, unsent: nat)
    requires ValidRun(Opened(now), acts) && Suspend !in acts && Close !in acts && f < Run(Opened(now), acts).arrived
    ensures var p := Run(Opened(now), acts);
      && (IsPending(p, f) || f in p.waiting || IsAcked(p, f))
      && forall i :: 0 <= i < |p.waiting| && p.waiting[i] == f && p.now + ms - p.lastAckAt >= MIN_FRAME_INTERVAL_MS && unsent < ACK_HOLD_BYTES ==>
           IsAcked(Step(Step(p, Wait(ms)), AckTimer(i, unsent)), f)
  {
    assert NoneForgotten(Opened(now));
    RunForgetsNone(Opened(now), acts);
    hide Run, ValidRun;
    var p := Run(Opened(now), acts);
    forall i | 0 <= i < |p.waiting| && p.waiting[i] == f && p.now + ms - p.lastAckAt >= MIN_FRAME_INTERVAL_MS && unsent < ACK_HOLD_BYTES
      ensures IsAcked(Step(Step(p, Wait(ms)), AckTimer(i, unsent)), f)
    {
      TickDoes(Step(p, Wait(ms)), i, unsent);
    }
  }

  // ---- The pane in place ----

  /** The fields of `BrowserPane` that pace its frames, and the history. */
  class FramePane {
    var now: int
    var shown: bool
    var closed: bool
    var pending: seq<Entry>
    var castSeq: nat
    var snapshotSeq: nat
    var lastAckAt: int
    var waiting: seq<nat>
    var shots: seq<Shot>
    var arrived: nat
    var entries: nat
    var marks: seq<Mark>

    ghost function State(): Pane
      reads this
    {
      Pane(now, shown, closed, pending, castSeq, snapshotSeq, lastAckAt, waiting, shots, arrived, entries, marks)
    }

    constructor (at: int)
      ensures State() == Opened(at)
    {
      now, shown, closed, pending, castSeq, snapshotSeq, lastAckAt := at, false, false, [], 0, 0, 0;
      waiting, shots, arrived, entries, marks := [], [], 0, 0, [];
    }

    method Send(cast: Option<nat>, mark: Mark)
      modifies this
      ensures State() == SendFrame(old(State()), cast, mark)
    {
      if cast.Some? { castSeq := castSeq + 1; }
      pending := pending + [Entry(entries, cast)];
      entries := entries + 1;
      marks := marks + [mark];
    }

    /** The ack timer of the i-th waiting frame; `again` if it is set once more. */
    method AckTick(i: nat, unsent: nat) returns (again: bool)
      requires i < |waiting|
      modifies this
      ensures State() == Tick(old(State()), i, unsent)
      ensures again <==> |waiting| == |old(waiting)|
    {
      if closed {
        waiting := waiting[..i] + waiting[i + 1..];
        return false;
      }
      var wait := lastAckAt + MIN_FRAME_INTERVAL_MS - now;
      if wait > 0 || unsent >= ACK_HOLD_BYTES { return true; }
      lastAckAt := now;
      marks := marks + [Acked(waiting[i], now, unsent)];
      waiting := waiting[..i] + waiting[i + 1..];
      return false;
    }

    method Await(frame: nat, unsent: nat)
      modifies this
      ensures State() == AckWhenDrained(old(State()), frame, unsent)
    {
      waiting := waiting + [frame];
      var again := AckTick(|waiting| - 1, unsent);
    }

    /** A frame's ack or its timeout, whichever comes first. */
    method ReleaseFrame(no: nat, unsent: nat)
      modifies this
      ensures State() == Release(old(State()), no, unsent)
    {
      var at := 0;
      while at < |pending| && pending[at].no != no
        invariant 0 <= at <= |pending|
        invariant var rest := IndexOf(pending[at..], no);
          IndexOf(pending, no) == if rest.None? then None else Some(at + rest.value)
      {
        assert pending[at..][1..] == pending[at + 1..];
        at := at + 1;
      }
      if at == |pending| { return; }
      assert pending[at..][0] == pending[at];
      var e := pending[at];
      pending := pending[..at] + pending[at + 1..];
      if e.cast.Some? {
        marks := marks + [Released(e.cast.value)];
        Await(e.cast.value, unsent);
      }
    }

    method FrameAck(unsent: nat)
      modifies this
      ensures State() == Step(old(State()), ViewerAck(unsent))
    {
      if pending != [] { ReleaseFrame(pending[0].no, unsent); }
    }

    method HandleFrame(unsent: nat)
      modifies this
      ensures State() == FrameIn(old(State()), unsent)
    {
      var frame := arrived;
      arrived := arrived + 1;
      if closed { return; }
      if !shown { Await(frame, unsent); } else { Send(Some(frame), CastSent(frame)); }
    }

    method AskSnapshot()
      modifies this
      ensures State() == AskShot(old(State()))
    {
      if closed || !shown { return; }
      snapshotSeq := snapshotSeq + 1;
      shots := shots + [Shot(snapshotSeq, castSeq, |marks|)];
      marks := marks + [Asked(snapshotSeq)];
    }

    method SnapshotAnswer(i: nat, ok: bool)
      requires i < |shots|
      modifies this
      ensures State() == ShotIn(old(State()), i, ok)
    {
      var shot := shots[i];
      shots := shots[..i] + shots[i + 1..];
      if closed || !shown || !ok { return; }
      if castSeq != shot.cast || snapshotSeq != shot.mine { return; }
      Send(None, ShotSent(shot.mine));
    }

    method SuspendPane()
      modifies this
      ensures State() == Step(old(State()), Suspend)
    {
      if closed { return; }
      shown := false;
      pending := [];
    }
  }
}
