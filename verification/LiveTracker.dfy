/** When a live turn's wrapper may close Claude's stdin: what the turn's log, the deliveries and the clock say. */
module LiveTracker {
  import opened Common
  import opened Splitting

  const IDLE_GRACE_MS := 1500
  const WAKE_MS := 30000

  /** A log line to the tracker: Claude's result, Claude at work (assistant, stream event or init), a task's notification, the task list. */
  datatype LogEvent = Result | Work | Notification | Tasks(count: nat) | Other

  datatype Tracker = Tracker(answered: bool, tasks: nat, notifiedAt: Option<int>, quietSince: Option<int>)

  const NEW := Tracker(false, 0, None, None)

  /** What the wrapper does with its tracker: a line read, a message written to stdin, or the question whether to close. */
  datatype Moment = Read(ev: LogEvent, at: int) | Delivery(at: int) | Check(at: int)

  function AfterRead(t: Tracker, ev: LogEvent, at: int): Tracker {
    match ev
    case Result => t.(answered := true, notifiedAt := None)
    case Work => t.(answered := false, notifiedAt := None)
    case Notification => t.(notifiedAt := Some(at))
    case Tasks(n) => t.(tasks := n)
    case Other => t
  }

  predicate QuietNow(t: Tracker, at: int) {
    t.answered && t.tasks == 0 && (t.notifiedAt.None? || at - t.notifiedAt.value >= WAKE_MS)
  }

  function AfterCheck(t: Tracker, at: int): Tracker {
    if !QuietNow(t, at) then t.(quietSince := None)
    else if t.quietSince.None? then t.(quietSince := Some(at))
    else t
  }

  predicate IdleNow(t: Tracker, at: int) {
    QuietNow(t, at) && AfterCheck(t, at).quietSince.Some? && at - AfterCheck(t, at).quietSince.value >= IDLE_GRACE_MS
  }

  function AfterMoment(t: Tracker, m: Moment): Tracker {
    match m
    case Read(ev, at) => AfterRead(t, ev, at)
    case Delivery(_) => t.(answered := false)
    case Check(at) => AfterCheck(t, at)
  }

  function After(trace: seq<Moment>): Tracker {
    if trace == [] then NEW else AfterMoment(After(trace[..|trace| - 1]), trace[|trace| - 1])
  }

  // ---- The same, said of the trace ----

  ghost predicate Clocked(trace: seq<Moment>) {
    forall i, j :: 0 <= i < j < |trace| ==> trace[i].at <= trace[j].at
  }

  predicate IsWork(m: Moment) { m.Read? && m.ev.Work? }
  predicate IsResult(m: Moment) { m.Read? && m.ev.Result? }

  /** Moment `r` is a result after which, up to `k`, nothing was delivered and Claude did not work. */
  ghost predicate AnswersTo(trace: seq<Moment>, r: nat, k: nat)
    requires r < k <= |trace|
  {
    IsResult(trace[r]) && forall j :: r < j < k ==> !trace[j].Delivery? && !IsWork(trace[j])
  }

  ghost predicate Answered(trace: seq<Moment>, k: nat)
    requires k <= |trace|
  {
    exists r :: 0 <= r < k && AnswersTo(trace, r, k)
  }

  /** The last task list reported before `k`, if any was, is empty. */
  ghost predicate NoTasks(trace: seq<Moment>, k: nat)
    requires k <= |trace|
  {
    forall i :: 0 <= i < k && trace[i].Read? && trace[i].ev.Tasks? && trace[i].ev.count != 0
      ==> exists j :: i < j < k && trace[j].Read? && trace[j].ev.Tasks?
  }

  /** A notification at `i` that neither a result nor a turn of its own has followed before `k`. */
  ghost predicate Pending(trace: seq<Moment>, i: nat, k: nat)
    requires i < k <= |trace|
  {
    trace[i].Read? && trace[i].ev.Notification? && forall j :: i < j < k ==> !IsResult(trace[j]) && !IsWork(trace[j])
  }

  ghost predicate NoneFresh(trace: seq<Moment>, k: nat, at: int)
    requires k <= |trace|
  {
    forall i :: 0 <= i < k && Pending(trace, i, k) ==> at - trace[i].at >= WAKE_MS
  }

  ghost predicate Quiet(trace: seq<Moment>, k: nat)
    requires k < |trace|
  {
    Answered(trace, k) && NoTasks(trace, k) && NoneFresh(trace, k, trace[k].at)
  }

  /** Every check from `q` up to `k` found the turn quiet. */
  ghost predicate QuietFrom(trace: seq<Moment>, q: nat, k: nat)
    requires q < k <= |trace|
  {
    trace[q].Check? && forall c :: q <= c < k && trace[c].Check? ==> Quiet(trace, c)
  }

  // ---- The tracker holds exactly that ----

  lemma {:induction false} AnswerHeld(trace: seq<Moment>, k: nat)
    requires k <= |trace|
    ensures After(trace[..k]).answered <==> Answered(trace, k)
  {
    if k > 0 {
      AnswerHeld(trace, k - 1);
      assert trace[..k][..k - 1] == trace[..k - 1];
      var m := trace[k - 1];
      if IsResult(m) {
        assert AnswersTo(trace, k - 1, k);
      } else if !m.Delivery? && !IsWork(m) {
        assert forall r :: 0 <= r < k - 1 ==> AnswersTo(trace, r, k) == AnswersTo(trace, r, k - 1);
        if Answered(trace, k - 1) {
          var r :| 0 <= r < k - 1 && AnswersTo(trace, r, k - 1);
          assert AnswersTo(trace, r, k);
        }
      } else {
        assert forall r :: 0 <= r < k - 1 ==> !AnswersTo(trace, r, k);
      }
    }
  }

  lemma {:induction false} TasksHeld(trace: seq<Moment>, k: nat)
    requires k <= |trace|
    ensures After(trace[..k]).tasks == 0 <==> NoTasks(trace, k)
  {
    if k > 0 {
      TasksHeld(trace, k - 1);
      assert trace[..k][..k - 1] == trace[..k - 1];
    }
  }

  /** The time kept is that of the last notification still pending; with a clock, none pending is later. */
  lemma {:induction false} NotificationHeld(trace: seq<Moment>, k: nat)
    requires k <= |trace| && Clocked(trace)
    ensures var n := After(trace[..k]).notifiedAt;
      && (n.None? ==> forall i :: 0 <= i < k ==> !Pending(trace, i, k))
      && (n.Some? ==> exists i :: 0 <= i < k && Pending(trace, i, k) && trace[i].at == n.value)
      && (n.Some? ==> forall i :: 0 <= i < k && Pending(trace, i, k) ==> trace[i].at <= n.value)
  {
    if k > 0 {
      NotificationHeld(trace, k - 1);
      assert trace[..k][..k - 1] == trace[..k - 1];
      var m, n := trace[k - 1], After(trace[..k - 1]).notifiedAt;
      if IsResult(m) || IsWork(m) {
        assert forall i :: 0 <= i < k ==> !Pending(trace, i, k);
      } else {
        assert forall i :: 0 <= i < k - 1 ==> Pending(trace, i, k) == Pending(trace, i, k - 1);
        if m.Read? && m.ev.Notification? {
          assert Pending(trace, k - 1, k);
        } else if n.Some? {
          var i :| 0 <= i < k - 1 && Pending(trace, i, k - 1) && trace[i].at == n.value;
          assert Pending(trace, i, k);
        }
      }
    }
  }

  lemma QuietIsQuiet(trace: seq<Moment>, k: nat)
    requires k < |trace| && Clocked(trace)
    ensures QuietNow(After(trace[..k]), trace[k].at) <==> Quiet(trace, k)
  {
    AnswerHeld(trace, k);
    TasksHeld(trace, k);
    NotificationHeld(trace, k);
  }

  lemma QuietFromOneMore(trace: seq<Moment>, q: nat, k: nat)
    requires q < k < |trace|
    ensures QuietFrom(trace, q, k + 1) <==> QuietFrom(trace, q, k) && (trace[k].Check? ==> Quiet(trace, k))
  {
    hide Quiet;
  }

  /** `s` is when the unbroken row of quiet checks up to `k` began, None when the last check was not quiet. */
  ghost predicate RowBegan(trace: seq<Moment>, k: nat, s: Option<int>)
    requires k <= |trace|
  {
    && (s.None? ==> forall q :: 0 <= q < k ==> !QuietFrom(trace, q, k))
    && (s.Some? ==> exists q :: 0 <= q < k && QuietFrom(trace, q, k) && trace[q].at == s.value)
    && (s.Some? ==> forall q :: 0 <= q < k && QuietFrom(trace, q, k) ==> trace[q].at >= s.value)
  }

  lemma RowGoesOn(trace: seq<Moment>, k: nat, n: nat, s: Option<int>)
    requires k + 1 == n <= |trace| && Clocked(trace) && RowBegan(trace, k, s)
    ensures !trace[k].Check? ==> RowBegan(trace, n, s)
    ensures trace[k].Check? && Quiet(trace, k) ==> RowBegan(trace, n, if s.Some? then s else Some(trace[k].at))
    ensures trace[k].Check? && !Quiet(trace, k) ==> RowBegan(trace, n, None)
  {
    hide Quiet;
    forall q | 0 <= q < k
      ensures QuietFrom(trace, q, n) <==> QuietFrom(trace, q, k) && (trace[k].Check? ==> Quiet(trace, k))
    {
      QuietFromOneMore(trace, q, k);
    }
    QuietFromItself(trace, k);
    if s.Some? && (trace[k].Check? ==> Quiet(trace, k)) {
      var q :| 0 <= q < k && QuietFrom(trace, q, k) && trace[q].at == s.value;
      assert QuietFrom(trace, q, n);
    }
  }

  lemma QuietFromItself(trace: seq<Moment>, k: nat)
    requires k < |trace|
    ensures QuietFrom(trace, k, k + 1) <==> trace[k].Check? && Quiet(trace, k)
  {
    hide Quiet;
  }

  lemma {:induction false} QuietSinceHeld(trace: seq<Moment>, k: nat)
    requires k <= |trace| && Clocked(trace)
    ensures RowBegan(trace, k, After(trace[..k]).quietSince)
  {
    hide Quiet, QuietNow;
    if k > 0 {
      hide RowBegan;
      QuietSinceHeld(trace, k - 1);
      assert trace[..k][..k - 1] == trace[..k - 1];
      QuietIsQuiet(trace, k - 1);
      RowGoesOn(trace, k - 1, k, After(trace[..k - 1]).quietSince);
    }
  }

  /**
   * Closing stdin is justified by the trace, and never put off beyond it: a check at `k` says close
   * exactly when the turn is quiet (answered since the last delivery with no work since, no tasks, no
   * fresh notification) and so was every check back to one at least the grace time ago.
   */
  lemma ClosesExactlyWhenQuietLongEnough(trace: seq<Moment>, k: nat)
    requires k < |trace| && trace[k].Check? && Clocked(trace)
    ensures IdleNow(After(trace[..k]), trace[k].at)
       <==> exists q :: 0 <= q <= k && trace[k].at - trace[q].at >= IDLE_GRACE_MS && QuietFrom(trace, q, k + 1)
  {
    hide Quiet, QuietNow;
    var t := After(trace[..k]);
    QuietIsQuiet(trace, k);
    QuietSinceHeld(trace, k + 1);
    assert trace[..k + 1][..k] == trace[..k];
    assert After(trace[..k + 1]) == AfterCheck(t, trace[k].at);
    if IdleNow(t, trace[k].at) {
      var q :| 0 <= q < k + 1 && QuietFrom(trace, q, k + 1) && trace[q].at == AfterCheck(t, trace[k].at).quietSince.value;
    }
    if q :| 0 <= q <= k && trace[k].at - trace[q].at >= IDLE_GRACE_MS && QuietFrom(trace, q, k + 1) {
      assert Quiet(trace, k);
    }
  }

  // ---- The tracker as the wrapper has it ----

  function ReadAll(t: Tracker, events: seq<LogEvent>, at: int): Tracker
    decreases |events|
  {
    if events == [] then t else ReadAll(AfterRead(t, events[0], at), events[1..], at)
  }

  function Events(kind: string -> LogEvent, lines: seq<string>): (events: seq<LogEvent>)
    ensures |events| == |lines|
  {
    seq(|lines|, i requires 0 <= i < |lines| => kind(lines[i]))
  }

  /** A trace with its last moment apart. */
  lemma OneMoment(trace: seq<Moment>, m: Moment)
    ensures After(trace + [m]) == AfterMoment(After(trace), m)
  {
    assert (trace + [m])[..|trace|] == trace;
  }

  /** The moments of a read: its lines in the log's order. */
  function Reads(events: seq<LogEvent>, at: int): (ms: seq<Moment>)
    ensures |ms| == |events| && forall i :: 0 <= i < |ms| ==> ms[i] == Read(events[i], at)
  {
    seq(|events|, i requires 0 <= i < |events| => Read(events[i], at))
  }

  /** Reading lines one after the other is what the trace says of them in that order. */
  lemma {:induction false} ReadAllIsTrace(trace: seq<Moment>, events: seq<LogEvent>, at: int)
    ensures ReadAll(After(trace), events, at) == After(trace + Reads(events, at))
    decreases |events|
  {
    if events == [] {
      assert trace + Reads(events, at) == trace;
    } else {
      var m := Read(events[0], at);
      OneMoment(trace, m);
      ReadAllIsTrace(trace + [m], events[1..], at);
      assert trace + [m] + Reads(events[1..], at) == trace + Reads(events, at);
    }
  }

  /** The last moment is a check, made while the turn was quiet, and so was every check back to one the grace time ago. */
  ghost predicate ClosesNow(trace: seq<Moment>) {
    var k := |trace| - 1;
    k >= 0 && exists q :: 0 <= q <= k && trace[k].at - trace[q].at >= IDLE_GRACE_MS && QuietFrom(trace, q, k + 1)
  }

  lemma ClosesAtTheEnd(trace: seq<Moment>, at: int)
    ensures Clocked(trace + [Check(at)]) ==> (IdleNow(After(trace), at) <==> ClosesNow(trace + [Check(at)]))
  {
    var t := trace + [Check(at)];
    if Clocked(t) {
      ClosesExactlyWhenQuietLongEnough(t, |trace|);
      assert t[..|trace|] == trace;
    }
  }

  /** `createLiveTracker`. `kind` reads a line as JSON; what is not a whole event is `Other`. */
  class LogTracker {
    var carry: string
    var answered: bool
    var tasks: nat
    var notifiedAt: Option<int>
    var quietSince: Option<int>
    ghost var trace: seq<Moment>

    /** The fields say what the trace says. */
    ghost predicate Valid()
      reads this
    {
      State() == After(trace)
    }

    ghost function State(): Tracker
      reads this
    {
      Tracker(answered, tasks, notifiedAt, quietSince)
    }

    constructor ()
      ensures Valid() && trace == [] && State() == NEW && carry == ""
    {
      carry, answered, tasks, notifiedAt, quietSince := "", false, 0, None, None;
      trace := [];
    }

    /** The lines a chunk completes are read in the log's order. */
    method Feed(kind: string -> LogEvent, chunk: string, now: int)
      requires Valid()
      modifies this
      ensures Valid() && trace == old(trace) + Reads(Events(kind, Split(old(carry) + chunk, '\n').pieces), now)
      ensures carry == Split(old(carry) + chunk, '\n').rest
      ensures State() == ReadAll(old(State()), Events(kind, Split(old(carry) + chunk, '\n').pieces), now)
    {
      var cut := Split(carry + chunk, '\n');
      carry := cut.rest;
      var lines := cut.pieces;
      ghost var all := Events(kind, lines);
      var i := 0;
      while i < |lines|
        invariant 0 <= i <= |lines| && carry == cut.rest && trace == old(trace)
        invariant ReadAll(old(State()), all, now) == ReadAll(State(), all[i..], now)
      {
        match kind(lines[i]) {
          case Result => answered := true; notifiedAt := None;
          case Work => answered := false; notifiedAt := None;
          case Notification => notifiedAt := Some(now);
          case Tasks(n) => tasks := n;
          case Other =>
        }
        i := i + 1;
        assert all[i - 1..][1..] == all[i..];
      }
      ReadAllIsTrace(trace, all, now);
      trace := trace + Reads(all, now);
    }

    method Delivered(ghost now: int)
      requires Valid()
      modifies this`answered, this`trace
      ensures Valid() && trace == old(trace) + [Delivery(now)]
      ensures State() == AfterMoment(old(State()), Delivery(now))
    {
      OneMoment(trace, Delivery(now));
      answered := false;
      trace := trace + [Delivery(now)];
    }

    /** Says to close exactly when the trace does, the clock not running backwards. */
    method Idle(now: int) returns (idle: bool)
      requires Valid()
      modifies this`quietSince, this`trace
      ensures Valid() && trace == old(trace) + [Check(now)]
      ensures Clocked(trace) ==> (idle <==> ClosesNow(trace))
      ensures State() == AfterCheck(old(State()), now)
      ensures idle == IdleNow(old(State()), now)
    {
      OneMoment(trace, Check(now));
      ClosesAtTheEnd(trace, now);
      trace := trace + [Check(now)];
      hide ClosesNow, Clocked, After;
      var quiet := answered && tasks == 0 && (notifiedAt.None? || now - notifiedAt.value >= WAKE_MS);
      if !quiet {
        quietSince := None;
        return false;
      }
      if quietSince.None? {
        quietSince := Some(now);
      }
      return now - quietSince.value >= IDLE_GRACE_MS;
    }
  }
}
