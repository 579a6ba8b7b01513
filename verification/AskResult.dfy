/** `turnResult`: which of a finished turn's log lines answers the ask the turn is reported to. */
module AskResult {
  import opened Common

  /** A parsed log line: Claude's result, Claude taking a message in, an error of the runner's, or another. */
  datatype Event = Result(reply: string) | Replay(text: string) | RunnerError(message: string) | Other

  /** Claude's result line, or that the turn stopped before one: `taken` if the follow-up had gone in. */
  datatype Answer = Claude(line: nat) | Stopped(taken: bool, error: Option<string>)

  predicate TakenAt(events: seq<Event>, after: Option<string>, i: nat)
    requires i < |events|
  {
    after.Some? && events[i] == Replay(after.value)
  }

  /** The result stands after every point where Claude took the follow-up in. */
  predicate Counts(events: seq<Event>, after: Option<string>, i: nat)
    requires i < |events|
  {
    events[i].Result? && forall j :: i < j < |events| ==> !TakenAt(events, after, j)
  }

  /**
   * What may be told to an ask with the text `own`: the log's last result, if every place where Claude took
   * that text in comes before it; that the turn stopped, if each result has such a place behind it.
   */
  ghost predicate Fits(events: seq<Event>, own: Option<string>, answer: Answer) {
    match answer
    case Claude(line) =>
      && line < |events| && events[line].Result? && (forall i :: line < i < |events| ==> !events[i].Result?)
      && forall i :: 0 <= i < |events| && own.Some? && events[i] == Replay(own.value) ==> i < line
    case Stopped(taken, _) =>
      && (taken <==> own.Some? && exists i :: 0 <= i < |events| && events[i] == Replay(own.value))
      && forall i :: 0 <= i < |events| && events[i].Result? ==> own.Some? && exists j :: i < j < |events| && events[j] == Replay(own.value)
  }

  function LastError(events: seq<Event>): (r: Option<string>)
    ensures r.None? ==> forall i :: 0 <= i < |events| ==> !events[i].RunnerError?
    ensures r.Some? ==> exists i :: 0 <= i < |events| && events[i] == RunnerError(r.value) && forall j :: i < j < |events| ==> !events[j].RunnerError?
  {
    if events == [] then None
    else
      var last := events[|events| - 1];
      if last.RunnerError? then Some(last.message) else LastError(events[..|events| - 1])
  }

  lemma LastResultFits(events: seq<Event>, after: Option<string>, line: nat)
    requires line < |events| && Counts(events, after, line) && forall i :: line < i < |events| ==> !events[i].Result?
    ensures Fits(events, after, Claude(line))
  {
    forall i | 0 <= i < |events| && after.Some? && events[i] == Replay(after.value)
      ensures i < line
    {
      assert TakenAt(events, after, i);
    }
  }

  lemma StoppedFits(events: seq<Event>, after: Option<string>, taken: bool, error: Option<string>)
    requires forall i :: 0 <= i < |events| ==> !Counts(events, after, i)
    requires taken <==> exists i :: 0 <= i < |events| && TakenAt(events, after, i)
    ensures Fits(events, after, Stopped(taken, error))
  {
    if i :| 0 <= i < |events| && after.Some? && events[i] == Replay(after.value) {
      assert TakenAt(events, after, i);
    }
    forall i | 0 <= i < |events| && events[i].Result?
      ensures after.Some? && exists j :: i < j < |events| && events[j] == Replay(after.value)
    {
      assert !Counts(events, after, i);
    }
  }

  /** The line just past the last place where Claude took `after` in. */
  method TakenIn(events: seq<Event>, after: Option<string>) returns (from: nat, taken: bool)
    ensures from <= |events| && (taken <==> exists i :: 0 <= i < |events| && TakenAt(events, after, i))
    ensures if taken then from > 0 && TakenAt(events, after, from - 1) else from == 0
    ensures forall i :: from <= i < |events| ==> !TakenAt(events, after, i)
  {
    from, taken := 0, false;
    if after.Some? {
      var i := |events|;
      while i > 0
        invariant 0 <= i <= |events|
        invariant forall j :: i <= j < |events| ==> !TakenAt(events, after, j)
      {
        if events[i - 1] == Replay(after.value) {
          assert TakenAt(events, after, i - 1);
          return i, true;
        }
        i := i - 1;
      }
    }
  }

  /**
   * The answer is the last result, and it counts: Claude gave it after taking the follow-up in. With no
   * such result the turn stopped, and the last runner error is told with it.
   */
  method TurnResult(events: seq<Event>, after: Option<string>) returns (answer: Answer)
    ensures Fits(events, after, answer)
    ensures answer.Claude? ==> answer.line < |events| && Counts(events, after, answer.line)
    ensures answer.Claude? ==> forall i :: answer.line < i < |events| ==> !events[i].Result?
    ensures answer.Stopped? ==> forall i :: 0 <= i < |events| ==> !Counts(events, after, i)
    ensures answer.Stopped? ==> (answer.taken <==> exists i :: 0 <= i < |events| && TakenAt(events, after, i))
    ensures answer.Stopped? ==> answer.error == LastError(events)
  {
    var from, taken := TakenIn(events, after);
    var result: Option<nat>, error: Option<string> := None, None;
    var i := 0;
    while i < |events|
      invariant 0 <= i <= |events|
      invariant result.Some? ==> from <= result.value < i && events[result.value].Result?
      invariant forall j :: (if result.Some? then result.value + 1 else from) <= j < i ==> !events[j].Result?
      invariant error == LastError(events[..i])
    {
      assert events[..i + 1][..i] == events[..i];
      match events[i] {
        case Result(_) => if i >= from { result := Some(i); }
        case RunnerError(message) => error := Some(message);
        case _ =>
      }
      i := i + 1;
    }
    assert events[..i] == events;
    if result.Some? {
      LastResultFits(events, after, result.value);
      return Claude(result.value);
    }
    assert forall i :: 0 <= i < |events| ==> !Counts(events, after, i);
    StoppedFits(events, after, taken, error);
    return Stopped(taken, error);
  }
}
