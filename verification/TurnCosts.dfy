/**
 * What each turn cost. Claude reports what its session has cost so far; the runner keeps that total with
 * each turn and takes the turn's own cost again from the totals whenever it reads them. Costs are in
 * fixed-point units, where the source rounds a difference of doubles to its tenth decimal place.
 */
module TurnCosts {
  import opened Common

  const TURN_RECORDS_MAX := 2000

  /** A record as it stands in the file: an old one has no `sessionCost` and keeps the session's total in `cost`. */
  datatype Raw = Raw(turnId: string, session: Option<string>, hasSessionCost: bool, sessionCost: Option<int>, cost: Option<int>)

  datatype Record = Record(turnId: string, session: Option<string>, cost: Option<int>, total: Option<int>)

  function TurnCost(total: Option<int>, previous: Option<int>): Option<int> {
    if total.None? then None
    else if previous.None? || total.value < previous.value then total
    else Some(total.value - previous.value)
  }

  function TotalOf(r: Raw): Option<int> {
    if r.hasSessionCost then r.sessionCost else r.cost
  }

  /** A session's last total among some records. */
  function LastTotal(file: seq<Raw>, session: string): Option<int> {
    if file == [] then None
    else
      var r := file[|file| - 1];
      if r.session == Some(session) && TotalOf(r).Some? then TotalOf(r) else LastTotal(file[..|file| - 1], session)
  }

  /** A record with its cost taken from the records before it; one with no session has none to take from. */
  function RecordOf(before: seq<Raw>, r: Raw): Record {
    var previous := if r.session.Some? then LastTotal(before, r.session.value) else None;
    Record(r.turnId, r.session, TurnCost(TotalOf(r), previous), TotalOf(r))
  }

  function Recost(file: seq<Raw>): (out: seq<Record>)
    ensures |out| == |file|
  {
    if file == [] then []
    else Recost(file[..|file| - 1]) + [RecordOf(file[..|file| - 1], file[|file| - 1])]
  }

  lemma RecostOne(file: seq<Raw>, r: Raw)
    ensures Recost(file + [r]) == Recost(file) + [RecordOf(file, r)]
    ensures forall s :: LastTotal(file + [r], s) == if r.session == Some(s) && TotalOf(r).Some? then TotalOf(r) else LastTotal(file, s)
  {
    assert (file + [r])[..|file|] == file;
  }

  /** A record read back keeps its turn, session and total: the session's total so far, which an old record has as its cost. */
  lemma {:induction false} RecostKeepsTotals(file: seq<Raw>, k: nat)
    requires k < |file|
    ensures var r, raw := Recost(file)[k], file[k];
      r.turnId == raw.turnId && r.session == raw.session && r.total == if raw.hasSessionCost then raw.sessionCost else raw.cost
  {
    if k < |file| - 1 { RecostKeepsTotals(file[..|file| - 1], k); }
  }

  function Newest<T>(s: seq<T>, max: nat): seq<T> {
    if |s| <= max then s else s[|s| - max..]
  }

  /** The records of a file's lines; a line that is no record is skipped. */
  function Records(lines: seq<Option<Raw>>): seq<Raw> {
    if lines == [] then []
    else if lines[|lines| - 1].None? then Records(lines[..|lines| - 1])
    else Records(lines[..|lines| - 1]) + [lines[|lines| - 1].value]
  }

  lemma RecordsOne(lines: seq<Option<Raw>>, i: nat)
    requires i < |lines|
    ensures Records(lines[..i + 1]) == if lines[i].None? then Records(lines[..i]) else Records(lines[..i]) + [lines[i].value]
  {
    assert lines[..i + 1][..i] == lines[..i];
  }

  function Kept(totals: map<string, int>, session: string): Option<int> {
    if session in totals then Some(totals[session]) else None
  }

  /** The map holds each session's last total. */
  ghost predicate Tracks(totals: map<string, int>, file: seq<Raw>) {
    forall s :: Kept(totals, s) == LastTotal(file, s)
  }

  lemma TracksOne(totals: map<string, int>, file: seq<Raw>, r: Raw)
    requires Tracks(totals, file)
    ensures var previous := if r.session.Some? then Kept(totals, r.session.value) else None;
      Recost(file + [r]) == Recost(file) + [Record(r.turnId, r.session, TurnCost(TotalOf(r), previous), TotalOf(r))]
    ensures Tracks(if r.session.Some? && TotalOf(r).Some? then totals[r.session.value := TotalOf(r).value] else totals, file + [r])
  {
    RecostOne(file, r);
    hide LastTotal, Recost;
  }

  method ParseTurnRecords(lines: seq<Option<Raw>>, max: nat) returns (out: seq<Record>)
    ensures out == Newest(Recost(Records(lines)), max)
  {
    out := [];
    var totals: map<string, int> := map[];
    var i := 0;
    while i < |lines|
      invariant 0 <= i <= |lines| && out == Recost(Records(lines[..i])) && Tracks(totals, Records(lines[..i]))
    {
      RecordsOne(lines, i);
      hide Tracks, Recost, Records;
      if lines[i].Some? {
        var r := lines[i].value;
        TracksOne(totals, Records(lines[..i]), r);
        var total, previous := TotalOf(r), if r.session.Some? then Kept(totals, r.session.value) else None;
        if r.session.Some? && total.Some? { totals := totals[r.session.value := total.value]; }
        out := out + [Record(r.turnId, r.session, TurnCost(total, previous), total)];
      }
      i := i + 1;
    }
    assert lines[..i] == lines;
    out := if |out| <= max then out else out[|out| - max..];
  }

  // ---- The costs add up ----

  /** A session's totals, in order. */
  function Totals(file: seq<Raw>, session: string): seq<int> {
    if file == [] then []
    else
      var r := file[|file| - 1];
      var before := Totals(file[..|file| - 1], session);
      if r.session == Some(session) && TotalOf(r).Some? then before + [TotalOf(r).value] else before
  }

  function SumCosts(records: seq<Record>, session: string): int {
    if records == [] then 0
    else
      var r := records[|records| - 1];
      SumCosts(records[..|records| - 1], session) + if r.session == Some(session) && r.cost.Some? then r.cost.value else 0
  }

  /** Each run of totals that does not fall counts with its last one: the counter started again after it. */
  function BlockSum(totals: seq<int>): int {
    if totals == [] then 0
    else if |totals| == 1 then totals[0]
    else
      var last, before := totals[|totals| - 1], totals[|totals| - 2];
      BlockSum(totals[..|totals| - 1]) + last - if last < before then 0 else before
  }

  /** Where a run of totals ends: at the end, or before a fall. */
  predicate EndsRun(totals: seq<int>, i: nat)
    requires i < |totals|
  {
    i == |totals| - 1 || totals[i + 1] < totals[i]
  }

  function SumOfEnds(totals: seq<int>, upTo: nat): int
    requires upTo <= |totals|
  {
    if upTo == 0 then 0 else SumOfEnds(totals, upTo - 1) + if EndsRun(totals, upTo - 1) then totals[upTo - 1] else 0
  }

  lemma {:induction false} EndsBefore(totals: seq<int>, last: int, upTo: nat)
    requires upTo < |totals|
    ensures SumOfEnds(totals + [last], upTo) == SumOfEnds(totals, upTo)
  {
    if upTo > 0 {
      EndsBefore(totals, last, upTo - 1);
      assert (totals + [last])[upTo] == totals[upTo] && (totals + [last])[upTo - 1] == totals[upTo - 1];
    }
  }

  /** `BlockSum` is the sum of the last totals of the runs. */
  lemma {:induction false} BlockSumIsEnds(totals: seq<int>)
    ensures BlockSum(totals) == SumOfEnds(totals, |totals|)
  {
    if |totals| > 1 {
      var init, n := totals[..|totals| - 1], |totals| - 1;
      BlockSumIsEnds(init);
      assert totals == init + [totals[n]];
      EndsBefore(init, totals[n], n - 1);
      assert SumOfEnds(totals, n) == SumOfEnds(totals, n - 1) + if totals[n] < totals[n - 1] then totals[n - 1] else 0;
    } else if |totals| == 1 {
      assert SumOfEnds(totals, 0) == 0;
    }
  }

  lemma {:induction false} LastOfTotals(file: seq<Raw>, session: string)
    ensures LastTotal(file, session) == var t := Totals(file, session); if t == [] then None else Some(t[|t| - 1])
  {
    if file != [] { LastOfTotals(file[..|file| - 1], session); }
  }

  /**
   * However sessions interleave, a session's costs add up to the last totals of its runs: to its last
   * total when its totals never fall, and past each restart of the counter to one more total.
   */
  lemma {:induction false} CostsAddUp(file: seq<Raw>, session: string)
    ensures SumCosts(Recost(file), session) == SumOfEnds(Totals(file, session), |Totals(file, session)|)
  {
    BlockSumIsEnds(Totals(file, session));
    CostsAreBlocks(file, session);
  }

  lemma {:induction false} CostsAreBlocks(file: seq<Raw>, session: string)
    ensures SumCosts(Recost(file), session) == BlockSum(Totals(file, session))
  {
    if file != [] {
      var before, r := file[..|file| - 1], file[|file| - 1];
      CostsAreBlocks(before, session);
      LastOfTotals(before, session);
      var t := Totals(before, session);
      assert file == before + [r];
      RecostOne(before, r);
      SumOne(Recost(before), RecordOf(before, r), session);
      hide Recost, SumCosts, LastTotal;
      if r.session == Some(session) && TotalOf(r).Some? {
        BlockOne(t, TotalOf(r).value);
        assert Totals(file, session) == t + [TotalOf(r).value];
      }
    }
  }

  lemma SumOne(records: seq<Record>, r: Record, session: string)
    ensures SumCosts(records + [r], session) == SumCosts(records, session) + if r.session == Some(session) && r.cost.Some? then r.cost.value else 0
  {
    assert (records + [r])[..|records|] == records;
  }

  lemma BlockOne(t: seq<int>, x: int)
    ensures BlockSum(t + [x]) == BlockSum(t) + TurnCost(Some(x), if t == [] then None else Some(t[|t| - 1])).value
  {
    assert (t + [x])[..|t|] == t;
  }

  lemma {:induction false} RisingIsLast(totals: seq<int>)
    requires totals != [] && forall i, j :: 0 <= i <= j < |totals| ==> totals[i] <= totals[j]
    ensures BlockSum(totals) == totals[|totals| - 1]
  {
    if |totals| > 1 { RisingIsLast(totals[..|totals| - 1]); }
  }

  lemma RisingCostsAddUp(file: seq<Raw>, session: string)
    requires var t := Totals(file, session); t != [] && forall i, j :: 0 <= i <= j < |t| ==> t[i] <= t[j]
    ensures Some(SumCosts(Recost(file), session)) == LastTotal(file, session)
  {
    CostsAreBlocks(file, session);
    RisingIsLast(Totals(file, session));
    LastOfTotals(file, session);
  }

  // ---- The cost stored at a turn's end ----

  /** The session's last total among the records before the turn's own. */
  function TotalBefore(records: seq<Record>, session: string, turnId: string): Option<int> {
    if records == [] then None
    else
      var before, r := records[..|records| - 1], records[|records| - 1];
      if exists i :: 0 <= i < |before| && before[i].turnId == turnId then TotalBefore(before, session, turnId)
      else if r.turnId != turnId && r.session == Some(session) && r.total.Some? then r.total
      else TotalBefore(before, session, turnId)
  }

  method SessionTotalBefore(records: seq<Record>, session: Option<string>, turnId: string) returns (total: Option<int>)
    ensures total == if session.None? then None else TotalBefore(records, session.value, turnId)
  {
    total := None;
    if session.None? { return; }
    var i := 0;
    while i < |records|
      invariant 0 <= i <= |records| && total == TotalBefore(records[..i], session.value, turnId)
      invariant forall j :: 0 <= j < i ==> records[j].turnId != turnId
    {
      var r := records[i];
      assert records[..i + 1][..i] == records[..i];
      if r.turnId == turnId {
        PastTheTurn(records, i, session.value, turnId);
        return;
      }
      if r.session == session && r.total.Some? { total := r.total; }
      i := i + 1;
    }
    assert records[..i] == records;
  }

  lemma {:induction false} PastTheTurn(records: seq<Record>, i: nat, session: string, turnId: string)
    requires i < |records| && records[i].turnId == turnId && forall j :: 0 <= j < i ==> records[j].turnId != turnId
    ensures TotalBefore(records, session, turnId) == TotalBefore(records[..i], session, turnId)
    decreases |records|
  {
    var before := records[..|records| - 1];
    if i < |before| {
      PastTheTurn(before, i, session, turnId);
      assert before[i].turnId == turnId && before[..i] == records[..i];
    } else {
      assert before == records[..i];
    }
  }

  /** The record a turn's end adds, its cost as it stores it. */
  function Ended(file: seq<Raw>, turnId: string, session: Option<string>, total: Option<int>): Raw {
    var kept := Newest(Recost(file), TURN_RECORDS_MAX);
    var previous := if session.None? then None else TotalBefore(kept, session.value, turnId);
    Raw(turnId, session, true, total, TurnCost(total, previous))
  }

  /** A turn already recorded is not recorded again. */
  function AppendTurn(file: seq<Raw>, r: Raw): seq<Raw> {
    var kept := Newest(Recost(file), TURN_RECORDS_MAX);
    if exists i :: 0 <= i < |kept| && kept[i].turnId == r.turnId then file else file + [r]
  }

  lemma NewestOne<T>(s: seq<T>, x: T, max: nat)
    requires max > 0
    ensures Newest(s + [x], max) == Newest(s, max - 1) + [x]
  {
  }

  lemma BeforeOne(records: seq<Record>, r: Record, session: string, turnId: string)
    requires r.turnId != turnId && forall i :: 0 <= i < |records| ==> records[i].turnId != turnId
    ensures TotalBefore(records + [r], session, turnId) == if r.session == Some(session) && r.total.Some? then r.total else TotalBefore(records, session, turnId)
  {
    assert (records + [r])[..|records|] == records;
  }

  lemma {:induction false} KeptTotal(file: seq<Raw>, session: string, turnId: string, max: nat)
    requires var kept := Newest(Recost(file), max); forall i :: 0 <= i < |kept| ==> kept[i].turnId != turnId
    ensures TotalBefore(Newest(Recost(file), max), session, turnId) == LastTotal(Newest(file, max), session)
    decreases |file|
  {
    if file != [] && max > 0 {
      var before, r := file[..|file| - 1], file[|file| - 1];
      assert file == before + [r];
      RecostOne(before, r);
      NewestOne(Recost(before), RecordOf(before, r), max);
      NewestOne(before, r, max);
      hide Recost;
      var less, kept := Newest(Recost(before), max - 1), Newest(Recost(file), max);
      assert kept == less + [RecordOf(before, r)] && kept[|less|].turnId == r.turnId;
      assert forall i :: 0 <= i < |less| ==> less[i] == kept[i];
      KeptTotal(before, session, turnId, max - 1);
      BeforeOne(less, RecordOf(before, r), session, turnId);
      hide Newest, TotalBefore;
      LastOne(Newest(before, max - 1), r, session);
    }
  }

  lemma LastOne(file: seq<Raw>, r: Raw, session: string)
    ensures LastTotal(file + [r], session) == if r.session == Some(session) && TotalOf(r).Some? then TotalOf(r) else LastTotal(file, session)
  {
    assert (file + [r])[..|file|] == file;
  }

  lemma {:induction false} LastInWindow(file: seq<Raw>, session: string, max: nat)
    ensures LastTotal(Newest(file, max), session).Some? ==> LastTotal(Newest(file, max), session) == LastTotal(file, session)
  {
    if file != [] && max > 0 {
      var before, r := file[..|file| - 1], file[|file| - 1];
      assert file == before + [r];
      NewestOne(before, r, max);
      LastOne(Newest(before, max - 1), r, session);
      LastInWindow(before, session, max - 1);
    }
  }

  /**
   * The cost stored at a turn's end is the one read back, exactly unless the session's last total before it
   * is past the kept records, is not zero, and the new total is not below it.
   */
  lemma StoredIsReadIff(file: seq<Raw>, turnId: string, session: string, total: int)
    requires var kept := Newest(Recost(file), TURN_RECORDS_MAX); forall i :: 0 <= i < |kept| ==> kept[i].turnId != turnId
    ensures var r := Ended(file, turnId, Some(session), Some(total));
      var read := Recost(AppendTurn(file, r));
      && AppendTurn(file, r) == file + [r] && read[..|file|] == Recost(file)
      && (read[|file|].cost == r.cost <==>
            !(LastTotal(file, session).Some? && LastTotal(Newest(file, TURN_RECORDS_MAX), session).None?
              && LastTotal(file, session).value != 0 && LastTotal(file, session).value <= total))
  {
    var r := Ended(file, turnId, Some(session), Some(total));
    KeptTotal(file, session, turnId, TURN_RECORDS_MAX);
    LastInWindow(file, session, TURN_RECORDS_MAX);
    RecostOne(file, r);
    hide Recost, TotalBefore, LastTotal;
    assert r.cost == TurnCost(Some(total), LastTotal(Newest(file, TURN_RECORDS_MAX), session));
    assert AppendTurn(file, r) == file + [r];
    hide Newest, Ended, AppendTurn;
    assert RecordOf(file, r).cost == TurnCost(Some(total), LastTotal(file, session));
  }

  /** A turn of no session, or with no total, is stored as it is read. */
  lemma PlainIsRead(file: seq<Raw>, turnId: string, session: Option<string>, total: Option<int>)
    requires var kept := Newest(Recost(file), TURN_RECORDS_MAX); forall i :: 0 <= i < |kept| ==> kept[i].turnId != turnId
    requires session.None? || total.None?
    ensures var r := Ended(file, turnId, session, total); Recost(AppendTurn(file, r))[|file|].cost == r.cost == total
  {
    var r := Ended(file, turnId, session, total);
    RecostOne(file, r);
  }

  /** A turn's end as the runner records it. */
  datatype End = End(turnId: string, session: Option<string>, total: Option<int>)

  function FileOf(ends: seq<End>): (file: seq<Raw>)
    ensures |file| <= |ends|
  {
    if ends == [] then []
    else
      var file, e := FileOf(ends[..|ends| - 1]), ends[|ends| - 1];
      AppendTurn(file, Ended(file, e.turnId, e.session, e.total))
  }

  /** While a chat's turns all fit the kept records, every cost stored at a turn's end is the one read back. */
  lemma {:induction false} StoredAreRead(ends: seq<End>)
    requires |ends| <= TURN_RECORDS_MAX
    ensures forall i :: 0 <= i < |FileOf(ends)| ==> Recost(FileOf(ends))[i].cost == FileOf(ends)[i].cost
  {
    if ends != [] {
      var init, e := ends[..|ends| - 1], ends[|ends| - 1];
      var file := FileOf(init);
      var r := Ended(file, e.turnId, e.session, e.total);
      StoredAreRead(init);
      var kept := Newest(Recost(file), TURN_RECORDS_MAX);
      if forall i :: 0 <= i < |kept| ==> kept[i].turnId != e.turnId {
        assert FileOf(ends) == file + [r];
        RecostOne(file, r);
        if e.session.Some? { KeptTotal(file, e.session.value, e.turnId, TURN_RECORDS_MAX); }
        hide Recost, LastTotal, TotalBefore, FileOf;
      }
    }
  }
}
