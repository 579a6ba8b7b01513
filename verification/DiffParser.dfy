/**
 * `parseDiff`: the `-z` output of `git diff --numstat` and `git diff --name-status` for one range, joined
 * into files. Both are read as lists of NUL-ended pieces.
 */
module DiffParser {
  import opened Common
  import opened Splitting
  import Framing

  /** Lines added and deleted; none for a binary file, or one numstat does not name. */
  datatype Count = Count(additions: Option<nat>, deletions: Option<nat>)

  datatype File = File(path: string, from: Option<string>, status: char, count: Count)

  // ---- Numbers ----

  predicate IsDigits(s: string) {
    s != [] && forall i :: 0 <= i < |s| ==> '0' <= s[i] <= '9'
  }

  function Number(s: string): nat
    requires forall i :: 0 <= i < |s| ==> '0' <= s[i] <= '9'
  {
    if s == [] then 0 else 10 * Number(s[..|s| - 1]) + (s[|s| - 1] as int - '0' as int)
  }

  function Digits(n: nat): (s: string)
    ensures IsDigits(s)
  {
    (if n < 10 then [] else Digits(n / 10)) + [(n % 10 + '0' as int) as char]
  }

  lemma {:induction false} NumberOfDigits(n: nat)
    ensures Number(Digits(n)) == n
  {
    var s := Digits(n);
    var c := (n % 10 + '0' as int) as char;
    if n < 10 {
      assert s == [c] && s[..0] == [];
    } else {
      NumberOfDigits(n / 10);
      assert s[..|s| - 1] == Digits(n / 10) && s[|s| - 1] == c;
    }
  }

  // ---- Reading ----

  function TabAt(s: string): (at: nat)
    ensures at <= |s| && '\t' !in s[..at] && (at < |s| ==> s[at] == '\t')
  {
    if s == [] || s[0] == '\t' then 0
    else
      var at := 1 + TabAt(s[1..]);
      assert s[..at] == [s[0]] + s[1..][..at - 1];
      at
  }

  /** A line count: digits, or `-` for none; anything else is no count. */
  function ReadCount(s: string): Option<Option<nat>> {
    if s == "-" then Some(None) else if IsDigits(s) then Some(Some(Number(s))) else None
  }

  datatype NumLine = NumLine(count: Count, path: string)

  /** Two counts and a path, each count ended by a tab. */
  function ReadNumLine(s: string): Option<NumLine> {
    var i := TabAt(s);
    if i == |s| then None
    else
      var j := i + 1 + TabAt(s[i + 1..]);
      if j == |s| then None
      else
        var a, d := ReadCount(s[..i]), ReadCount(s[i + 1..j]);
        if a.None? || d.None? then None else Some(NumLine(Count(a.value, d.value), s[j + 1..]))
  }

  /** A dash for none, or digits, one at least. */
  ghost predicate IsCountText(s: string, n: Option<nat>) {
    if n.None? then s == "-"
    else s != "" && (forall i :: 0 <= i < |s| ==> s[i] in "0123456789") && n.value == Number(s)
  }

  lemma CountIsRead(s: string, n: Option<nat>)
    ensures ReadCount(s) == Some(n) <==> IsCountText(s, n)
  {
    assert forall c :: c in "0123456789" <==> '0' <= c <= '9';
  }

  function Drop(pieces: seq<string>, n: nat): seq<string> {
    if n <= |pieces| then pieces[n..] else []
  }

  /** A piece, or the empty text past the end. */
  function At(pieces: seq<string>, i: nat): string {
    if i < |pieces| then pieces[i] else ""
  }

  /** A rename's or a copy's entry has an empty path, then its old and its new path. */
  function Counts(ns: seq<string>, counts: map<string, Count>): map<string, Count>
    decreases |ns|
  {
    if ns == [] then counts
    else
      match ReadNumLine(ns[0])
      case None => Counts(ns[1..], counts)
      case Some(line) =>
        if line.path == "" then Counts(Drop(ns, 3), counts[At(ns, 2) := line.count])
        else Counts(ns[1..], counts[line.path := line.count])
  }

  predicate IsCode(s: string) {
    s != [] && s[0] in "ACDMRTUX" && forall i :: 0 < i < |s| ==> '0' <= s[i] <= '9'
  }

  predicate HasOldPath(letter: char) {
    letter == 'R' || letter == 'C'
  }

  function Found(counts: map<string, Count>, path: string): Count {
    if path in counts then counts[path] else Count(None, None)
  }

  function Files(st: seq<string>, counts: map<string, Count>): seq<File>
    decreases |st|
  {
    if st == [] then []
    else if !IsCode(st[0]) then Files(st[1..], counts)
    else
      var two := HasOldPath(st[0][0]);
      var path := At(st, if two then 2 else 1);
      var rest := Files(Drop(st, if two then 3 else 2), counts);
      if path == "" then rest
      else
        var from := if two && At(st, 1) != "" then Some(At(st, 1)) else None;
        [File(path, from, st[0][0], Found(counts, path))] + rest
  }

  /** A piece that is no status code, a letter git has and digits alone after it, names no file: the reading goes on behind it. */
  lemma OtherPieceIsSkipped(piece: string, st: seq<string>, counts: map<string, Count>)
    requires piece == "" || piece[0] !in "ACDMRTUX" || exists i :: 0 < i < |piece| && piece[i] !in "0123456789"
    ensures Files([piece] + st, counts) == Files(st, counts)
  {
    assert ([piece] + st)[1..] == st;
    assert forall c :: c in "0123456789" <==> '0' <= c <= '9';
  }

  function Pieces(text: string): seq<string> {
    Split(text, '\0').pieces + [Split(text, '\0').rest]
  }

  lemma DropMore(pieces: seq<string>, n: nat, k: nat)
    ensures Drop(Drop(pieces, n), k) == Drop(pieces, n + k)
    ensures At(Drop(pieces, n), k) == At(pieces, n + k)
  {
  }

  method ReadCounts(ns: seq<string>) returns (counts: map<string, Count>)
    ensures counts == Counts(ns, map[])
  {
    counts := map[];
    var i := 0;
    while i < |ns|
      invariant i >= 0 && Counts(Drop(ns, i), counts) == Counts(ns, map[])
    {
      DropMore(ns, i, 1);
      DropMore(ns, i, 2);
      DropMore(ns, i, 3);
      var line := ReadNumLine(ns[i]);
      if line.Some? {
        var p := line.value.path;
        if p == "" {
          p := At(ns, i + 2);
          i := i + 2;
        }
        counts := counts[p := line.value.count];
      }
      i := i + 1;
    }
  }

  method ReadFiles(st: seq<string>, counts: map<string, Count>) returns (files: seq<File>)
    ensures files == Files(st, counts)
  {
    files := [];
    var i := 0;
    assert Drop(st, 0) == st && [] + Files(st, counts) == Files(st, counts);
    hide Files, Drop, At, Found, IsCode, ReadTo;
    while i < |st|
      invariant i >= 0 && ReadTo(files, st, i, counts)
    {
      FilesGoOn(files, st, i, counts);
      CodeHasLetter(st[i]);
      var code := st[i];
      if IsCode(code) {
        var letter, from, p := code[0], "", At(st, i + 1);
        if HasOldPath(letter) {
          from, p := p, At(st, i + 2);
          i := i + 2;
        } else {
          i := i + 1;
        }
        if p != "" {
          files := files + [File(p, if from != "" then Some(from) else None, letter, Found(counts, p))];
        }
      }
      i := i + 1;
    }
    ReadOver(files, st, i, counts);
  }

  /** The files so far, and those of the pieces from `i` on, are all there are. */
  ghost predicate ReadTo(files: seq<File>, st: seq<string>, i: nat, counts: map<string, Count>) {
    files + Files(Drop(st, i), counts) == Files(st, counts)
  }

  lemma CodeHasLetter(code: string)
    ensures IsCode(code) ==> code != []
  {
  }

  lemma ReadOver(files: seq<File>, st: seq<string>, i: nat, counts: map<string, Count>)
    requires i >= |st| && ReadTo(files, st, i, counts)
    ensures files == Files(st, counts)
  {
    assert Drop(st, i) == [] && files + [] == files;
  }

  /** The files from a piece on: what the piece opens, then the rest. */
  lemma FilesFrom(st: seq<string>, i: nat, counts: map<string, Count>)
    requires i < |st|
    ensures var code, two := st[i], IsCode(st[i]) && HasOldPath(st[i][0]);
      var path, rest := At(st, if two then i + 2 else i + 1), Files(Drop(st, if two then i + 3 else i + 2), counts);
      Files(Drop(st, i), counts) ==
        if !IsCode(code) then Files(Drop(st, i + 1), counts)
        else if path == "" then rest
        else [File(path, if two && At(st, i + 1) != "" then Some(At(st, i + 1)) else None, code[0], Found(counts, path))] + rest
  {
    DropMore(st, i, 1);
    DropMore(st, i, 2);
    DropMore(st, i, 3);
    assert Drop(st, i)[0] == st[i] && Drop(st, i)[1..] == Drop(st, i + 1);
  }

  /** The files so far go on with what the piece opens, if anything, and the rest is read behind it. */
  lemma FilesGoOn(files: seq<File>, st: seq<string>, i: nat, counts: map<string, Count>)
    requires i < |st| && ReadTo(files, st, i, counts)
    ensures var code, two := st[i], IsCode(st[i]) && HasOldPath(st[i][0]);
      var path, next := At(st, if two then i + 2 else i + 1), if !IsCode(code) then i + 1 else if two then i + 3 else i + 2;
      var more := if !IsCode(code) || path == "" then files
                  else files + [File(path, if two && At(st, i + 1) != "" then Some(At(st, i + 1)) else None, code[0], Found(counts, path))];
      ReadTo(more, st, next, counts)
  {
    FilesFrom(st, i, counts);
    hide Files, Drop, At, Found;
    var code, two := st[i], IsCode(st[i]) && HasOldPath(st[i][0]);
    var path, rest := At(st, if two then i + 2 else i + 1), Files(Drop(st, if two then i + 3 else i + 2), counts);
    if IsCode(code) && path != "" {
      Framing.Regroup(files, [File(path, if two && At(st, i + 1) != "" then Some(At(st, i + 1)) else None, code[0], Found(counts, path))], rest);
    }
  }

  method ParseDiff(numstat: string, nameStatus: string) returns (files: seq<File>)
    ensures files == Files(Pieces(nameStatus), Counts(Pieces(numstat), map[]))
  {
    var ns := Framing.SplitText(numstat, '\0');
    var counts := ReadCounts(ns);
    var st := Framing.SplitText(nameStatus, '\0');
    files := ReadFiles(st, counts);
  }

  // ---- What git prints ----

  function PrintCount(c: Option<nat>): string {
    if c.None? then "-" else Digits(c.value)
  }

  function NumLineOf(f: File): string {
    PrintCount(f.count.additions) + "\t" + PrintCount(f.count.deletions) + "\t" + if f.from.None? then f.path else ""
  }

  function NumPieces(f: File): seq<string> {
    if f.from.None? then [NumLineOf(f)] else [NumLineOf(f), f.from.value, f.path]
  }

  /** `scores`: the similarity, in digits, git prints after a letter, if any. */
  function StatusPieces(f: File, score: string): seq<string> {
    if f.from.None? then [[f.status] + score, f.path] else [[f.status] + score, f.from.value, f.path]
  }

  function NumAll(files: seq<File>): seq<string> {
    if files == [] then [] else NumPieces(files[0]) + NumAll(files[1..])
  }

  function StatusAll(files: seq<File>, score: File -> string): seq<string> {
    if files == [] then [] else StatusPieces(files[0], score(files[0])) + StatusAll(files[1..], score)
  }

  predicate IsPath(s: string) {
    s != "" && '\0' !in s
  }

  predicate IsFile(f: File) {
    && IsPath(f.path) && f.status in "ACDMRTUX"
    && (f.from.Some? <==> f.status == 'R' || f.status == 'C') && (f.from.Some? ==> IsPath(f.from.value))
  }

  lemma CountReads(c: Option<nat>)
    ensures ReadCount(PrintCount(c)) == Some(c)
    ensures '\t' !in PrintCount(c) && '\0' !in PrintCount(c)
  {
    if c.Some? {
      var s := Digits(c.value);
      NumberOfDigits(c.value);
      assert IsDigits(s) && '0' <= s[0];
    }
  }

  lemma TabFound(a: string, b: string)
    requires '\t' !in a
    ensures TabAt(a + "\t" + b) == |a|
  {
    var s := a + "\t" + b;
    assert s[|a|] == '\t' && s[..|a|] == a;
  }

  lemma TwoTabs(a: string, d: string, p: string)
    requires '\t' !in a && '\t' !in d
    ensures var s := a + "\t" + (d + "\t" + p);
      && TabAt(s) == |a| && s[..|a|] == a && s[|a| + 1..] == d + "\t" + p
      && TabAt(d + "\t" + p) == |d| && s[|a| + 1..|a| + 1 + |d|] == d && s[|a| + |d| + 2..] == p
  {
    TabFound(a, d + "\t" + p);
    TabFound(d, p);
  }

  lemma ReadOf(a: string, d: string, p: string)
    requires '\t' !in a && '\t' !in d && ReadCount(a).Some? && ReadCount(d).Some?
    ensures ReadNumLine(a + "\t" + (d + "\t" + p)) == Some(NumLine(Count(ReadCount(a).value, ReadCount(d).value), p))
  {
    TwoTabs(a, d, p);
    hide ReadCount, TabAt;
  }

  lemma NumLineReads(f: File)
    ensures ReadNumLine(NumLineOf(f)) == Some(NumLine(f.count, if f.from.None? then f.path else ""))
  {
    var a, d, p := PrintCount(f.count.additions), PrintCount(f.count.deletions), if f.from.None? then f.path else "";
    CountReads(f.count.additions);
    CountReads(f.count.deletions);
    assert NumLineOf(f) == a + "\t" + (d + "\t" + p);
    hide *;
    ReadOf(a, d, p);
  }

  ghost predicate IsNumLine(s: string, line: NumLine, a: string, d: string) {
    && '\t' !in a && '\t' !in d && s == a + "\t" + (d + "\t" + line.path)
    && IsCountText(a, line.count.additions) && IsCountText(d, line.count.deletions)
  }

  lemma NumLineRead(s: string, line: NumLine) returns (a: string, d: string)
    requires ReadNumLine(s) == Some(line)
    ensures IsNumLine(s, line, a, d)
  {
    hide TabAt, ReadCount, IsCountText;
    var i := TabAt(s);
    var tail := s[i + 1..];
    var k := TabAt(tail);
    a, d := s[..i], tail[..k];
    TabCuts(s);
    TabCuts(tail);
    Tails(s, i + 1, k);
    CountIsRead(a, line.count.additions);
    CountIsRead(d, line.count.deletions);
  }

  lemma TabCuts(s: string)
    requires TabAt(s) < |s|
    ensures s == s[..TabAt(s)] + "\t" + s[TabAt(s) + 1..] && '\t' !in s[..TabAt(s)]
  {
    hide TabAt;
    CutAt(s, TabAt(s));
  }

  lemma CutAt(s: string, at: nat)
    requires at < |s| && s[at] == '\t'
    ensures s == s[..at] + "\t" + s[at + 1..]
  {
  }

  lemma Tails(s: string, i: nat, k: nat)
    requires i + k < |s|
    ensures s[i..][..k] == s[i..i + k] && s[i..][k + 1..] == s[i + k + 1..]
  {
  }

  lemma NumLineOfParts(s: string, line: NumLine, a: string, d: string)
    requires IsNumLine(s, line, a, d)
    ensures ReadNumLine(s) == Some(line)
  {
    CountIsRead(a, line.count.additions);
    CountIsRead(d, line.count.deletions);
    hide IsCountText, ReadNumLine, ReadCount;
    ReadOf(a, d, line.path);
  }

  /** A piece is a numstat entry exactly when it is two counts and a path, a tab after each count. */
  lemma NumLineIff(s: string, line: NumLine)
    ensures ReadNumLine(s) == Some(line) <==> exists a, d :: IsNumLine(s, line, a, d)
  {
    hide IsNumLine, ReadNumLine;
    if ReadNumLine(s) == Some(line) {
      var a, d := NumLineRead(s, line);
    }
    if a, d :| IsNumLine(s, line, a, d) {
      NumLineOfParts(s, line, a, d);
    }
  }

  function AddAll(counts: map<string, Count>, files: seq<File>): map<string, Count>
    decreases |files|
  {
    if files == [] then counts else AddAll(counts[files[0].path := files[0].count], files[1..])
  }

  lemma {:induction false} CountsOfPrinted(files: seq<File>, counts: map<string, Count>)
    requires forall f :: f in files ==> IsFile(f)
    ensures Counts(NumAll(files) + [""], counts) == AddAll(counts, files)
    decreases |files|
  {
    if files == [] {
      assert TabAt("") == 0 && ReadNumLine("") == None;
      assert NumAll(files) + [""] == [""] && [""][1..] == [];
    } else {
      var f, others := files[0], files[1..];
      var ns, tail := NumAll(files) + [""], NumAll(others) + [""];
      assert f in files;
      NumLineReads(f);
      CountsOfPrinted(others, counts[f.path := f.count]);
      hide ReadNumLine, NumLineOf;
      assert ns == NumPieces(f) + tail;
      if f.from.None? {
        assert ns[1..] == tail;
      } else {
        assert Drop(ns, 3) == tail && At(ns, 2) == f.path;
      }
    }
  }

  ghost predicate DistinctPaths(files: seq<File>) {
    forall i, j :: 0 <= i < j < |files| ==> files[i].path != files[j].path
  }

  lemma {:induction false} AddAllOthers(counts: map<string, Count>, files: seq<File>, path: string)
    requires forall f :: f in files ==> f.path != path
    ensures Found(AddAll(counts, files), path) == Found(counts, path)
    decreases |files|
  {
    if files != [] {
      assert files[0] in files;
      AddAllOthers(counts[files[0].path := files[0].count], files[1..], path);
    }
  }

  lemma {:induction false} AddAllFinds(counts: map<string, Count>, files: seq<File>, f: File)
    requires f in files && DistinctPaths(files)
    ensures Found(AddAll(counts, files), f.path) == f.count
    decreases |files|
  {
    var counts1, others := counts[files[0].path := files[0].count], files[1..];
    if f == files[0] {
      AddAllOthers(counts1, others, f.path);
    } else {
      assert f in others;
      AddAllFinds(counts1, others, f);
    }
  }

  lemma {:induction false} FilesOfPrinted(files: seq<File>, score: File -> string, counts: map<string, Count>)
    requires forall f :: f in files ==> IsFile(f) && (score(f) == "" || IsDigits(score(f))) && Found(counts, f.path) == f.count
    ensures Files(StatusAll(files, score) + [""], counts) == files
    decreases |files|
  {
    if files == [] {
      assert StatusAll(files, score) + [""] == [""] && [""][1..] == [];
    } else {
      var f, others := files[0], files[1..];
      var st, tail := StatusAll(files, score) + [""], StatusAll(others, score) + [""];
      assert f in files;
      FilesOfPrinted(others, score, counts);
      var code := [f.status] + score(f);
      assert IsCode(code) && code[0] == f.status;
      assert st == StatusPieces(f, score(f)) + tail;
      if f.from.None? {
        assert Drop(st, 2) == tail;
      } else {
        assert Drop(st, 3) == tail;
      }
      assert [f] + others == files;
    }
  }

  lemma {:induction false} NoNulInNum(files: seq<File>)
    requires forall f :: f in files ==> IsFile(f)
    ensures forall p :: p in NumAll(files) ==> '\0' !in p
  {
    if files != [] {
      var f := files[0];
      assert f in files;
      CountReads(f.count.additions);
      CountReads(f.count.deletions);
      NoNulInNum(files[1..]);
    }
  }

  lemma {:induction false} NoNulInStatus(files: seq<File>, score: File -> string)
    requires forall f :: f in files ==> IsFile(f) && (score(f) == "" || IsDigits(score(f)))
    ensures forall p :: p in StatusAll(files, score) ==> '\0' !in p
  {
    if files != [] {
      var f := files[0];
      assert f in files;
      NoNulInStatus(files[1..], score);
    }
  }

  lemma PiecesOfClosed(pieces: seq<string>)
    requires forall p :: p in pieces ==> '\0' !in p
    ensures Pieces(Closed(pieces, '\0')) == pieces + [""]
  {
    SplitOfClosed(pieces, "", '\0');
    assert Closed(pieces, '\0') + "" == Closed(pieces, '\0');
  }

  /**
   * What git prints for a list of files is read back as that list, in name-status order, whatever the
   * order of numstat: paths with tabs and newlines, or that look like a status, renames, copies and
   * binary files included.
   */
  lemma PrintedReads(numOrder: seq<File>, files: seq<File>, score: File -> string)
    requires forall f :: f in numOrder ==> IsFile(f)
    requires DistinctPaths(numOrder) && forall f :: f in files ==> f in numOrder && (score(f) == "" || IsDigits(score(f)))
    ensures Files(Pieces(Closed(StatusAll(files, score), '\0')), Counts(Pieces(Closed(NumAll(numOrder), '\0')), map[])) == files
  {
    NoNulInNum(numOrder);
    NoNulInStatus(files, score);
    PiecesOfClosed(NumAll(numOrder));
    PiecesOfClosed(StatusAll(files, score));
    CountsOfPrinted(numOrder, map[]);
    forall f | f in files
      ensures Found(AddAll(map[], numOrder), f.path) == f.count
    {
      AddAllFinds(map[], numOrder, f);
    }
    FilesOfPrinted(files, score, AddAll(map[], numOrder));
  }
}
