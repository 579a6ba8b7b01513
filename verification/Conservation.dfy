/** No message is lost, doubled or overtaken between its acceptance and Claude. */
module Conservation {
  import opened Common
  import opened PaneClaim
  import opened ChatRunner

  function Coming(start: Start): seq<Job> {
    if start.Preparing? then [start.job] else []
  }

  /** Every message that reached Claude or still may, in the order it did or would. */
  function Line(c: Chat): seq<Job> {
    c.handed + Coming(c.start) + Inboxes(c.active) + c.queue
  }

  /** Where the messages are, counted with multiplicity. */
  ghost function Places(c: Chat): multiset<Job> {
    multiset(Line(c)) + multiset(c.dropped) + multiset(c.lost)
  }

  ghost predicate Numbered(c: Chat) {
    forall k :: 0 <= k < |c.accepted| ==> c.accepted[k].id == k && (c.accepted[k].compact ==> !c.accepted[k].live && !c.accepted[k].person)
  }

  /** A person's messages stand in the order they were accepted. */
  ghost predicate Ordered(s: seq<Job>) {
    forall i, j :: 0 <= i < j < |s| && s[i].person && s[j].person ==> s[i].id < s[j].id
  }

  /** A compaction's turn takes no input, and only compactions share the map with another turn. */
  ghost predicate Lone(c: Chat) {
    && (forall i, j :: 0 <= i < j < |c.active| ==> c.active[i].job.compact || c.active[j].job.compact)
    && (forall i :: 0 <= i < |c.active| && c.active[i].job.compact ==> c.active[i].inbox == [] && !c.active[i].job.live)
    && (c.start.Preparing? && !c.start.job.compact ==> c.active == [])
  }

  ghost predicate Inv(c: Chat) {
    Numbered(c) && multiset(c.accepted) == Places(c) && Lone(c) && Ordered(Line(c))
  }

  // ---- Inboxes ----

  lemma Associative<T>(a: seq<T>, b: seq<T>, d: seq<T>)
    ensures a + (b + d) == a + b + d
  {
  }

  lemma {:induction false} InboxesAppend(a: seq<Turn>, b: seq<Turn>)
    ensures Inboxes(a + b) == Inboxes(a) + Inboxes(b)
  {
    if a == [] {
      assert a + b == b;
    } else {
      InboxesAppend(a[1..], b);
      assert (a + b)[1..] == a[1..] + b;
      Associative(a[0].inbox, Inboxes(a[1..]), Inboxes(b));
    }
  }

  lemma {:induction false} InboxesSame(a: seq<Turn>, b: seq<Turn>)
    requires |a| == |b| && forall i :: 0 <= i < |a| ==> a[i].inbox == b[i].inbox
    ensures Inboxes(a) == Inboxes(b)
  {
    if a != [] {
      InboxesSame(a[1..], b[1..]);
    }
  }

  lemma {:induction false} InboxesNone(a: seq<Turn>)
    requires forall i :: 0 <= i < |a| ==> a[i].inbox == []
    ensures Inboxes(a) == []
  {
    if a != [] {
      InboxesNone(a[1..]);
    }
  }

  lemma InboxesCut(a: seq<Turn>, i: nat)
    requires i < |a|
    ensures Inboxes(a) == Inboxes(a[..i]) + a[i].inbox + Inboxes(a[i + 1..])
    ensures Inboxes(Without(a, i)) == Inboxes(a[..i]) + Inboxes(a[i + 1..])
  {
    SliceCut(a, i);
    InboxesFirst(a[i..]);
    hide Inboxes;
    InboxesAppend(a[..i], a[i..]);
    InboxesAppend(a[..i], a[i + 1..]);
    Associative(Inboxes(a[..i]), a[i].inbox, Inboxes(a[i + 1..]));
  }

  lemma SliceCut<T>(a: seq<T>, i: nat)
    requires i < |a|
    ensures a == a[..i] + a[i..] && a[i..][0] == a[i] && a[i..][1..] == a[i + 1..] && Without(a, i) == a[..i] + a[i + 1..]
  {
  }

  lemma InboxesFirst(a: seq<Turn>)
    requires a != []
    ensures Inboxes(a) == a[0].inbox + Inboxes(a[1..])
  {
  }

  /** Putting another inbox in turn `i` changes that stretch alone. */
  lemma InboxesUpdate(a: seq<Turn>, i: nat, t: Turn)
    requires i < |a|
    ensures Inboxes(a[i := t]) == Inboxes(a[..i]) + t.inbox + Inboxes(a[i + 1..])
  {
    InboxesCut(a[i := t], i);
    assert a[i := t][..i] == a[..i] && a[i := t][i + 1..] == a[i + 1..];
  }

  /** A turn with an inbox is the only one. */
  lemma OneInbox(c: Chat, i: nat)
    requires Lone(c) && i < |c.active| && !c.active[i].job.compact
    ensures Inboxes(c.active[..i]) == [] && Inboxes(c.active[i + 1..]) == []
  {
    InboxesNone(c.active[..i]);
    InboxesNone(c.active[i + 1..]);
  }

  // ---- The line around one inbox ----

  function Before(c: Chat, i: nat): seq<Job>
    requires i <= |c.active|
  {
    c.handed + Coming(c.start) + Inboxes(c.active[..i])
  }

  function After(c: Chat, i: nat): seq<Job>
    requires i < |c.active|
  {
    Inboxes(c.active[i + 1..]) + c.queue
  }

  lemma Regroup<T>(h: seq<T>, p: seq<T>, a: seq<T>, t: seq<T>, b: seq<T>, q: seq<T>)
    ensures h + p + (a + t + b) + q == (h + p + a) + t + (b + q)
    ensures h + p + (a + b) + q == (h + p + a) + (b + q)
  {
  }

  /** The line is what stands before turn `i`'s inbox, the inbox, and what stands after it. */
  lemma Stretch(c: Chat, i: nat)
    requires i < |c.active|
    ensures Line(c) == Before(c, i) + c.active[i].inbox + After(c, i)
    ensures Line(Removed(c, i)) == Before(c, i) + After(c, i)
  {
    hide Inboxes;
    InboxesCut(c.active, i);
    Regroup(c.handed, Coming(c.start), Inboxes(c.active[..i]), c.active[i].inbox, Inboxes(c.active[i + 1..]), c.queue);
  }

  lemma StretchSet(c: Chat, i: nat, t: Turn)
    requires i < |c.active|
    ensures Line(Set(c, i, t)) == Before(c, i) + t.inbox + After(c, i)
  {
    hide Inboxes;
    InboxesUpdate(c.active, i, t);
    Regroup(c.handed, Coming(c.start), Inboxes(c.active[..i]), t.inbox, Inboxes(c.active[i + 1..]), c.queue);
  }

  /** Around the only inbox there is nothing but what was handed, what is starting, and the queue. */
  lemma StretchAlone(c: Chat, i: nat)
    requires Lone(c) && i < |c.active| && !c.active[i].job.compact
    ensures Before(c, i) == c.handed + Coming(c.start) && After(c, i) == c.queue
  {
    hide Inboxes;
    OneInbox(c, i);
  }

  // ---- Keeping the order ----

  lemma OrderedRemove(a: seq<Job>, b: seq<Job>, d: seq<Job>)
    requires Ordered(a + b + d)
    ensures Ordered(a + d)
  {
    var s, t := a + b + d, a + d;
    forall i, j | 0 <= i < j < |t| && t[i].person && t[j].person
      ensures t[i].id < t[j].id
    {
      var i' := if i < |a| then i else i + |b|;
      var j' := if j < |a| then j else j + |b|;
      assert s[i'] == t[i] && s[j'] == t[j];
    }
  }

  lemma OrderedInsert(a: seq<Job>, x: Job, d: seq<Job>)
    requires Ordered(a + d) && !x.person
    ensures Ordered(a + [x] + d)
  {
    var s, t := a + d, a + [x] + d;
    forall i, j | 0 <= i < j < |t| && t[i].person && t[j].person
      ensures t[i].id < t[j].id
    {
      assert i != |a| && j != |a|;
      var i' := if i < |a| then i else i - 1;
      var j' := if j < |a| then j else j - 1;
      assert s[i'] == t[i] && s[j'] == t[j];
    }
  }

  /** A message accepted now is later than all there are. */
  lemma OrderedAppend(c: Chat, job: Job)
    requires Inv(c) && job.id == |c.accepted|
    ensures Ordered(Line(c) + [job])
  {
    var s := Line(c);
    forall i | 0 <= i < |s|
      ensures s[i].id < job.id
    {
      assert s[i] in multiset(s);
      assert s[i] in multiset(c.accepted);
      var k :| 0 <= k < |c.accepted| && c.accepted[k] == s[i];
    }
  }

  // ---- Steps ----

  /** Steps that move no message: the same line, the same history. */
  lemma SameLine(c: Chat, d: Chat)
    requires Inv(c) && Line(d) == Line(c) && Lone(d)
    requires d.accepted == c.accepted && multiset(d.dropped) == multiset(c.dropped) && d.lost == c.lost
    ensures Inv(d)
  {
  }

  /** Steps that drop or lose a stretch of the line. */
  lemma Shorter(c: Chat, d: Chat, a: seq<Job>, gone: seq<Job>, b: seq<Job>)
    requires Inv(c) && Line(c) == a + gone + b && Line(d) == a + b && Lone(d)
    requires d.accepted == c.accepted
    requires multiset(d.dropped) + multiset(d.lost) == multiset(c.dropped) + multiset(c.lost) + multiset(gone)
    ensures Inv(d)
  {
    hide Inboxes, Ordered, Lone, Line;
    OrderedRemove(a, gone, b);
    assert multiset(Line(c)) == multiset(a) + multiset(gone) + multiset(b);
    assert multiset(Line(d)) == multiset(a) + multiset(b);
    assert Places(d) == Places(c) by {
      forall o: Job
        ensures Places(d)[o] == Places(c)[o]
      {
        assert (multiset(d.dropped) + multiset(d.lost))[o] == (multiset(c.dropped) + multiset(c.lost) + multiset(gone))[o];
      }
    }
  }

  /** Steps that accept a message: at the end of the line, or anywhere if it is no person's. */
  lemma Longer(c: Chat, d: Chat, a: seq<Job>, job: Job, b: seq<Job>)
    requires Inv(c) && Line(c) == a + b && Line(d) == a + [job] + b && Lone(d)
    requires d.accepted == c.accepted + [job] && d.dropped == c.dropped && d.lost == c.lost
    requires job.id == |c.accepted| && (job.compact ==> !job.live && !job.person) && (b == [] || !job.person)
    ensures Inv(d)
  {
    hide Inboxes, Ordered, Lone, Line;
    if b == [] {
      OrderedAppend(c, job);
      assert a + [job] + b == Line(c) + [job] by { assert a + b == a; }
    } else {
      OrderedInsert(a, job, b);
    }
    assert multiset(Line(d)) == multiset(a) + multiset([job]) + multiset(b);
  }

  lemma StartNextKeeps(c: Chat)
    requires Inv(c)
    ensures Inv(StartNext(c)) && Inv(Unpark(c))
  {
    var known := MarkKnown(c.(parked := false));
    InboxesSame(c.active, known.active);
    SameLine(c, known);
    StartNextMoves(c);
    StartNextMoves(known);
  }

  lemma StartNextMoves(c: Chat)
    requires Inv(c)
    ensures Inv(StartNext(c))
  {
    hide Inboxes, Ordered, Numbered;
    var d := StartNext(c);
    if d != c {
      InboxesNone(c.active);
      assert Line(d) == Line(c) by {
        assert c.queue == [c.queue[0]] + c.queue[1..];
        Associative(c.handed, [c.queue[0]], c.queue[1..]);
      }
      SameLine(c, d);
    }
  }

  lemma QueuedAreNumbered(c: Chat)
    requires Inv(c)
    ensures forall j :: j in Line(c) ==> j in c.accepted
  {
    forall j | j in Line(c)
      ensures j in c.accepted
    {
      assert j in multiset(Line(c));
      assert j in multiset(c.accepted);
    }
  }

  lemma SameStretch(c: Chat, d: Chat, i: nat)
    requires i < |c.active| && d.handed == c.handed && d.start == c.start && d.active == c.active && d.queue == c.queue
    ensures Before(d, i) == Before(c, i) && After(d, i) == After(c, i) && Line(d) == Line(c)
  {
  }

  lemma QueueMore(c: Chat, job: Job)
    ensures Line(Accept(c, job).(queue := c.queue + [job])) == Line(c) + [job]
  {
    Associative(c.handed + Coming(c.start) + Inboxes(c.active), c.queue, [job]);
  }

  /** With nothing else on its way, a message that starts at once is next after what was handed. */
  lemma StartNow(c: Chat, job: Job)
    requires !c.start.Preparing? && c.active == [] && c.queue == []
    ensures Line(Accept(c, job).(start := Preparing(job))) == Line(c) + [job]
  {
  }

  lemma SendKeeps(c: Chat, person: bool, live: bool, fits: bool)
    requires Inv(c)
    ensures Inv(SendStep(c, person, live, fits))
  {
    hide Inboxes, Ordered, Numbered, Line;
    var job := Job(|c.accepted|, person, false, live);
    var d := SendStep(c, person, live, fits);
    match SendPlace(c, live, fits)
    case IntoTurn => {
      var t := c.active[0];
      Stretch(c, 0);
      StretchAlone(c, 0);
      StretchSet(Accept(c, job), 0, d.active[0]);
      SameStretch(c, Accept(c, job), 0);
      Associative(Before(c, 0), t.inbox, [job]);
      Longer(c, d, Before(c, 0) + t.inbox, job, []);
    }
    case IntoQueue => {
      var queued := Accept(c, job).(queue := c.queue + [job]);
      QueueMore(c, job);
      Longer(c, queued, Line(c), job, []);
      StartNextKeeps(queued);
    }
    case AsTurn => {
      StartNow(c, job);
      Longer(c, d, Line(c), job, []);
    }
    case Refused =>
  }

  lemma StartAhead(c: Chat, job: Job)
    requires !c.start.Preparing?
    ensures Line(c) == c.handed + (Inboxes(c.active) + c.queue)
    ensures Line(Accept(c, job).(start := Preparing(job))) == c.handed + [job] + (Inboxes(c.active) + c.queue)
  {
    Regroup(c.handed, [], [], [], Inboxes(c.active), c.queue);
    Regroup(c.handed, [job], [], [], Inboxes(c.active), c.queue);
  }

  lemma CompactKeeps(c: Chat)
    requires Inv(c)
    ensures Inv(CompactStep(c))
  {
    hide Inboxes, Ordered, Line;
    var d := CompactStep(c);
    if CompactTaken(c) {
      StartAhead(c, d.start.job);
      Longer(c, d, c.handed, d.start.job, Inboxes(c.active) + c.queue);
    }
  }

  lemma PreparedKeeps(c: Chat)
    requires Inv(c) && c.start.Preparing?
    ensures Inv(PreparedStep(c))
  {
    hide Inboxes, Ordered;
    var d := PreparedStep(c);
    var last := d.active[|c.active|..];
    assert d.active == c.active + last;
    InboxesAppend(c.active, last);
    InboxesNone(last);
    QueuedAreNumbered(c);
    assert c.start.job in Line(c);
    assert Line(d) == Line(c);
    SameLine(c, d);
  }

  lemma ClaimLines(c: Chat, i: nat)
    requires Lone(c) && Enabled(c, Claim(i))
    ensures var d, x, after := Step(c, Claim(i)), c.active[i].inbox[0], c.active[i].inbox[1..] + c.queue;
      && Line(c) == c.handed + Coming(c.start) + ([x] + after)
      && Line(d) == c.handed + [x] + Coming(c.start) + after
      && (!c.start.Preparing? ==> Line(d) == Line(c))
  {
    hide Inboxes, Line;
    var t, d := c.active[i], Step(c, Claim(i));
    var moved := c.(handed := d.handed);
    Stretch(c, i);
    StretchAlone(c, i);
    StretchSet(moved, i, d.active[i]);
    StretchAlone(moved, i);
    assert t.inbox == [t.inbox[0]] + t.inbox[1..];
    Chain(c.handed, Coming(c.start), t.inbox[0], t.inbox[1..], c.queue);
  }

  lemma Chain<T>(h: seq<T>, p: seq<T>, x: T, rest: seq<T>, q: seq<T>)
    ensures h + p + ([x] + rest) + q == h + p + ([x] + (rest + q))
    ensures h + [x] + p + rest + q == h + [x] + p + (rest + q)
    ensures p == [] ==> h + p + ([x] + (rest + q)) == h + [x] + p + (rest + q)
  {
  }

  lemma Swapped(h: seq<Job>, x: Job, j: Job, after: seq<Job>)
    ensures multiset(h + [x] + [j] + after) == multiset(h + [j] + ([x] + after))
  {
    assert multiset(h + [x] + [j] + after) == multiset(h) + multiset([x]) + multiset([j]) + multiset(after);
    assert multiset(h + [j] + ([x] + after)) == multiset(h) + multiset([j]) + (multiset([x]) + multiset(after));
  }

  lemma StartingIsAccepted(c: Chat)
    requires Inv(c) && c.start.Preparing?
    ensures c.start.job in c.accepted
  {
    QueuedAreNumbered(c);
    assert c.start.job in Line(c);
  }

  lemma ClaimStaysLone(c: Chat, i: nat)
    requires Lone(c) && Enabled(c, Claim(i))
    ensures Lone(Step(c, Claim(i)))
  {
  }

  /** While a turn with an inbox is in the map, only a compaction can be starting. */
  lemma ClaimMeetsCompaction(c: Chat, i: nat)
    requires Inv(c) && i < |c.active| && c.start.Preparing?
    ensures c.start.job.compact && !c.start.job.person
  {
    hide Line, Ordered;
    StartingIsAccepted(c);
  }

  /** Steps that change the order of the line, but not of a person's messages. */
  lemma Reordered(c: Chat, d: Chat)
    requires Inv(c) && multiset(Line(d)) == multiset(Line(c)) && Ordered(Line(d)) && Lone(d)
    requires d.accepted == c.accepted && d.dropped == c.dropped && d.lost == c.lost
    ensures Inv(d)
  {
  }

  /** The wrapper's claim takes the line's next message: nothing but a compaction can be ahead of it. */
  lemma ClaimKeeps(c: Chat, i: nat)
    requires Inv(c) && Enabled(c, Claim(i))
    ensures Inv(Step(c, Claim(i)))
  {
    hide Inboxes, Ordered, Line, Lone;
    var d := Step(c, Claim(i));
    var x, after := c.active[i].inbox[0], c.active[i].inbox[1..] + c.queue;
    ClaimStaysLone(c, i);
    ClaimLines(c, i);
    if c.start.Preparing? {
      var j := c.start.job;
      ClaimMeetsCompaction(c, i);
      OrderedRemove(c.handed, [j], [x] + after);
      Associative(c.handed, [x], after);
      OrderedInsert(c.handed + [x], j, after);
      Swapped(c.handed, x, j, after);
      Reordered(c, d);
    } else {
      SameLine(c, d);
    }
  }

  function Unqueued(c: Chat): seq<Job> {
    c.handed + Coming(c.start) + Inboxes(c.active)
  }

  lemma LineEndsInQueue(c: Chat)
    ensures Line(c) == Unqueued(c) + c.queue == Unqueued(c) + c.queue + []
  {
  }

  function FirstDropped(c: Chat): Chat {
    if c.active == [] then c
    else Set(c, 0, c.active[0].(inbox := [])).(dropped := c.dropped + c.active[0].inbox)
  }

  lemma FirstDroppedKeeps(c: Chat)
    requires Inv(c)
    ensures Inv(FirstDropped(c))
  {
    hide Inboxes, Ordered, Numbered, Line;
    var d := FirstDropped(c);
    if c.active != [] {
      Stretch(c, 0);
      StretchSet(c, 0, d.active[0]);
      SameStretch(Set(c, 0, d.active[0]), d, 0);
      Shorter(c, d, Before(c, 0), c.active[0].inbox, After(c, 0));
    }
  }

  lemma QueueDroppedKeeps(c: Chat)
    requires Inv(c)
    ensures Inv(c.(dropped := c.dropped + c.queue, queue := []))
  {
    hide Inboxes, Ordered, Numbered, Line;
    var d := c.(dropped := c.dropped + c.queue, queue := []);
    LineEndsInQueue(c);
    LineEndsInQueue(d);
    Shorter(c, d, Unqueued(c), c.queue, []);
  }

  lemma DropAllKeeps(c: Chat)
    requires Inv(c)
    ensures Inv(DropAll(c))
  {
    hide Inboxes, Ordered, Numbered, Line, Inv;
    var mid := FirstDropped(c);
    FirstDroppedKeeps(c);
    QueueDroppedKeeps(mid);
    assert c.dropped + [] == c.dropped;
    assert DropAll(c) == mid.(dropped := mid.dropped + mid.queue, queue := []);
  }

  /** A drain moves the inbox from one side of the queue's start to the other. */
  lemma DrainKeepsLine(c: Chat, i: nat)
    requires Lone(c) && i < |c.active|
    ensures Line(DrainStep(c, i)) == Line(c)
  {
    hide Inboxes;
    var t, d := c.active[i], DrainStep(c, i);
    if t.cancelled || t.inbox == [] {
      InboxesSame(c.active, d.active);
      assert [] + c.queue == c.queue;
    } else {
      InboxesNone(d.active);
      OnlyInbox(c.active, i);
      Associative(c.handed + Coming(c.start), t.inbox, c.queue);
    }
  }

  lemma DrainKeeps(c: Chat, i: nat)
    requires Inv(c) && i < |c.active|
    ensures Inv(DrainStep(c, i))
  {
    hide Inboxes, Ordered, Numbered, Line;
    DrainKeepsLine(c, i);
    SameLine(c, DrainStep(c, i));
  }

  lemma RemovedKeeps(c: Chat, i: nat)
    requires Inv(c) && i < |c.active|
    ensures Inv(Removed(c, i))
  {
    hide Inboxes, Ordered, Numbered, Line;
    Stretch(c, i);
    WithoutStaysLone(c, i);
    Shorter(c, Removed(c, i), Before(c, i), c.active[i].inbox, After(c, i));
  }

  lemma WithoutStaysLone(c: Chat, i: nat)
    requires Lone(c) && i < |c.active|
    ensures Lone(Removed(c, i))
  {
  }

  lemma CancelQueuedKeeps(c: Chat, k: nat)
    requires Inv(c) && Enabled(c, CancelQueued(k))
    ensures Inv(Step(c, CancelQueued(k)))
  {
    hide Inboxes, Ordered, Numbered, Line;
    var d := Step(c, CancelQueued(k));
    LineEndsInQueue(c);
    LineEndsInQueue(d);
    assert c.queue == c.queue[..k] + [c.queue[k]] + c.queue[k + 1..];
    Regroup(Unqueued(c), [], c.queue[..k], [c.queue[k]], c.queue[k + 1..], []);
    Shorter(c, d, Unqueued(c) + c.queue[..k], [c.queue[k]], c.queue[k + 1..]);
  }

  lemma SteerKeeps(c: Chat, i: nat)
    requires Inv(c) && i < |c.active|
    ensures Inv(SteerStep(c, i))
  {
    hide Inboxes, Ordered, Numbered, Line;
    var d := SteerStep(c, i);
    if SteerTaken(c, i) {
      var t, job := c.active[i], Job(|c.accepted|, false, false, true);
      Stretch(c, i);
      StretchSet(Accept(c, job), i, d.active[i]);
      SameStretch(c, Accept(c, job), i);
      Associative(Before(c, i), t.inbox, [job]);
      Longer(c, d, Before(c, i) + t.inbox, job, After(c, i));
    }
  }

  /** What the inboxes hold after a crash is what they held, less the files a drain had removed. */
  lemma RestartInboxes(c: Chat, a: Action)
    requires Lone(c) && a.Restart? && Enabled(c, a)
    ensures Inboxes(c.active) == Gone(c, a.torn, a.files) + Inboxes(Step(c, a).active)
  {
    hide Inboxes;
    var d := Step(c, a);
    assert d == Restarted(c, a.order, a.died, a.torn, a.files);
    hide Step;
    if i :| 0 <= i < |c.active| && c.active[i].inbox != [] {
      assert i in a.order;
      var k :| 0 <= k < |a.order| && a.order[k] == i;
      OthersEmpty(c, i);
      hide Lone;
      assert forall l :: 0 <= l < |a.order| && l != k ==> a.order[l] != i;
      OneRevived(c, a.order, a.died, a.torn, a.files, i, k);
      hide Gone, Enabled, Restarted;
      OnlyInbox(d.active, k);
      OnlyInbox(c.active, i);
    } else {
      InboxesNone(c.active);
      InboxesNone(d.active);
    }
  }

  lemma OthersEmpty(c: Chat, i: nat)
    requires Lone(c) && i < |c.active| && c.active[i].inbox != []
    ensures forall l :: 0 <= l < |c.active| && l != i ==> c.active[l].inbox == []
  {
  }

  lemma OneRevived(c: Chat, order: seq<nat>, died: set<nat>, torn: nat, files: nat, i: nat, k: nat)
    requires forall l :: 0 <= l < |order| ==> order[l] < |c.active|
    requires files > 0 ==> torn < |c.active| && files <= |c.active[torn].inbox|
    requires i < |c.active| && c.active[i].inbox != [] && forall l :: 0 <= l < |c.active| && l != i ==> c.active[l].inbox == []
    requires k < |order| && order[k] == i && forall l :: 0 <= l < |order| && l != k ==> order[l] != i
    ensures var turns := Restarted(c, order, died, torn, files).active;
      && |turns| == |order| && (forall l :: 0 <= l < |turns| && l != k ==> turns[l].inbox == [])
      && c.active[i].inbox == Gone(c, torn, files) + turns[k].inbox
  {
    assert c.active[i].inbox[..0] + c.active[i].inbox[0..] == c.active[i].inbox;
  }

  lemma OnlyInbox(turns: seq<Turn>, k: nat)
    requires k < |turns| && forall l :: 0 <= l < |turns| && l != k ==> turns[l].inbox == []
    ensures Inboxes(turns) == turns[k].inbox
  {
    hide Inboxes;
    InboxesCut(turns, k);
    InboxesNone(turns[..k]);
    InboxesNone(turns[k + 1..]);
  }

  lemma Chopped<T>(h: seq<T>, gone: seq<T>, t: seq<T>, q: seq<T>)
    ensures h + ((gone + t) + q) == h + gone + (t + q)
  {
  }

  lemma StartLost(c: Chat)
    requires Inv(c)
    ensures Inv(c.(start := Idle, lost := c.lost + Coming(c.start)))
  {
    hide Inboxes, Ordered, Numbered, Line;
    var mid := c.(start := Idle, lost := c.lost + Coming(c.start));
    LineAroundStart(c);
    LineAroundStart(mid);
    Shorter(c, mid, c.handed, Coming(c.start), Inboxes(c.active) + c.queue);
  }

  lemma RestartKeeps(c: Chat, a: Action)
    requires Inv(c) && a.Restart? && Enabled(c, a)
    ensures Inv(Step(c, a))
  {
    hide Inboxes, Ordered, Numbered, Line, Gone;
    var d := Step(c, a);
    var mid := c.(start := Idle, lost := c.lost + Coming(c.start));
    StartLost(c);
    RestartInboxes(c, a);
    RestartStaysLone(c, a);
    var gone := Gone(c, a.torn, a.files);
    LineAroundStart(mid);
    LineAroundStart(d);
    assert Line(mid) == c.handed + gone + (Inboxes(d.active) + c.queue) by {
      Chopped(c.handed, gone, Inboxes(d.active), c.queue);
    }
    Shorter(mid, d, c.handed, gone, Inboxes(d.active) + c.queue);
  }

  lemma LineAroundStart(c: Chat)
    ensures Line(c) == c.handed + Coming(c.start) + (Inboxes(c.active) + c.queue)
    ensures !c.start.Preparing? ==> Line(c) == c.handed + (Inboxes(c.active) + c.queue)
    ensures !c.start.Preparing? && Inboxes(c.active) == [] ==> Line(c) == c.handed + c.queue
  {
    Regroup(c.handed, Coming(c.start), [], [], Inboxes(c.active), c.queue);
  }

  lemma RestartStaysLone(c: Chat, a: Action)
    requires Lone(c) && a.Restart? && Enabled(c, a)
    ensures Lone(Step(c, a))
  {
    var d := Step(c, a);
    forall i, j | 0 <= i < j < |d.active|
      ensures d.active[i].job.compact || d.active[j].job.compact
    {
      assert a.order[i] != a.order[j];
    }
  }

  lemma LaunchedKeeps(c: Chat, ok: bool)
    requires Inv(c) && c.start.Launching?
    ensures Inv(LaunchedStep(c, ok))
  {
    hide Inboxes, Ordered, Numbered;
    var d := LaunchedStep(c, ok);
    InboxesSame(c.active, d.active);
    SameLine(c, d);
  }

  /** Flags of one turn: `exit`, `cancelled`, `stdin-ended`. */
  lemma FlagKeeps(c: Chat, i: nat, t: Turn)
    requires Inv(c) && i < |c.active| && t.job == c.active[i].job && t.inbox == c.active[i].inbox
    ensures Inv(Set(c, i, t))
  {
    hide Inboxes, Ordered, Numbered;
    InboxesSame(c.active, c.active[i := t]);
    SameLine(c, Set(c, i, t));
  }

  lemma StepKeeps(c: Chat, a: Action)
    requires Inv(c) && Enabled(c, a)
    ensures Inv(Step(c, a))
  {
    hide Inv, SendStep, CompactStep, PreparedStep, LaunchedStep, DrainStep, SteerStep, Removed, DropAll, StartNext, Unpark, Restarted;
    match a
    case Send(person, live, fits) => SendKeeps(c, person, live, fits);
    case Compact => CompactKeeps(c);
    case Prepared => PreparedKeeps(c);
    case Launched(ok) => LaunchedKeeps(c, ok);
    case Claim(i) => ClaimKeeps(c, i);
    case EndInput(i) => FlagKeeps(c, i, c.active[i].(stdinEnded := true));
    case Exit(i) => FlagKeeps(c, i, c.active[i].(exit := true));
    case Cancel(i) => FlagKeeps(c, i, c.active[i].(cancelled := true));
    case Interrupt => {
      DropAllKeeps(c);
      Relabel(DropAll(c), InterruptStep(c));
    }
    case ClearBegin => {
      DropAllKeeps(c);
      ClearReorders(c);
      Relabel(DropAll(c).(dropped := ClearStep(c).dropped), Step(c, a));
    }
    case Drain(i) => DrainKeeps(c, i);
    case Done(i) => {
      RemovedKeeps(c, i);
      StartNextKeeps(Removed(c, i));
    }
    case ResumeQueue => StartNextKeeps(c);
    case CancelQueued(k) => CancelQueuedKeeps(c, k);
    case Steer(i) => SteerKeeps(c, i);
    case Restart(_, _, _, _) => RestartKeeps(c, a);
    case _ => Relabel(c, Step(c, a));
  }

  /** A clear drops the queue first. */
  lemma ClearReorders(c: Chat)
    requires Inv(DropAll(c))
    ensures Inv(DropAll(c).(dropped := ClearStep(c).dropped))
  {
    var first := if c.active == [] then [] else c.active[0].inbox;
    var d := DropAll(c);
    assert multiset(c.dropped + first + c.queue) == multiset(c.dropped + c.queue + first);
    assert d.dropped == c.dropped + first + c.queue && ClearStep(c).dropped == c.dropped + c.queue + first;
    hide DropAll, ClearStep, Inboxes, Ordered;
    SameLine(d, d.(dropped := c.dropped + c.queue + first));
  }

  /** The hold, the pane, the park and the clearing flag place no message. */
  lemma Relabel(c: Chat, d: Chat)
    ensures Inv(c) && d == c.(hold := d.hold, pane := d.pane, parked := d.parked, clearing := d.clearing) ==> Inv(d)
  {
    if Inv(c) && d == c.(hold := d.hold, pane := d.pane, parked := d.parked, clearing := d.clearing) {
      SameLine(c, d);
    }
  }

  lemma {:induction false} RunKeeps(c: Chat, acts: seq<Action>)
    requires Inv(c) && ValidRun(c, acts)
    ensures Inv(Run(c, acts))
    decreases |acts|
  {
    if acts != [] {
      StepKeeps(c, acts[0]);
      RunKeeps(Step(c, acts[0]), acts[1..]);
    }
  }

  // ---- Main results ----

  /**
   * Over any run, crashes included: every accepted message is in exactly one place (handed to Claude,
   * about to be, an inbox, the queue, dropped by a stop, lost in a crash), none is handed twice, and a
   * person's messages are handed in the order they were accepted.
   */
  lemma MessagesAreConserved(acts: seq<Action>)
    requires ValidRun(EMPTY, acts)
    ensures var c := Run(EMPTY, acts);
      && (forall k :: 0 <= k < |c.accepted| ==> Places(c)[c.accepted[k]] == 1)
      && (forall j :: j in Places(c) ==> j in c.accepted)
      && (forall i, j :: 0 <= i < j < |c.handed| ==> c.handed[i] != c.handed[j])
      && (forall i, j :: 0 <= i < j < |c.handed| && c.handed[i].person && c.handed[j].person ==> c.handed[i].id < c.handed[j].id)
  {
    RunFromEmpty(acts);
    hide Inboxes, Step, Ordered;
    var c := Run(EMPTY, acts);
    NumberedAreOnce(c.accepted);
    forall i, j | 0 <= i < j < |c.handed|
      ensures c.handed[i] != c.handed[j]
      ensures c.handed[i].person && c.handed[j].person ==> c.handed[i].id < c.handed[j].id
    {
      LineStartsWithHanded(c, i);
      LineStartsWithHanded(c, j);
      if c.handed[i].person && c.handed[j].person {
        OrderedAt(Line(c), i, j);
      }
      HandedIsOnce(c, i);
      OnceDiffers(Line(c), i, j);
    }
  }

  lemma RunFromEmpty(acts: seq<Action>)
    requires ValidRun(EMPTY, acts)
    ensures Inv(Run(EMPTY, acts))
  {
    assert Line(EMPTY) == [];
    RunKeeps(EMPTY, acts);
  }

  lemma LineStartsWithHanded(c: Chat, i: nat)
    requires i < |c.handed|
    ensures i < |Line(c)| && Line(c)[i] == c.handed[i]
  {
  }

  lemma OrderedAt(s: seq<Job>, i: nat, j: nat)
    requires Ordered(s) && i < j < |s| && s[i].person && s[j].person
    ensures s[i].id < s[j].id
  {
  }

  lemma HandedIsOnce(c: Chat, i: nat)
    requires Inv(c) && i < |c.handed|
    ensures i < |Line(c)| && multiset(Line(c))[Line(c)[i]] <= 1
  {
    NumberedAreOnce(c.accepted);
    LineStartsWithHanded(c, i);
    var j := c.handed[i];
    assert Places(c)[j] >= multiset(Line(c))[j];
    if j in multiset(c.accepted) {
      var k :| 0 <= k < |c.accepted| && c.accepted[k] == j;
    }
  }

  lemma OnceDiffers(s: seq<Job>, i: nat, j: nat)
    requires i < j < |s| && multiset(s)[s[i]] <= 1
    ensures s[i] != s[j]
  {
    assert s == s[..j] + [s[j]] + s[j + 1..];
    assert multiset(s) == multiset(s[..j]) + multiset([s[j]]) + multiset(s[j + 1..]);
    assert s[..j][i] in multiset(s[..j]);
  }

  lemma {:induction false} NumberedAreOnce(s: seq<Job>)
    requires forall k :: 0 <= k < |s| ==> s[k].id == k
    ensures forall k :: 0 <= k < |s| ==> multiset(s)[s[k]] == 1
    ensures forall j :: j in multiset(s) ==> j.id < |s|
  {
    if s != [] {
      var n := |s| - 1;
      NumberedAreOnce(s[..n]);
      assert s == s[..n] + [s[n]];
    }
  }

  /** The agent dies with this message on its way to a turn not yet on disk, or taken out of an inbox and not yet in the queue. */
  ghost predicate Loses(c: Chat, a: Action, job: Job)
    requires Enabled(c, a)
  {
    a.Restart? && (c.start == Preparing(job) || job in Gone(c, a.torn, a.files))
  }

  ghost predicate LostIn(c: Chat, acts: seq<Action>, job: Job)
    requires ValidRun(c, acts)
    decreases |acts|
  {
    acts != [] && (Loses(c, acts[0], job) || LostIn(Step(c, acts[0]), acts[1..], job))
  }

  lemma StepLoses(c: Chat, a: Action, job: Job)
    requires Enabled(c, a)
    ensures job in Step(c, a).lost <==> job in c.lost || Loses(c, a, job)
  {
    if a.Restart? {
      var d := Step(c, a);
      assert d.lost == c.lost + Coming(c.start) + Gone(c, a.torn, a.files);
      assert job in Coming(c.start) <==> c.start == Preparing(job);
    } else {
      assert Step(c, a).lost == c.lost;
    }
  }

  /** A message is lost exactly by a crash that found it between two of its places; nothing else loses any. */
  lemma {:induction false} LostIff(c: Chat, acts: seq<Action>, job: Job)
    requires ValidRun(c, acts)
    ensures job in Run(c, acts).lost <==> job in c.lost || LostIn(c, acts, job)
    decreases |acts|
  {
    hide Step, Enabled, Loses;
    if acts != [] {
      StepLoses(c, acts[0], job);
      LostIff(Step(c, acts[0]), acts[1..], job);
    }
  }

  /** A crash leaves every message but those in its place, and in the order it had. */
  lemma CrashKeepsTheRest(acts: seq<Action>, a: Action)
    requires ValidRun(EMPTY, acts) && a.Restart? && Enabled(Run(EMPTY, acts), a)
    ensures var c := Run(EMPTY, acts); var d, gone := Step(c, a), Gone(c, a.torn, a.files);
      && Line(c) == c.handed + (Coming(c.start) + gone) + (Inboxes(d.active) + d.queue)
      && Line(d) == d.handed + (Inboxes(d.active) + d.queue)
      && d.handed == c.handed && d.queue == c.queue && d.dropped == c.dropped && d.accepted == c.accepted
      && d.lost == c.lost + Coming(c.start) + gone
  {
    RunFromEmpty(acts);
    hide Run, Inboxes, Line, Ordered, Numbered, Step, Enabled;
    CrashCuts(Run(EMPTY, acts), a);
  }

  lemma CrashCuts(c: Chat, a: Action)
    requires Lone(c) && a.Restart? && Enabled(c, a)
    ensures var d, gone := Step(c, a), Gone(c, a.torn, a.files);
      && Line(c) == c.handed + (Coming(c.start) + gone) + (Inboxes(d.active) + d.queue)
      && Line(d) == d.handed + (Inboxes(d.active) + d.queue)
      && d.handed == c.handed && d.queue == c.queue && d.dropped == c.dropped && d.accepted == c.accepted
      && d.lost == c.lost + Coming(c.start) + gone
  {
    hide Inboxes, Line;
    RestartInboxes(c, a);
    var d, gone := Step(c, a), Gone(c, a.torn, a.files);
    LineAroundStart(c);
    LineAroundStart(d);
    hide Lone, Gone, Enabled;
    CrashRegroup(c.handed, Coming(c.start), gone, Inboxes(d.active), c.queue);
  }

  lemma CrashRegroup<T>(h: seq<T>, p: seq<T>, gone: seq<T>, t: seq<T>, q: seq<T>)
    ensures h + p + ((gone + t) + q) == h + (p + gone) + (t + q)
  {
  }

  /** Within one process's life nothing is lost at all. */
  lemma {:induction false} OnlyCrashesLose(c: Chat, acts: seq<Action>)
    requires ValidRun(c, acts) && forall a :: a in acts ==> !a.Restart?
    ensures Run(c, acts).lost == c.lost
    decreases |acts|
  {
    if acts != [] {
      assert acts[0] in acts;
      assert Step(c, acts[0]).lost == c.lost;
      OnlyCrashesLose(Step(c, acts[0]), acts[1..]);
    }
  }
}
