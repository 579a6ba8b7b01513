/**
 * `addPrWorktree`: a worktree on a pull request's own branch, over any commit graph. Each git command
 * succeeds or fails as its environment says; the refs it moves are the repository's.
 */
module PrWorktree {
  import opened Common

  type Commit = nat
  type Branch = nat
  type Path = nat

  // ---- Commits ----

  /** Each commit's parents. */
  type Graph = Commit -> set<Commit>

  ghost predicate IsPath(g: Graph, p: seq<Commit>) {
    p != [] && forall i, j :: 0 <= i && j == i + 1 && j < |p| ==> p[j] in g(p[i])
  }

  /** `b` is `a` or an ancestor of it. */
  ghost predicate Reaches(g: Graph, a: Commit, b: Commit) {
    exists p :: IsPath(g, p) && p[0] == a && p[|p| - 1] == b
  }

  lemma ReachesItself(g: Graph, a: Commit)
    ensures Reaches(g, a, a)
  {
    assert IsPath(g, [a]);
  }

  lemma ReachesOn(g: Graph, a: Commit, b: Commit, c: Commit)
    requires Reaches(g, a, b) && Reaches(g, b, c)
    ensures Reaches(g, a, c)
  {
    var p :| IsPath(g, p) && p[0] == a && p[|p| - 1] == b;
    var q :| IsPath(g, q) && q[0] == b && q[|q| - 1] == c;
    var r := p + q[1..];
    forall i, j | 0 <= i && j == i + 1 && j < |r|
      ensures r[j] in g(r[i])
    {
      if j < |p| {
        assert r[i] == p[i] && r[j] == p[j];
      } else {
        assert r[j] == q[j - |p| + 1] && r[i] == q[i - |p| + 1];
      }
    }
    assert IsPath(g, r) && r[0] == a && r[|r| - 1] == c;
  }

  // ---- The repository ----

  /** A worktree git lists. `name`: its directory's name, if it is one right under `.worktrees`. */
  datatype Worktree = Worktree(path: Path, branch: Option<Branch>, prunable: bool, onDisk: bool, name: Option<nat>)

  datatype Repo = Repo(refs: map<Branch, Commit>, worktrees: seq<Worktree>)

  /** `fixedPath`: the request names the path, so a worktree elsewhere is not adopted. */
  datatype Request = Request(branch: Branch, path: Path, fixedPath: bool, sameRepo: bool, head: Commit)

  /**
   * How git answers: the PR's head as fetched; whether the worktrees could be listed and a tip read; what
   * `merge-base --is-ancestor` says both ways; and whether each later command succeeds. A
   * command may fail with its work done: `movedBranch`, a failed `branch -f` had moved the branch;
   * `leftBranch` and `leftWorktree`, a failed `worktree add` left its new branch, or the worktree, behind.
   */
  datatype Git = Git(
    branchNameOk: bool, fetched: Option<Commit>, listed: bool, tipRead: bool, tipInHead: bool, headInTip: bool,
    upstream: bool, localSeen: bool, forced: bool, movedBranch: bool, added: bool, leftBranch: bool, leftWorktree: bool, marked: bool)

  datatype Refusal = BadBranch | FetchFailed | OtherRepository | GitFailed | OtherWork | CheckedOutElsewhere | Diverged

  datatype Outcome =
    | Reused
    | Adopted(name: nat)
    | Added(localBranch: bool, fastForwarded: bool, upstream: bool)
    | Refused(why: Refusal)

  predicate Holds(w: Worktree, branch: Branch) {
    w.branch == Some(branch) && !w.prunable && w.onDisk
  }

  function Holder(worktrees: seq<Worktree>, branch: Branch): (w: Option<Worktree>)
    ensures w.None? <==> forall i :: 0 <= i < |worktrees| ==> !Holds(worktrees[i], branch)
    ensures w.Some? ==> Holds(w.value, branch)
  {
    if worktrees == [] then None
    else if Holds(worktrees[0], branch) then Some(worktrees[0])
    else Holder(worktrees[1..], branch)
  }

  /** What git says of ancestry is so when it says yes; a no may be a command that failed. */
  ghost predicate Truthful(g: Graph, git: Git, tip: Commit, head: Commit) {
    (git.tipInHead ==> Reaches(g, head, tip)) && (git.headInTip ==> Reaches(g, tip, head))
  }

  predicate Related(req: Request, git: Git, tip: Commit) {
    tip == req.head || git.tipInHead || git.headInTip
  }

  /** With the branch in a live worktree: that one, under its own path or adopted, if its work is this PR's. */
  function AtHolder(req: Request, git: Git, w: Worktree, tip: Option<Commit>): Outcome {
    if !git.tipRead || tip.None? then Refused(GitFailed)
    else if !Related(req, git, tip.value) then Refused(OtherWork)
    else if w.path == req.path then (if git.marked then Reused else Refused(GitFailed))
    else if !req.fixedPath && w.name.Some? then (if git.marked then Adopted(w.name.value) else Refused(GitFailed))
    else Refused(CheckedOutElsewhere)
  }

  function WithWorktree(r: Repo, req: Request): Repo {
    r.(worktrees := r.worktrees + [Worktree(req.path, Some(req.branch), false, true, None)])
  }

  /** From the local branch: caught up when it is behind the PR's head, kept when ahead, refused else. */
  function FromLocal(r: Repo, req: Request, git: Git): (Repo, Outcome) {
    if !git.tipRead || req.branch !in r.refs then (r, Refused(GitFailed))
    else
      var tip := r.refs[req.branch];
      var behind := tip != req.head && !git.headInTip;
      if behind && !git.tipInHead then (r, Refused(Diverged))
      else
        var r1 := if behind && (git.forced || git.movedBranch) then r.(refs := r.refs[req.branch := req.head]) else r;
        if behind && !git.forced then (r1, Refused(GitFailed))
        else if !git.added then (if git.leftWorktree then WithWorktree(r1, req) else r1, Refused(GitFailed))
        else (WithWorktree(r1, req), if git.marked then Added(true, behind, req.sameRepo && git.upstream) else Refused(GitFailed))
  }

  /** With no local branch a new one at the PR's head; git refuses that name when there is one after all. */
  function FromHead(r: Repo, req: Request, git: Git): (Repo, Outcome) {
    if req.branch in r.refs then (r, Refused(GitFailed))
    else
      var r1 := r.(refs := r.refs[req.branch := req.head]);
      if !git.added then (if !git.leftBranch then r else if git.leftWorktree then WithWorktree(r1, req) else r1, Refused(GitFailed))
      else (WithWorktree(r1, req), if git.marked then Added(false, false, req.sameRepo && git.upstream) else Refused(GitFailed))
  }

  function AddPrWorktree(r: Repo, req: Request, git: Git): (Repo, Outcome) {
    if !git.branchNameOk then (r, Refused(BadBranch))
    else if git.fetched.None? then (r, Refused(FetchFailed))
    else if git.fetched.value != req.head then (r, Refused(OtherRepository))
    else if !git.listed then (r, Refused(GitFailed))
    else
      var w := Holder(r.worktrees, req.branch);
      if w.Some? then (r, AtHolder(req, git, w.value, if req.branch in r.refs then Some(r.refs[req.branch]) else None))
      else if git.localSeen then FromLocal(r, req, git)
      else FromHead(r, req, git)
  }

  /** The repository as the call changes it. */
  class Checkout {
    var refs: map<Branch, Commit>
    var worktrees: seq<Worktree>

    function State(): Repo
      reads this
    {
      Repo(refs, worktrees)
    }

    method FindHolder(branch: Branch) returns (w: Option<Worktree>)
      ensures w == Holder(worktrees, branch)
    {
      var i := 0;
      while i < |worktrees|
        invariant 0 <= i <= |worktrees| && Holder(worktrees[i..], branch) == Holder(worktrees, branch)
      {
        if Holds(worktrees[i], branch) { return Some(worktrees[i]); }
        assert worktrees[i..][1..] == worktrees[i + 1..];
        i := i + 1;
      }
      return None;
    }

    method ListWorktree(req: Request)
      modifies this`worktrees
      ensures State() == WithWorktree(old(State()), req)
    {
      worktrees := worktrees + [Worktree(req.path, Some(req.branch), false, true, None)];
    }

    method Add(req: Request, git: Git) returns (outcome: Outcome)
      modifies this
      ensures (State(), outcome) == AddPrWorktree(old(State()), req, git)
    {
      if !git.branchNameOk { return Refused(BadBranch); }
      if git.fetched.None? { return Refused(FetchFailed); }
      if git.fetched.value != req.head { return Refused(OtherRepository); }
      if !git.listed { return Refused(GitFailed); }
      var w := FindHolder(req.branch);
      if w.Some? {
        if !git.tipRead || req.branch !in refs { return Refused(GitFailed); }
        if !Related(req, git, refs[req.branch]) { return Refused(OtherWork); }
        if w.value.path == req.path { return if git.marked then Reused else Refused(GitFailed); }
        if !req.fixedPath && w.value.name.Some? {
          return if git.marked then Adopted(w.value.name.value) else Refused(GitFailed);
        }
        return Refused(CheckedOutElsewhere);
      }
      var fastForwarded := false;
      if git.localSeen {
        if !git.tipRead || req.branch !in refs { return Refused(GitFailed); }
        var tip := refs[req.branch];
        if tip != req.head && !git.headInTip {
          if !git.tipInHead { return Refused(Diverged); }
          if git.forced || git.movedBranch { refs := refs[req.branch := req.head]; }
          if !git.forced { return Refused(GitFailed); }
          fastForwarded := true;
        }
        if !git.added {
          if git.leftWorktree { ListWorktree(req); }
          return Refused(GitFailed);
        }
      } else {
        if req.branch in refs { return Refused(GitFailed); }
        if !git.added {
          if git.leftBranch {
            refs := refs[req.branch := req.head];
            if git.leftWorktree { ListWorktree(req); }
          }
          return Refused(GitFailed);
        }
        refs := refs[req.branch := req.head];
      }
      ListWorktree(req);
      return if git.marked then Added(git.localSeen, fastForwarded, req.sameRepo && git.upstream) else Refused(GitFailed);
    }
  }

  // ---- No work is lost ----

  /** However the call ends, each commit the local branch reached it still reaches, and no other branch moved. */
  lemma NoCommitLost(g: Graph, r: Repo, req: Request, git: Git, b: Branch, c: Commit)
    requires b in r.refs && Reaches(g, r.refs[b], c)
    requires b == req.branch ==> Truthful(g, git, r.refs[b], req.head)
    ensures var r' := AddPrWorktree(r, req, git).0; b in r'.refs && Reaches(g, r'.refs[b], c) && (b != req.branch ==> r'.refs[b] == r.refs[b])
  {
    var r' := AddPrWorktree(r, req, git).0;
    if r'.refs[b] != r.refs[b] {
      ReachesOn(g, req.head, r.refs[b], c);
    }
  }

  /** A worktree added is on a branch at the PR's head or ahead of it; nothing is lost and nothing of the PR is missing. */
  lemma AddedHasThePr(g: Graph, r: Repo, req: Request, git: Git)
    requires req.branch in r.refs ==> Truthful(g, git, r.refs[req.branch], req.head)
    requires AddPrWorktree(r, req, git).1.Added?
    ensures var (r', o) := AddPrWorktree(r, req, git);
      && Holder(r.worktrees, req.branch).None? && Holder(r'.worktrees, req.branch).Some?
      && req.branch in r'.refs && Reaches(g, r'.refs[req.branch], req.head)
      && (o.localBranch <==> req.branch in r.refs)
      && (o.fastForwarded ==> req.branch in r.refs && r'.refs[req.branch] == req.head && Reaches(g, req.head, r.refs[req.branch]))
      && (!o.fastForwarded && o.localBranch ==> r'.refs == r.refs)
  {
    ReachesItself(g, req.head);
    var r' := AddPrWorktree(r, req, git).0;
    var last := r'.worktrees[|r'.worktrees| - 1];
    assert Holds(last, req.branch);
  }

  /** A worktree reused or adopted is left as it was, and its tip is the PR's head, behind it, or ahead of it. */
  lemma ReusedIsRelated(g: Graph, r: Repo, req: Request, git: Git)
    requires req.branch in r.refs ==> Truthful(g, git, r.refs[req.branch], req.head)
    requires AddPrWorktree(r, req, git).1.Reused? || AddPrWorktree(r, req, git).1.Adopted?
    ensures AddPrWorktree(r, req, git).0 == r && req.branch in r.refs
    ensures Reaches(g, r.refs[req.branch], req.head) || Reaches(g, req.head, r.refs[req.branch])
  {
    ReachesItself(g, req.head);
  }

  /** Git fails at nothing, and answers about ancestry are exact. */
  ghost predicate Working(g: Graph, git: Git, r: Repo, req: Request) {
    && git.branchNameOk && git.listed && git.tipRead && git.forced && git.added && git.marked
    && git.fetched == Some(req.head)
    && (git.localSeen <==> req.branch in r.refs)
    && (req.branch in r.refs ==> (git.tipInHead <==> Reaches(g, req.head, r.refs[req.branch])) && (git.headInTip <==> Reaches(g, r.refs[req.branch], req.head)))
  }

  /**
   * With a working git and the branch in no live worktree, the call succeeds exactly when the branch is
   * not there yet, or is behind or ahead of the PR's head; diverged or unrelated work is refused and
   * nothing moves. The branch ends at the later of the two.
   */
  lemma AddsIffRelated(g: Graph, r: Repo, req: Request, git: Git)
    requires Working(g, git, r, req) && Holder(r.worktrees, req.branch).None?
    ensures var (r', o) := AddPrWorktree(r, req, git);
      && (o.Added? <==> (req.branch in r.refs ==> Reaches(g, r.refs[req.branch], req.head) || Reaches(g, req.head, r.refs[req.branch])))
      && (!o.Added? ==> o == Refused(Diverged) && r' == r)
      && (o.Added? ==> r'.refs == if req.branch in r.refs && Reaches(g, r.refs[req.branch], req.head) then r.refs else r.refs[req.branch := req.head])
  {
    ReachesItself(g, req.head);
    if req.branch in r.refs && r.refs[req.branch] == req.head {
      assert r.refs[req.branch := req.head] == r.refs;
    }
  }

  /** With a working git a live worktree holding the branch is kept exactly when its work is this PR's and it stands where it may. */
  lemma HolderKeptIff(g: Graph, r: Repo, req: Request, git: Git)
    requires Working(g, git, r, req) && Holder(r.worktrees, req.branch).Some? && req.branch in r.refs
    ensures var (r', o) := AddPrWorktree(r, req, git);
      var w, tip := Holder(r.worktrees, req.branch).value, r.refs[req.branch];
      && r' == r
      && (o.Reused? || o.Adopted? <==>
            (Reaches(g, tip, req.head) || Reaches(g, req.head, tip)) && (w.path == req.path || (!req.fixedPath && w.name.Some?)))
      && (o.Reused? <==> (Reaches(g, tip, req.head) || Reaches(g, req.head, tip)) && w.path == req.path)
  {
    ReachesItself(g, req.head);
  }

  // ---- When git fails ----

  /** On the branch, its directory there and not to be pruned. */
  predicate IsLiveOn(w: Worktree, branch: Branch) {
    w.branch == Some(branch) && !w.prunable && w.onDisk
  }

  ghost predicate IsFirst(worktrees: seq<Worktree>, branch: Branch, i: nat) {
    i < |worktrees| && IsLiveOn(worktrees[i], branch) && forall j :: 0 <= j < i ==> !IsLiveOn(worktrees[j], branch)
  }

  /** The holder is the first such worktree git lists. */
  lemma {:induction false} HolderIsFirst(worktrees: seq<Worktree>, branch: Branch, i: nat)
    ensures IsFirst(worktrees, branch, i) ==> Holder(worktrees, branch) == Some(worktrees[i])
    ensures Holder(worktrees, branch).None? <==> forall j :: 0 <= j < |worktrees| ==> !IsLiveOn(worktrees[j], branch)
  {
    if worktrees != [] && !Holds(worktrees[0], branch) {
      var rest := worktrees[1..];
      HolderIsFirst(rest, branch, if i > 0 then i - 1 else 0);
      if IsFirst(worktrees, branch, i) {
        assert i > 0 && IsFirst(rest, branch, i - 1);
      }
    }
  }

  /** A local branch behind the PR's head, as far as git could say. */
  predicate IsBehind(r: Repo, req: Request, git: Git) {
    req.branch in r.refs && r.refs[req.branch] != req.head && !git.headInTip
  }

  /** Git did all that the call needs before it looks at worktrees and branches. */
  predicate Begins(req: Request, git: Git) {
    git.branchNameOk && git.fetched == Some(req.head) && git.listed
  }

  /** The call gets as far as adding a worktree. */
  predicate ComesToAdd(r: Repo, req: Request, git: Git) {
    && Begins(req, git) && Holder(r.worktrees, req.branch).None?
    && (if git.localSeen then git.tipRead && req.branch in r.refs && (IsBehind(r, req, git) ==> git.tipInHead && git.forced)
        else req.branch !in r.refs)
  }

  /** The call succeeds exactly when every command it needed did: none that failed is passed over. */
  lemma SucceedsIff(r: Repo, req: Request, git: Git)
    ensures var (r', o) := AddPrWorktree(r, req, git);
      && (o.Added? <==> ComesToAdd(r, req, git) && git.added && git.marked)
      && (o.Reused? || o.Adopted? <==>
            Begins(req, git) && git.marked && git.tipRead && req.branch in r.refs && Holder(r.worktrees, req.branch).Some? &&
            var w, tip := Holder(r.worktrees, req.branch).value, r.refs[req.branch];
            (tip == req.head || git.tipInHead || git.headInTip) && (w.path == req.path || (!req.fixedPath && w.name.Some?)))
      && (o.Added? ==> o == Added(git.localSeen, git.localSeen && IsBehind(r, req, git), req.sameRepo && git.upstream))
      && (o == Refused(BadBranch) <==> !git.branchNameOk)
      && (o == Refused(FetchFailed) <==> git.branchNameOk && git.fetched.None?)
      && (o == Refused(OtherRepository) <==> git.branchNameOk && git.fetched.Some? && git.fetched.value != req.head)
  {
    hide Holder;
  }

  /** What a call leaves, refused or not: every worktree there was, with the new one if it came that far; one ref moved or made at most. */
  lemma LeavesBehind(r: Repo, req: Request, git: Git)
    ensures var r' := AddPrWorktree(r, req, git).0;
      && r'.worktrees == r.worktrees +
           (if ComesToAdd(r, req, git) && (git.added || (git.leftWorktree && (git.localSeen || git.leftBranch)))
            then [Worktree(req.path, Some(req.branch), false, true, None)] else [])
      && r'.refs ==
           if ComesToAdd(r, req, git) && !git.localSeen && (git.added || git.leftBranch) then r.refs[req.branch := req.head]
           else if Begins(req, git) && Holder(r.worktrees, req.branch).None? && git.localSeen && git.tipRead && IsBehind(r, req, git) && git.tipInHead
                   && (git.forced || git.movedBranch) then r.refs[req.branch := req.head]
           else r.refs
  {
    hide Holder;
    assert r.worktrees + [] == r.worktrees;
  }
}
