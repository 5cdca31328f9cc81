/** `_run_apply` of app/brain/self_improve.py over an abstract repository: branches name commits,
    and every command may succeed, fail or raise. */
module SelfImprove {
  import opened PyText

  type Commit = nat

  datatype Rc = Zero | NonZero | Throws

  /** What each command of one run does. `merged` says whether a merge that raised had already
      taken effect; `agentCommit` is where the coding agent left the checked-out branch. */
  datatype Env = Env(
    newBranch: Rc, reuse: Rc, agentRaises: bool, agentCommit: Option<Commit>, changedFiles: seq<string>,
    add: Rc, commit: Rc, newCommit: Commit, tests: Rc, diff: Rc, insertions: nat, deletions: nat,
    back: Rc, merge: Rc, merged: bool, mergeCommit: Commit, abort: Rc, boot: Rc, reset: Rc, handlerBack: Rc,
    gateDate: int, deployDate: int)

  datatype Settings = Settings(maxFiles: int, maxLines: int, dailyCap: int, promotion: bool, autoDeploy: bool)

  datatype Status =
    | Proposed | Running | MergeConflict | RolledBack | Deployed | NeedsReview | ReadyToReview | Failed | Error

  datatype Proposal = Proposal(status: Status, deployedDate: Option<int>)

  // ----- the gate -------------------------------------------------------------------

  const PROTECTED: seq<string> := [
    "app/safety/", "confidential_guard", "social_policy", "approval",
    "action_engine", "app/config.py", "self_improve.py", "self_repo.py",
    "reply_safety", "prompt_injection", "risk_classifier", "auth.py"]

  /** `p in f` */
  predicate Within(p: string, f: string)
    decreases |f|
  {
    |p| <= |f| && (f[..|p|] == p || (f != "" && Within(p, f[1..])))
  }

  predicate TouchesProtected(files: seq<string>) {
    exists i, j :: 0 <= i < |files| && 0 <= j < |PROTECTED| && Within(PROTECTED[j], files[i])
  }

  /** The line count the gate reads off `git diff --shortstat`: both numbers, or the insertions
      alone; a summary without insertions matches neither pattern. */
  function ChangedLines(e: Env): nat {
    if e.diff.Zero? && e.insertions > 0 then e.insertions + e.deletions else 0
  }

  function DeployedSet(proposals: map<nat, Proposal>, date: int): set<nat> {
    set p | p in proposals && proposals[p].deployedDate == Some(date)
  }

  function DeployedOn(proposals: map<nat, Proposal>, date: int): nat {
    |DeployedSet(proposals, date)|
  }

  /** The gate gets as far as `git diff`. */
  predicate DiffRuns(e: Env, s: Settings) {
    e.tests.Zero? && !TouchesProtected(e.changedFiles) && |e.changedFiles| <= s.maxFiles
  }

  predicate GateOpen(e: Env, s: Settings, proposals: map<nat, Proposal>) {
    && DiffRuns(e, s)
    && ChangedLines(e) <= s.maxLines
    && DeployedOn(proposals, e.gateDate) < s.dailyCap
    && s.promotion
  }

  /** A change that only deletes lines passes the size gate whatever its size. */
  lemma PureDeletionsAreFree(e: Env, s: Settings, proposals: map<nat, Proposal>, deletions: nat)
    requires e.insertions == 0
    ensures GateOpen(e.(deletions := deletions), s, proposals) <==> GateOpen(e, s, proposals)
    ensures ChangedLines(e.(deletions := deletions)) == 0
  {
  }

  // ----- what a run comes to --------------------------------------------------------

  /** The work branch is checked out when the agent starts. */
  predicate OnWorkBranch(e: Env, workExists: bool) {
    e.newBranch.Zero? || (e.newBranch.NonZero? && e.reuse.Zero? && workExists)
  }

  /** Nothing raised up to and including the test run. */
  predicate ReachesTests(e: Env) {
    && !e.newBranch.Throws? && (e.newBranch.NonZero? ==> !e.reuse.Throws?)
    && !e.agentRaises && !e.add.Throws? && !e.commit.Throws? && !e.tests.Throws?
  }

  /** Every gate passed and was evaluated without an exception. */
  predicate Promotes(e: Env, s: Settings, proposals: map<nat, Proposal>, autonomous: bool) {
    autonomous && GateOpen(e, s, proposals) && !e.diff.Throws?
  }

  predicate Deploys(e: Env, s: Settings, proposals: map<nat, Proposal>, autonomous: bool) {
    Promotes(e, s, proposals, autonomous) && !e.back.Throws? && e.merge.Zero? && e.boot.Zero?
  }

  /** The merge command is issued. */
  predicate MergeIssued(e: Env, s: Settings, proposals: map<nat, Proposal>, autonomous: bool) {
    ReachesTests(e) && Promotes(e, s, proposals, autonomous) && !e.back.Throws?
  }

  /** The start branch was checked out again and the merge took effect. */
  predicate MergeLands(e: Env) {
    e.back.Zero? && (e.merge.Zero? || (e.merge.Throws? && e.merged))
  }

  /** The start branch received the merge. */
  predicate Merged(e: Env, s: Settings, proposals: map<nat, Proposal>, autonomous: bool) {
    MergeIssued(e, s, proposals, autonomous) && MergeLands(e)
  }

  /** ... and was taken back. */
  predicate Reverted(e: Env) {
    e.merge.Zero? && e.boot.NonZero? && e.reset.Zero?
  }

  predicate BootPassed(e: Env, s: Settings, proposals: map<nat, Proposal>, autonomous: bool) {
    MergeIssued(e, s, proposals, autonomous) && e.merge.Zero? && e.boot.Zero?
  }

  // ----- the same in terms of the commands and limits themselves -------------------------

  const GUARDED: set<string> := {
    "app/safety/", "confidential_guard", "social_policy", "approval",
    "action_engine", "app/config.py", "self_improve.py", "self_repo.py",
    "reply_safety", "prompt_injection", "risk_classifier", "auth.py"}

  lemma {:induction false} WithinIff(p: string, f: string)
    ensures Within(p, f) <==> exists a, b :: f == a + p + b
    decreases |f|
  {
    if |p| <= |f| && f[..|p|] == p {
      assert f == "" + p + f[|p|..];
    } else if f != "" && |p| <= |f| {
      WithinIff(p, f[1..]);
      if a, b :| f[1..] == a + p + b {
        assert f == ([f[0]] + a) + p + b;
      }
      if a, b :| f == a + p + b {
        assert "" + p + b == p + b && (p + b)[..|p|] == p;
        assert f[1..] == a[1..] + p + b;
      }
    } else {
      forall a, b ensures f != a + p + b {
        assert |a + p + b| == |a| + |p| + |b|;
      }
    }
  }

  /** A change touches protected code exactly when one of the twelve names stands in the path of a file. */
  lemma TouchesProtectedIff(files: seq<string>)
    ensures TouchesProtected(files) <==>
      exists f, name, a, b :: f in files && name in GUARDED && f == a + name + b
  {
    hide Within;
    assert forall j :: 0 <= j < |PROTECTED| ==> PROTECTED[j] in GUARDED by { ProtectedNames(); }
    if f, name, a, b :| f in files && name in GUARDED && f == a + name + b {
      ProtectedNames();
      var j :| 0 <= j < |PROTECTED| && PROTECTED[j] == name;
      WithinIff(name, f);
      var i :| 0 <= i < |files| && files[i] == f;
      assert Within(PROTECTED[j], files[i]);
    }
    if i, j :| 0 <= i < |files| && 0 <= j < |PROTECTED| && Within(PROTECTED[j], files[i]) {
      WithinIff(PROTECTED[j], files[i]);
      var a, b :| files[i] == a + PROTECTED[j] + b;
      assert files[i] in files && PROTECTED[j] in GUARDED;
    }
  }

  lemma ProtectedNames()
    ensures forall name :: name in GUARDED <==> exists j :: 0 <= j < |PROTECTED| && PROTECTED[j] == name
  {
    assert |PROTECTED| == 12;
    assert PROTECTED[0] == "app/safety/" && PROTECTED[1] == "confidential_guard" && PROTECTED[2] == "social_policy";
    assert PROTECTED[3] == "approval" && PROTECTED[4] == "action_engine" && PROTECTED[5] == "app/config.py";
    assert PROTECTED[6] == "self_improve.py" && PROTECTED[7] == "self_repo.py" && PROTECTED[8] == "reply_safety";
    assert PROTECTED[9] == "prompt_injection" && PROTECTED[10] == "risk_classifier" && PROTECTED[11] == "auth.py";
  }

  /** Every limit of an autonomous change: passing tests, no protected file, few enough files, few
      enough lines as far as they are counted, a deployment left for the day, promotion enabled. */
  predicate WithinLimits(e: Env, s: Settings, proposals: map<nat, Proposal>) {
    && e.tests == Zero && !TouchesProtected(e.changedFiles) && |e.changedFiles| <= s.maxFiles
    && (if e.diff != Zero || e.insertions == 0 then 0 <= s.maxLines else e.insertions + e.deletions <= s.maxLines)
    && |set p | p in proposals && proposals[p].deployedDate == Some(e.gateDate)| < s.dailyCap
    && s.promotion
  }

  /** No command up to the test run raised; a second checkout is tried only after the first failed. */
  predicate NothingRaisedYet(e: Env) {
    && e.newBranch != Throws && !(e.newBranch == NonZero && e.reuse == Throws)
    && !e.agentRaises && e.add != Throws && e.commit != Throws && e.tests != Throws
  }

  /** When the start branch moves, and when the result is pushed and recorded. */
  lemma StartMovesIff(e: Env, s: Settings, proposals: map<nat, Proposal>, autonomous: bool)
    ensures var issued := autonomous && NothingRaisedYet(e) && WithinLimits(e, s, proposals)
        && e.diff != Throws && e.back != Throws;
      && (Merged(e, s, proposals, autonomous) && !Reverted(e) <==>
            && issued && e.back == Zero
            && (|| (e.merge == Zero && !(e.boot == NonZero && e.reset == Zero))
                || (e.merge == Throws && e.merged)))
      && (BootPassed(e, s, proposals, autonomous) <==> issued && e.merge == Zero && e.boot == Zero)
    ensures forall workExists :: OnWorkBranch(e, workExists) <==>
      e.newBranch == Zero || (e.newBranch == NonZero && e.reuse == Zero && workExists)
  {
    hide TouchesProtected;
    assert DeployedSet(proposals, e.gateDate)
        == set p | p in proposals && proposals[p].deployedDate == Some(e.gateDate);
  }

  /** The status a run leaves its proposal in. */
  function StatusAfter(e: Env, s: Settings, proposals: map<nat, Proposal>, autonomous: bool): Status {
    var gate := WithinLimits(e, s, proposals);
    if !NothingRaisedYet(e) then Error
    else if autonomous && DiffRuns(e, s) && e.diff == Throws then Error
    else if e.back == Throws then Error
    else if !autonomous then (if e.tests == Zero then ReadyToReview else Failed)
    else if !gate then NeedsReview
    else if e.merge == Throws then Error
    else if e.merge == NonZero then (if e.abort == Throws then Error else MergeConflict)
    else if e.boot == Throws then Error
    else if e.boot == NonZero then (if e.reset == Throws then Error else RolledBack)
    else Deployed
  }

  /** The outcomes in terms of the commands: each is reached in one way only, and all else is an error. */
  lemma StatusIs(e: Env, s: Settings, proposals: map<nat, Proposal>, autonomous: bool)
    ensures var status := StatusAfter(e, s, proposals, autonomous);
      var tested := NothingRaisedYet(e) && e.back != Throws;
      var diffed := e.tests == Zero && !TouchesProtected(e.changedFiles) && |e.changedFiles| <= s.maxFiles;
      var issued := tested && autonomous && WithinLimits(e, s, proposals) && e.diff != Throws;
      && (status == Deployed <==> issued && e.merge == Zero && e.boot == Zero)
      && (status == RolledBack <==> issued && e.merge == Zero && e.boot == NonZero && e.reset != Throws)
      && (status == MergeConflict <==> issued && e.merge == NonZero && e.abort != Throws)
      && (status == NeedsReview <==>
            tested && autonomous && !WithinLimits(e, s, proposals) && !(diffed && e.diff == Throws))
      && (status == ReadyToReview <==> tested && !autonomous && e.tests == Zero)
      && (status == Failed <==> tested && !autonomous && e.tests != Zero)
      && status in {Deployed, RolledBack, MergeConflict, NeedsReview, ReadyToReview, Failed, Error}
  {
    hide TouchesProtected;
  }

  class Improver {
    var branches: map<string, Commit>
    var head: string
    var proposals: map<nat, Proposal>
    var pushedStart: bool
    var restarted: bool

    constructor (branches: map<string, Commit>, head: string, proposals: map<nat, Proposal>)
      ensures this.branches == branches && this.head == head && this.proposals == proposals
      ensures !pushedStart && !restarted
    {
      this.branches, this.head, this.proposals := branches, head, proposals;
      pushedStart, restarted := false, false;
    }

    method SetStatus(pid: nat, status: Status)
      requires pid in proposals
      modifies this`proposals
      ensures proposals == old(proposals)[pid := old(proposals)[pid].(status := status)]
    {
      proposals := proposals[pid := proposals[pid].(status := status)];
    }

    /** Branch, implement, commit, test. */
    method Prepare(e: Env, work: string) returns (raised: bool)
      requires head in branches
      modifies this`branches, this`head
      ensures head in branches && old(head) in branches
      ensures !raised <==> ReachesTests(e)
      ensures OnWorkBranch(e, work in old(branches)) && !raised ==> head == work
      ensures OnWorkBranch(e, work in old(branches)) ==>
        forall b :: b in old(branches) && b != work ==> b in branches && branches[b] == old(branches)[b]
      ensures !OnWorkBranch(e, work in old(branches)) && !raised && e.commit.Zero? ==>
        head == old(head) && branches[head] == e.newCommit
    {
      raised := false;
      match e.newBranch {
        case Throws => return true;
        case Zero =>
          branches := branches[work := branches[head]];
          head := work;
        case NonZero =>
          if e.reuse.Throws? {
            return true;
          }
          if e.reuse.Zero? && work in branches {
            head := work;
          }
      }
      if e.agentCommit.Some? {
        branches := branches[head := e.agentCommit.value];
      }
      if e.agentRaises || e.add.Throws? || e.commit.Throws? {
        return true;
      }
      if e.commit.Zero? {
        branches := branches[head := e.newCommit];
      }
      raised := e.tests.Throws?;
    }

    /** Merge into whatever is checked out, boot-check, and roll back or deploy. */
    method Promote(pid: nat, e: Env, s: Settings, start: string, work: string, lastGood: Commit) returns (raised: bool)
      requires pid in proposals && head in branches && start in branches && start != work
      modifies this
      ensures start in branches && head in branches
      ensures old(head) == work ==>
        branches[start]
          == if !MergeLands(e) then old(branches)[start] else if Reverted(e) then lastGood else e.mergeCommit
      ensures proposals.Keys == old(proposals).Keys
      ensures !e.back.Throws? && e.merge.Zero? && e.boot.Zero? ==>
        && !raised && pushedStart && restarted == (old(restarted) || s.autoDeploy)
        && proposals == old(proposals)[pid := Proposal(Deployed, Some(e.deployDate))]
      ensures !(!e.back.Throws? && e.merge.Zero? && e.boot.Zero?) ==>
        pushedStart == old(pushedStart) && restarted == old(restarted) && SameDates(old(proposals), proposals)
      ensures raised <==>
        || e.back == Throws || e.merge == Throws || (e.merge == NonZero && e.abort == Throws)
        || (e.merge == Zero && (e.boot == Throws || (e.boot == NonZero && e.reset == Throws)))
      ensures !raised ==>
        proposals[pid].status
          == if e.merge == NonZero then MergeConflict else if e.boot == NonZero then RolledBack else Deployed
      ensures OnlyTouches(old(proposals), proposals, pid)
    {
      raised := false;
      if e.back.Throws? {
        return true;
      }
      if e.back.Zero? {
        head := start;
      }
      if e.merge.Throws? {
        if e.merged && head != work {
          branches := branches[head := e.mergeCommit];
        }
        return true;
      }
      if e.merge.NonZero? {
        if e.abort.Throws? {
          return true;
        }
        SetStatus(pid, MergeConflict);
        return;
      }
      if head != work {
        branches := branches[head := e.mergeCommit];
      }
      if e.boot.Throws? {
        return true;
      }
      if e.boot.NonZero? {
        if e.reset.Throws? {
          return true;
        }
        if e.reset.Zero? {
          branches := branches[head := lastGood];
        }
        SetStatus(pid, RolledBack);
        return;
      }
      pushedStart := true;
      proposals := proposals[pid := Proposal(Deployed, Some(e.deployDate))];
      if s.autoDeploy {
        restarted := true;
      }
    }

    /** Check the start branch out again and leave the work branch for review. */
    method LeaveForReview(pid: nat, e: Env, start: string, status: Status) returns (raised: bool)
      requires pid in proposals && start in branches && head in branches
      modifies this`head, this`proposals
      ensures head in branches
      ensures raised <==> e.back.Throws?
      ensures proposals == old(proposals) || proposals == old(proposals)[pid := old(proposals)[pid].(status := status)]
      ensures !raised ==> proposals[pid].status == status
    {
      if e.back.Throws? {
        return true;
      }
      if e.back.Zero? {
        head := start;
      }
      SetStatus(pid, status);
      raised := false;
    }

    /** Everything after the test run. */
    method Conclude(pid: nat, work: string, start: string, autonomous: bool, e: Env, s: Settings, lastGood: Commit)
      returns (raised: bool)
      requires pid in proposals && head in branches && start in branches && start != work
      modifies this
      ensures start in branches && head in branches
      ensures old(head) == work ==>
        branches[start]
          == if !Promotes(e, s, old(proposals), autonomous) || !MergeLands(e) then old(branches)[start]
             else if Reverted(e) then lastGood else e.mergeCommit
      ensures !autonomous ==> branches == old(branches)
      ensures proposals.Keys == old(proposals).Keys
      ensures Deploys(e, s, old(proposals), autonomous) ==>
        && !raised && pushedStart && restarted == (old(restarted) || s.autoDeploy)
        && proposals == old(proposals)[pid := Proposal(Deployed, Some(e.deployDate))]
      ensures !Deploys(e, s, old(proposals), autonomous) ==>
        pushedStart == old(pushedStart) && restarted == old(restarted) && SameDates(old(proposals), proposals)
      ensures NothingRaisedYet(e) ==>
        (raised <==> StatusAfter(e, s, old(proposals), autonomous) == Error)
        && (!raised ==> proposals[pid].status == StatusAfter(e, s, old(proposals), autonomous))
      ensures OnlyTouches(old(proposals), proposals, pid)
    {
      hide GateOpen, DiffRuns, Reverted, DeployedOn, WithinLimits, NothingRaisedYet;
      GateNeedsDiff(e, s, proposals);
      GateIs(e, s, proposals);
      if autonomous && DiffRuns(e, s) && e.diff.Throws? {
        raised := true;
      } else if autonomous && GateOpen(e, s, proposals) {
        raised := Promote(pid, e, s, start, work, lastGood);
      } else {
        raised := LeaveForReview(pid, e, start,
          if autonomous then NeedsReview else if e.tests.Zero? then ReadyToReview else Failed);
      }
    }

    method RunApply(pid: nat, work: string, autonomous: bool, e: Env, s: Settings)
      requires pid in proposals
      requires head in branches && head != work
      modifies this
      // The start branch moves exactly when a merge went through and was not taken back.
      ensures OnWorkBranch(e, work in old(branches)) ==>
        var start := old(head);
        start in branches && branches[start]
          == if Merged(e, s, old(proposals), autonomous) && !Reverted(e) then e.mergeCommit else old(branches)[start]
      // Push and restart follow a boot check that returned 0, and nothing else.
      ensures pushedStart == (old(pushedStart) || BootPassed(e, s, old(proposals), autonomous))
      ensures restarted == (old(restarted) || (BootPassed(e, s, old(proposals), autonomous) && s.autoDeploy))
      ensures if BootPassed(e, s, old(proposals), autonomous)
        then proposals == old(proposals)[pid := Proposal(Deployed, Some(e.deployDate))]
        else SameDates(old(proposals), proposals)
      // Without autonomy, with promotion disabled, with failing tests or with protected files in the
      // reported change, nothing moves, whatever the commands do.
      ensures OnWorkBranch(e, work in old(branches)) && StaysForReview(e, s, autonomous) ==>
        branches[old(head)] == old(branches)[old(head)]
        && pushedStart == old(pushedStart) && restarted == old(restarted) && SameDates(old(proposals), proposals)
      // The deployment record is the one the daily cap counts.
      ensures SameDates(AfterTurn(old(proposals), Turn(pid, e, s, autonomous)), proposals)
      // The proposal ends in the status of what happened, and no other proposal is touched.
      ensures OnlyTouches(old(proposals), proposals, pid)
      ensures proposals[pid].status == StatusAfter(e, s, old(proposals), autonomous)
      // If neither checkout succeeds, the change is committed on the start branch, past every gate.
      ensures !OnWorkBranch(e, work in old(branches)) && ReachesTests(e) && e.commit.Zero? && !autonomous ==>
        old(head) in branches && branches[old(head)] == e.newCommit
    {
      hide GateOpen, Reverted, OnWorkBranch, ReachesTests, DeployedOn, SameDates, StaysForReview;
      hide StatusAfter, NothingRaisedYet, WithinLimits, OnlyTouches;
      GateIs(e, s, proposals);
      ReviewOnly(e, s, proposals, autonomous);
      SameDatesRefl(AfterTurn(proposals, Turn(pid, e, s, autonomous)));
      var start, lastGood := head, branches[head];
      ghost var listed := proposals;
      SetStatus(pid, Running);
      ghost var running := proposals;
      SameGate(e, s, listed, running, pid);
      SameStatusAfter(e, s, listed, running, autonomous);
      StatusWhenRaised(e, s, listed, autonomous);
      MarkedOnly(listed, pid, Running);
      var raised := Prepare(e, work);
      if !raised {
        raised := Conclude(pid, work, start, autonomous, e, s, lastGood);
      }
      if raised {
        ghost var before := proposals;
        Recover(pid, start, e);
        DatesCarry(running, before, proposals);
        TouchesCarry(running, before, proposals, pid);
      }
      DatesCarry(listed, running, proposals);
      TouchesCarry(listed, running, proposals, pid);
    }

    /** The exception handler: try to get back to the start branch, record the error. */
    method Recover(pid: nat, start: string, e: Env)
      requires pid in proposals
      modifies this`head, this`proposals
      ensures SameDates(old(proposals), proposals)
      ensures OnlyTouches(old(proposals), proposals, pid) && proposals[pid].status == Error
    {
      if e.handlerBack.Zero? {
        head := start;
      }
      SetStatus(pid, Error);
    }
  }

  /** The two tables differ in statuses only. */
  predicate SameDates(a: map<nat, Proposal>, b: map<nat, Proposal>) {
    a.Keys == b.Keys && forall p :: p in a ==> b[p].deployedDate == a[p].deployedDate
  }

  predicate OnlyTouches(a: map<nat, Proposal>, b: map<nat, Proposal>, pid: nat) {
    a.Keys == b.Keys && pid in b && forall p :: p in a && p != pid ==> b[p] == a[p]
  }

  lemma MarkedOnly(a: map<nat, Proposal>, pid: nat, status: Status)
    requires pid in a
    ensures OnlyTouches(a, a[pid := a[pid].(status := status)], pid)
  {
  }

  lemma StatusWhenRaised(e: Env, s: Settings, proposals: map<nat, Proposal>, autonomous: bool)
    ensures !NothingRaisedYet(e) ==> StatusAfter(e, s, proposals, autonomous) == Error
  {
    hide WithinLimits;
  }

  lemma TouchesCarry(a: map<nat, Proposal>, b: map<nat, Proposal>, c: map<nat, Proposal>, pid: nat)
    requires pid in a
    ensures (a == b || OnlyTouches(a, b, pid)) && (b == c || OnlyTouches(b, c, pid)) ==> OnlyTouches(a, c, pid)
  {
  }

  /** The gate as the code tries it is the list of limits. */
  lemma GateIs(e: Env, s: Settings, proposals: map<nat, Proposal>)
    ensures GateOpen(e, s, proposals) <==> WithinLimits(e, s, proposals)
    ensures ReachesTests(e) <==> NothingRaisedYet(e)
  {
    hide TouchesProtected;
    assert DeployedSet(proposals, e.gateDate)
        == set p | p in proposals && proposals[p].deployedDate == Some(e.gateDate);
  }

  lemma SameStatusAfter(e: Env, s: Settings, a: map<nat, Proposal>, b: map<nat, Proposal>, autonomous: bool)
    requires SameDates(a, b)
    ensures StatusAfter(e, s, a, autonomous) == StatusAfter(e, s, b, autonomous)
  {
    hide TouchesProtected, DiffRuns;
    assert (set p | p in a && a[p].deployedDate == Some(e.gateDate))
        == (set p | p in b && b[p].deployedDate == Some(e.gateDate));
  }

  lemma GateNeedsDiff(e: Env, s: Settings, proposals: map<nat, Proposal>)
    ensures GateOpen(e, s, proposals) ==> DiffRuns(e, s)
  {
  }

  lemma SameGate(e: Env, s: Settings, a: map<nat, Proposal>, b: map<nat, Proposal>, pid: nat)
    requires pid in a && b == a[pid := a[pid].(status := Running)]
    ensures SameDates(a, b)
    ensures GateOpen(e, s, a) <==> GateOpen(e, s, b)
  {
    assert DeployedSet(a, e.gateDate) == DeployedSet(b, e.gateDate);
  }

  lemma DatesCarry(a: map<nat, Proposal>, b: map<nat, Proposal>, c: map<nat, Proposal>)
    ensures (a == b || SameDates(a, b)) && SameDates(b, c) ==> SameDates(a, c)
  {
  }

  // ----- consequences ---------------------------------------------------------------

  predicate StaysForReview(e: Env, s: Settings, autonomous: bool) {
    !autonomous || !s.promotion || !e.tests.Zero? || TouchesProtected(e.changedFiles)
  }

  lemma ReviewOnly(e: Env, s: Settings, proposals: map<nat, Proposal>, autonomous: bool)
    ensures StaysForReview(e, s, autonomous) ==>
      !Merged(e, s, proposals, autonomous) && !BootPassed(e, s, proposals, autonomous)
  {
  }

  lemma SameDatesRefl(a: map<nat, Proposal>)
    ensures SameDates(a, a)
  {
  }

  // ----- the daily cap over many runs -------------------------------------------------

  /** One run as the deployment counter sees it. */
  datatype Turn = Turn(pid: nat, e: Env, s: Settings, autonomous: bool)

  function AfterTurn(proposals: map<nat, Proposal>, t: Turn): map<nat, Proposal> {
    if t.pid in proposals && BootPassed(t.e, t.s, proposals, t.autonomous)
    then proposals[t.pid := Proposal(Deployed, Some(t.e.deployDate))]
    else proposals
  }

  function AfterTurns(proposals: map<nat, Proposal>, turns: seq<Turn>): map<nat, Proposal> {
    if turns == [] then proposals
    else AfterTurn(AfterTurns(proposals, turns[..|turns| - 1]), turns[|turns| - 1])
  }

  /** Each run reads the date at its gate, deploys no earlier, and ends before the next begins. */
  predicate InOrder(turns: seq<Turn>) {
    && (forall k :: 0 <= k < |turns| ==> turns[k].e.gateDate <= turns[k].e.deployDate)
    && (forall j, k :: 0 <= j < k < |turns| ==> turns[j].e.deployDate <= turns[k].e.gateDate)
  }

  lemma DeployedOnAfter(proposals: map<nat, Proposal>, t: Turn, date: int)
    ensures var n, n' := DeployedOn(proposals, date), DeployedOn(AfterTurn(proposals, t), date);
      n' <= n || (n' == n + 1 && date == t.e.deployDate && BootPassed(t.e, t.s, proposals, t.autonomous))
  {
    hide BootPassed;
    var after := AfterTurn(proposals, t);
    var earlier, later := DeployedSet(proposals, date), DeployedSet(after, date);
    if after != proposals && date == t.e.deployDate {
      assert later == earlier + {t.pid};
    } else if after != proposals {
      assert later == earlier - {t.pid};
    }
  }

  /** No deployment is dated after `date`. */
  predicate DatedUpTo(proposals: map<nat, Proposal>, date: int) {
    forall p :: p in proposals && proposals[p].deployedDate.Some? ==> proposals[p].deployedDate.value <= date
  }

  function Max(a: int, b: int): int {
    if a < b then b else a
  }

  /** Runs one after the other never take a day beyond the cap, even when one straddles midnight;
      a day that was beyond it before, under a higher cap, is not taken further. */
  lemma {:induction false} DailyCapHolds(proposals: map<nat, Proposal>, turns: seq<Turn>, cap: nat, date: int)
    requires turns != [] ==> DatedUpTo(proposals, turns[0].e.gateDate)
    requires InOrder(turns) && forall k :: 0 <= k < |turns| ==> turns[k].s.dailyCap == cap
    ensures DeployedOn(AfterTurns(proposals, turns), date) <= Max(cap, DeployedOn(proposals, date))
    ensures turns != [] ==> DatedUpTo(AfterTurns(proposals, turns), turns[|turns| - 1].e.deployDate)
  {
    hide BootPassed, DeployedOn;
    if turns == [] {
    } else {
      var n := |turns| - 1;
      var before, t := AfterTurns(proposals, turns[..n]), turns[n];
      DailyCapHolds(proposals, turns[..n], cap, date);
      assert DatedUpTo(before, t.e.gateDate);
      DeployedOnAfter(before, t, date);
      if BootPassed(t.e, t.s, before, t.autonomous) && date == t.e.deployDate {
        PassedUnderCap(t, before);
        if t.e.gateDate < date {
          NothingDated(before, t.e.gateDate, date);
        }
      }
    }
  }

  lemma NothingDated(proposals: map<nat, Proposal>, bound: int, date: int)
    requires DatedUpTo(proposals, bound) && bound < date
    ensures DeployedOn(proposals, date) == 0
  {
    assert DeployedSet(proposals, date) == {};
  }

  lemma PassedUnderCap(t: Turn, proposals: map<nat, Proposal>)
    requires BootPassed(t.e, t.s, proposals, t.autonomous)
    ensures DeployedOn(proposals, t.e.gateDate) < t.s.dailyCap
  {
    hide DeployedOn;
  }
}
