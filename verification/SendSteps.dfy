/** Turning a token into an attempt, and bringing a chunk loop to its next chunk. */
module SendSteps {
  import opened Approvals
  import Payload
  import opened SendProtocol
  import opened SendTokens

  // ----- turning a token into an attempt ---------------------------------------------------

  /** Every write of the run lands while the row it was read from is still pending. */
  predicate PromptAt(s: State, l: Label) {
    WriteOf(s, l).Some? ==> CanDecide(s.rows, WriteOf(s, l).value.id)
  }

  predicate PromptFrom(s: State, labels: seq<Label>) {
    labels == [] || (PromptFrom(s, labels[..|labels| - 1])
                     && PromptAt(Continue(s, labels[..|labels| - 1]), labels[|labels| - 1]))
  }

  lemma {:induction false} PromptIsHarmless(s: State, labels: seq<Label>)
    requires PromptFrom(s, labels)
    ensures HarmlessFrom(s, labels)
  {
    hide Continue, OpOf, Tokens, Stirring;
    if labels == [] {
    } else {
      PromptIsHarmless(s, labels[..|labels| - 1]);
    }
  }

  lemma {:induction false} ContinueConcat(s: State, a: seq<Label>, b: seq<Label>)
    ensures Continue(s, a + b) == Continue(Continue(s, a), b)
    ensures PromptFrom(s, a + b) <==> PromptFrom(s, a) && PromptFrom(Continue(s, a), b)
    decreases |b|
  {
    hide Apply, PromptAt;
    if b == [] {
      assert a + b == a;
    } else {
      var n := |b| - 1;
      assert (a + b)[..|a + b| - 1] == a + b[..n] && (a + b)[|a + b| - 1] == b[n];
      ContinueConcat(s, a, b[..n]);
    }
  }

  lemma OneLabel(s: State, l: Label)
    ensures Continue(s, [l]) == Apply(s, l)
    ensures PromptFrom(s, [l]) <==> PromptAt(s, l)
  {
    assert [l][..0] == [];
  }

  /** What an execution of `id` leaves alone: every other row, and every other token. */
  ghost predicate OnlyUses(s: State, s': State, id: nat) {
    && Bound(s') && |s'.rows| == |s.rows| && s'.chunkOf == s.chunkOf
    && (forall k: nat :: k < |s.rows| && k != id ==> s'.rows[k] == s.rows[k])
    && (forall k: nat :: Attempts(s'.log, k) >= Attempts(s.log, k))
    && (forall k: nat :: k != id && Tokens(s, k) > 0 ==> Tokens(s', k) > 0)
  }

  lemma OnlyUsesTrans(s: State, t: State, u: State, id: nat)
    requires OnlyUses(s, t, id) && OnlyUses(t, u, id)
    ensures OnlyUses(s, u, id)
  {
    hide Bound, Tokens, Attempts;
  }

  /** Some caller can execute the row as it stands in the table. */
  ghost predicate Executable(rows: Table, id: nat) {
    id < |rows| && (rows[id].action == BRAIN || exists m :: Carries(rows, id, m))
  }

  lemma FreshKey<T>(m: map<nat, T>) returns (k: nat)
    ensures k !in m
  {
    k := FreshAbove(m.Keys);
  }

  lemma {:induction false} FreshAbove(keys: set<nat>) returns (k: nat)
    ensures k !in keys && forall x :: x in keys ==> x < k
    decreases |keys|
  {
    if keys == {} {
      k := 0;
    } else {
      var x :| x in keys;
      var k' := FreshAbove(keys - {x});
      k := if k' > x then k' else x + 1;
      assert forall y :: y in keys ==> y == x || y in keys - {x};
    }
  }

  /** One statement of a caller of `id` leaves everything else alone. */
  lemma CallerOnlyUses(s: State, pid: nat, works: bool, id: nat)
    requires Bound(s) && pid in s.procs && s.procs[pid].Running().Some? && s.procs[pid].Running().value.id == id
    requires !s.procs[pid].Running().value.pc.Done?
    ensures OnlyUses(s, Apply(s, Go(pid, works)), id)
  {
    hide Bound, CallStep, Attempts, Owners;
    var l := Go(pid, works);
    var p := s.procs[pid];
    var op, s' := OpOf(s, l), Apply(s, l);
    ApplyKeepsBound(s, l);
    CallStepMoves(s.rows, p.Running().value, works);
    OpExtends(s.rows, op);
    forall k: nat ensures Attempts(s'.log, k) >= Attempts(s.log, k) {
      OpAttempts(s.rows, s.log, op, k);
    }
    forall k: nat | k != id ensures Tokens(s, k) > 0 ==> Tokens(s', k) > 0 {
      OpAttempts(s.rows, s.log, op, k);
      OwnersUpdate(s.procs, pid, s'.procs[pid], k);
    }
  }

  lemma CallStepMoves(rows: Table, call: Call, works: bool)
    ensures var (op, call') := CallStep(rows, call, works);
      && call'.id == call.id && call'.kind == call.kind
      && (op.Nop? || ((op.Claim? || op.Attempt? || op.Finish?) && op.id == call.id))
  {
    hide Payload.SendPayload;
  }

  lemma SpawnOnlyUses(s: State, pid: nat, p: Proc, id: nat)
    requires Bound(s) && pid !in s.procs && p.Caller? && p.Initial()
    ensures OnlyUses(s, Apply(s, Spawn(pid, p)), id) && PromptAt(s, Spawn(pid, p))
    ensures var s' := Apply(s, Spawn(pid, p)); s' == s.(procs := s.procs[pid := p])
  {
    hide Bound, Attempts, Owners;
    var s' := Apply(s, Spawn(pid, p));
    ApplyKeepsBound(s, Spawn(pid, p));
    assert s.log + [] == s.log;
    forall k: nat ensures Tokens(s', k) == Tokens(s, k) {
      OwnersUpdate(s.procs, pid, p, k);
    }
  }

  /** An owner uses its claim. */
  lemma OwnerAttempts(s: State, pid: nat, id: nat)
    requires Bound(s) && pid in s.procs && s.procs[pid].OwnsId(id)
    ensures var s' := Apply(s, Go(pid, true));
      && OnlyUses(s, s', id) && PromptAt(s, Go(pid, true)) && s'.rows == s.rows
      && Attempts(s'.log, id) == Attempts(s.log, id) + 1
  {
    hide Bound, OnlyUses, Attempts;
    CallerOnlyUses(s, pid, true, id);
    OpAttempts(s.rows, s.log, OpOf(s, Go(pid, true)), id);
  }

  /** The three statements of a fresh caller of an approved row. */
  lemma ApprovedAttempts(s: State, id: nat) returns (more: seq<Label>)
    requires Bound(s) && id < |s.rows| && Executable(s.rows, id) && s.rows[id].status == Approved
    ensures PromptFrom(s, more) && OnlyUses(s, Continue(s, more), id)
    ensures Attempts(Continue(s, more).log, id) == Attempts(s.log, id) + 1
  {
    hide Bound, OnlyUses, Attempts, Payload.SendPayload, ProcStep, Executable;
    var pid := FreshKey(s.procs);
    var kind := KindFor(s.rows, id);
    var p := Caller(Call(id, kind, Start));
    var payload := s.rows[id].payload;
    var s1 := s.(procs := s.procs[pid := p]);
    SpawnOnlyUses(s, pid, p, id);
    BoundAfter(s, s1, id);
    var s2 := s1.(procs := s.procs[pid := Caller(Call(id, kind, Checked(payload)))]);
    assert Apply(s1, Go(pid, true)) == s2 by { CheckStep(s1, pid); }
    CallerOnlyUses(s1, pid, true, id);
    BoundAfter(s1, s2, id);
    ClaimStep(s2, pid);
    CallerOnlyUses(s2, pid, true, id);
    var s3 := Apply(s2, Go(pid, true));
    BoundAfter(s2, s3, id);
    OwnerAttempts(s3, pid, id);
    OnlyUsesTrans(s, s1, s2, id);
    OnlyUsesTrans(s, s2, s3, id);
    OnlyUsesTrans(s, s3, Apply(s3, Go(pid, true)), id);
    more := [Spawn(pid, p)] + [Go(pid, true)] + [Go(pid, true)] + [Go(pid, true)];
    FourLabels(s, Spawn(pid, p), Go(pid, true));
    assert s1.log == s.log && Attempts(s3.log, id) == Attempts(s.log, id);
  }

  lemma FourLabels(s: State, a: Label, b: Label)
    requires var (s1, s2, s3) := (Apply(s, a), Apply(Apply(s, a), b), Apply(Apply(Apply(s, a), b), b));
      PromptAt(s, a) && PromptAt(s1, b) && PromptAt(s2, b) && PromptAt(s3, b)
    ensures Continue(s, [a] + [b] + [b] + [b]) == Apply(Apply(Apply(Apply(s, a), b), b), b)
    ensures PromptFrom(s, [a] + [b] + [b] + [b])
  {
    hide Apply, PromptAt;
    OneLabel(s, a);
    ContinueConcat(s, [a], [b]);
    OneLabel(Apply(s, a), b);
    ContinueConcat(s, [a] + [b], [b]);
    OneLabel(Apply(Apply(s, a), b), b);
    ContinueConcat(s, [a] + [b] + [b], [b]);
    OneLabel(Apply(Apply(Apply(s, a), b), b), b);
  }

  lemma KindFor(rows: Table, id: nat) returns (kind: Kind)
    requires Executable(rows, id)
    ensures kind.Accepts(rows[id])
  {
    hide Payload.SendPayload;
    if rows[id].action == BRAIN {
      kind := RunBrainAction;
    } else {
      var m :| Carries(rows, id, m);
      kind := SendMessage(m);
    }
  }

  lemma CheckStep(s: State, pid: nat)
    requires pid in s.procs && s.procs[pid].Caller? && s.procs[pid].call.pc.Start?
    requires var c := s.procs[pid].call;
      c.id < |s.rows| && s.rows[c.id].status == Approved && c.kind.Accepts(s.rows[c.id])
    ensures PromptAt(s, Go(pid, true))
    ensures var c := s.procs[pid].call;
      Apply(s, Go(pid, true)) == s.(procs := s.procs[pid := Caller(c.(pc := Checked(s.rows[c.id].payload)))])
  {
    hide Payload.SendPayload;
    assert s.log + [] == s.log;
  }

  lemma ClaimStep(s: State, pid: nat)
    requires pid in s.procs && s.procs[pid].Caller? && s.procs[pid].call.pc.Checked?
    requires var c := s.procs[pid].call;
      && c.id < |s.rows| && s.rows[c.id].status == Approved
      && c.kind.Accepts(s.rows[c.id]) && c.pc.payload == s.rows[c.id].payload
    ensures PromptAt(s, Go(pid, true))
    ensures var (id, s') := (s.procs[pid].call.id, Apply(s, Go(pid, true)));
      pid in s'.procs && s'.procs[pid].OwnsId(id) && Attempts(s'.log, id) == Attempts(s.log, id)
  {
    hide Payload.SendPayload, Attempts;
    var id := s.procs[pid].call.id;
    OpAttempts(s.rows, s.log, OpOf(s, Go(pid, true)), id);
  }

  /** A prompt approval of a pending row. */
  lemma PendingApproved(s: State, id: nat) returns (more: seq<Label>)
    requires Bound(s) && CanDecide(s.rows, id)
    ensures PromptFrom(s, more) && OnlyUses(s, Continue(s, more), id)
    ensures var s' := Continue(s, more);
      s'.rows == s.rows[id := s.rows[id].(status := Approved)] && Attempts(s'.log, id) == Attempts(s.log, id)
  {
    hide Bound, Attempts, Owners;
    var rid := FreshKey(s.responders);
    var d := Decision(id, true);
    var s1 := s.(responders := s.responders[rid := d]);
    assert Apply(s, Read(rid, d)) == s1 by { assert s.log + [] == s.log; }
    var s2 := Apply(s1, Write(rid));
    ApplyKeepsBound(s, Read(rid, d));
    ApplyKeepsBound(s1, Write(rid));
    forall k: nat ensures Attempts(s2.log, k) == Attempts(s.log, k) {
      OpAttempts(s1.rows, s1.log, OpOf(s1, Write(rid)), k);
    }
    more := [Read(rid, d)] + [Write(rid)];
    OneLabel(s, Read(rid, d));
    OneLabel(s1, Write(rid));
    ContinueConcat(s, [Read(rid, d)], [Write(rid)]);
  }

  /** Whoever holds a token of an executable approval can still make it an attempt. */
  lemma TokenAttempts(s: State, id: nat) returns (more: seq<Label>)
    requires Bound(s) && id < |s.rows| && Executable(s.rows, id) && Tokens(s, id) > 0
    ensures PromptFrom(s, more) && OnlyUses(s, Continue(s, more), id)
    ensures Attempts(Continue(s, more).log, id) > 0
  {
    hide Bound, OnlyUses, Attempts, Executable;
    more := [];
    if Attempts(s.log, id) > 0 {
      assert OnlyUses(s, s, id) by { UsesNothing(s, id); }
    } else if pid :| pid in s.procs && s.procs[pid].OwnsId(id) {
      OwnerAttempts(s, pid, id);
      more := [Go(pid, true)];
      OneLabel(s, Go(pid, true));
    } else {
      assert Owners(s.procs, id) == {};
      if s.rows[id].status == Approved {
        more := ApprovedAttempts(s, id);
      } else {
        var first := PendingApproved(s, id);
        var s1 := Continue(s, first);
        assert Executable(s1.rows, id) && Bound(s1) by { StillExecutable(s.rows, s1.rows, id); BoundAfter(s, s1, id); }
        var then' := ApprovedAttempts(s1, id);
        more := first + then';
        ContinueConcat(s, first, then');
        OnlyUsesTrans(s, s1, Continue(s1, then'), id);
      }
    }
  }

  lemma UsesNothing(s: State, id: nat)
    requires Bound(s)
    ensures OnlyUses(s, s, id)
  {
    hide Bound, Tokens, Attempts;
  }

  lemma BoundAfter(s: State, s': State, id: nat)
    requires OnlyUses(s, s', id)
    ensures Bound(s')
  {
    hide Bound;
  }

  lemma StillExecutable(rows: Table, rows': Table, id: nat)
    requires Executable(rows, id) && Extends(rows, rows')
    ensures Executable(rows', id)
  {
    hide Payload.SendPayload;
    if rows[id].action != BRAIN {
      var m :| Carries(rows, id, m);
      assert Carries(rows', id, m);
    }
  }

  // ----- bringing a chunk loop to its next chunk --------------------------------------------

  /** Some chunk of reply `id` has an approval that can still become, or has been, an attempt. */
  ghost predicate ChunkAlive(s: State, id: nat) {
    exists c :: c in s.chunkOf && s.chunkOf[c].orig == id && Tokens(s, c) > 0
  }

  function Distance(at: ChunkPc): nat {
    match at
    case Queued(_, _) => 10
    case Sending(_, call) =>
      (match call.pc
       case Start => 7
       case Checked(_) => 6
       case Owns(_) => 5
       case Tried => 4
       case Finishing(ok) => if ok then 3 else 2
       case Done => 1)
    case _ => 0
  }

  /** A chunk loop with a chunk to come can be brought to request it, without a late write and
      without touching the row of the whole reply. */
  lemma {:induction false} LoopGoesOn(s: State, pid: nat, id: nat) returns (more: seq<Label>)
    requires Bound(s) && pid in s.procs && s.procs[pid].MoreToCome(id)
    ensures PromptFrom(s, more)
    ensures var s' := Continue(s, more);
      Bound(s') && ChunkAlive(s', id) && id < |s.rows| <= |s'.rows| && s'.rows[id] == s.rows[id]
    decreases Distance(s.procs[pid].at)
  {
    hide Bound, Tokens, ChunkStep, CallStep, Payload.SendPayload;
    var p := s.procs[pid];
    var works := !p.at.Sending?;
    var l := Go(pid, works);
    var s1 := Apply(s, l);
    MoreToComeInTable(s, pid, id);
    ApplyKeepsBound(s, l);
    RowsGrow(s, l);
    if p.at.Turn? {
      NextChunkAsked(s, pid, id);
      more := [l];
      OneLabel(s, l);
    } else if p.at.Queued? && CanDecide(s.rows, p.at.id) {
      PendingChunkAlive(s, pid, id);
      more := [];
    } else {
      LoopStep(s, pid, id);
      var rest := LoopGoesOn(s1, pid, id);
      more := [l] + rest;
      OneLabel(s, l);
      ContinueConcat(s, [l], rest);
    }
  }

  lemma NextChunkAsked(s: State, pid: nat, id: nat)
    requires Bound(s) && pid in s.procs && s.procs[pid].MoreToCome(id) && s.procs[pid].at.Turn?
    ensures var s' := Apply(s, Go(pid, true));
      ChunkAlive(s', id) && id < |s.rows| <= |s'.rows| && s'.rows[id] == s.rows[id] && PromptAt(s, Go(pid, true))
  {
    hide Bound, Tokens, Payload.SendPayload;
    var s' := Apply(s, Go(pid, true));
    MoreToComeInTable(s, pid, id);
    NewRowTokens(s, Go(pid, true));
    assert |s.rows| in s'.chunkOf && s'.chunkOf[|s.rows|].orig == id;
  }

  lemma PendingChunkAlive(s: State, pid: nat, id: nat)
    requires Bound(s) && pid in s.procs && s.procs[pid].MoreToCome(id)
    requires s.procs[pid].at.Queued? && CanDecide(s.rows, s.procs[pid].at.id)
    ensures ChunkAlive(s, id)
  {
    hide Payload.SendPayload, Owners, Attempts;
    var c := s.procs[pid].at.id;
    assert ProcOk(s, s.procs[pid]);
    assert Tokens(s, c) > 0;
  }

  /** One quiet statement of the loop on its way from one chunk to the next. */
  lemma LoopStep(s: State, pid: nat, id: nat)
    requires Bound(s) && pid in s.procs && s.procs[pid].MoreToCome(id)
    requires s.procs[pid].at.Sending? || (s.procs[pid].at.Queued? && !CanDecide(s.rows, s.procs[pid].at.id))
    ensures var l := Go(pid, !s.procs[pid].at.Sending?);
      var s' := Apply(s, l);
      && PromptAt(s, l) && pid in s'.procs && s'.procs[pid].MoreToCome(id)
      && Distance(s'.procs[pid].at) < Distance(s.procs[pid].at)
      && id < |s.rows| <= |s'.rows| && s'.rows[id] == s.rows[id]
  {
    hide Payload.SendPayload, CallStep;
    var p := s.procs[pid];
    assert ProcOk(s, p);
    if p.at.Sending? {
      assert ChunkOk(s, p.at.call.id);
      if !p.at.call.pc.Done? {
        CallStepMoves(s.rows, p.at.call, false);
        CallWindsDown(s.rows, p.at.call, p.at.i);
      }
    }
  }

  lemma CallWindsDown(rows: Table, call: Call, i: nat)
    requires !call.pc.Done?
    ensures Distance(Sending(i, CallStep(rows, call, false).1)) < Distance(Sending(i, call))
  {
    hide Payload.SendPayload;
  }
}
