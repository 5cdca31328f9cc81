/** Which late writes of `respond` break the protocol, and runs in which they do. */
module LateWrites {
  import opened PyText
  import opened Approvals
  import Payload
  import opened SendProtocol
  import opened SendTokens
  import opened SendSteps

  /** A late approval of a row whose token is held or used up makes a second attempt possible. */
  lemma SecondToken(s: State, l: Label, id: nat) returns (more: seq<Label>)
    requires Bound(s) && id < |s.rows| && Revives(s, l, id) && Tokens(s, id) > 0
    ensures PromptFrom(Apply(s, l), more) && !Safe(Continue(Apply(s, l), more))
  {
    hide Bound, OnlyUses, Payload.SendPayload, Attempts, Executable, ProcStep;
    var s1 := Apply(s, l);
    ApplyKeepsBound(s, l);
    UsedIsExecutable(s, id);
    OpExtends(s.rows, OpOf(s, l));
    StillExecutable(s.rows, s1.rows, id);
    OpAttempts(s.rows, s.log, OpOf(s, l), id);
    assert s1.rows[id].status == Approved;
    if Attempts(s.log, id) > 0 {
      more := ApprovedAttempts(s1, id);
    } else {
      var pid :| pid in Owners(s.procs, id);
      assert pid in s1.procs && s1.procs[pid].OwnsId(id) by { WriteKeepsOwners(s, l, pid, id); }
      OwnerAttempts(s1, pid, id);
      var s2 := Apply(s1, Go(pid, true));
      BoundAfter(s1, s2, id);
      var rest := ApprovedAttempts(s2, id);
      more := [Go(pid, true)] + rest;
      OneLabel(s1, Go(pid, true));
      ContinueConcat(s1, [Go(pid, true)], rest);
    }
    assert !SafeFor(Continue(s1, more), id);
  }

  lemma UsedIsExecutable(s: State, id: nat)
    requires Bound(s) && id < |s.rows| && !Claimable(s, id) && Tokens(s, id) > 0
    ensures Executable(s.rows, id)
  {
    hide Payload.SendPayload, Attempts;
    if pid :| pid in Owners(s.procs, id) {
      assert ProcOk(s, s.procs[pid]);
      var kind := s.procs[pid].Running().value.kind;
      assert kind.Accepts(s.rows[id]);
      if kind.SendMessage? {
        assert Carries(s.rows, id, kind.m);
      }
    } else {
      assert Owners(s.procs, id) == {};
      var k := SomeAttempt(s.log, id);
      assert EventOk(s.rows, s.log[k]);
    }
  }

  lemma {:induction false} SomeAttempt(log: Log, id: nat) returns (k: nat)
    requires Attempts(log, id) > 0
    ensures k < |log| && log[k].WasAttempted? && log[k].id == id
  {
    k := |log| - 1;
    if !(log[k].WasAttempted? && log[k].id == id) {
      k := SomeAttempt(log[..k], id);
    }
  }

  lemma WriteKeepsOwners(s: State, l: Label, pid: nat, id: nat)
    requires WriteOf(s, l).Some? && pid in s.procs && s.procs[pid].OwnsId(id)
    ensures pid in Apply(s, l).procs && Apply(s, l).procs[pid].OwnsId(id)
  {
    hide Payload.SendPayload;
  }

  /** Chunk `c` and the whole reply it belongs to both went out. */
  predicate BothOut(s: State, c: nat) {
    c in s.chunkOf && Attempts(s.log, c) > 0 && Attempts(s.log, s.chunkOf[c].orig) > 0
  }

  lemma BothOutIsUnsafe(s: State, c: nat)
    requires BothOut(s, c)
    ensures !Safe(s)
  {
    hide Attempts;
    assert !SafeFor(s, c);
  }

  /** Two approvals that exclude each other, each with a token, can both become attempts. */
  lemma BothAttempted(s: State, c: nat, orig: nat) returns (more: seq<Label>)
    requires Bound(s) && c in s.chunkOf && s.chunkOf[c].orig == orig
    requires Tokens(s, c) > 0 && Tokens(s, orig) > 0
    ensures PromptFrom(s, more) && BothOut(Continue(s, more), c) && Continue(s, more).chunkOf == s.chunkOf
  {
    hide Bound, OnlyUses, Tokens, Attempts, Payload.SendPayload;
    ChunkExecutable(s, c);
    var first := TokenAttempts(s, c);
    var s1 := Continue(s, first);
    UsesKeeps(s, s1, c, orig);
    ChunkExecutable(s1, c);
    var then' := TokenAttempts(s1, orig);
    var s2 := Continue(s1, then');
    UsesKeeps(s1, s2, orig, c);
    more := first + then';
    ContinueConcat(s, first, then');
  }

  lemma UsesKeeps(s: State, s': State, id: nat, k: nat)
    requires OnlyUses(s, s', id) && k != id
    ensures Bound(s') && s'.chunkOf == s.chunkOf && Attempts(s'.log, k) >= Attempts(s.log, k)
    ensures Tokens(s, k) > 0 ==> Tokens(s', k) > 0
  {
    hide Bound, Tokens, Attempts;
  }

  lemma ChunkExecutable(s: State, c: nat)
    requires Bound(s) && c in s.chunkOf
    ensures var orig := s.chunkOf[c].orig;
      orig < c < |s.rows| && Executable(s.rows, c) && Executable(s.rows, orig)
  {
    hide Payload.SendPayload;
    assert ChunkOk(s, c);
    assert Carries(s.rows, c, s.chunkOf[c].chunk) && Carries(s.rows, s.chunkOf[c].orig, s.chunkOf[c].whole);
  }

  lemma WriteKeepsRest(s: State, l: Label, id: nat, k: nat)
    requires WriteOf(s, l) == Some(Decision(id, true)) && k != id && k < |s.rows| && id < |s.rows|
    ensures Tokens(s, k) > 0 ==> Tokens(Apply(s, l), k) > 0
    ensures Apply(s, l).chunkOf == s.chunkOf
    ensures Tokens(Apply(s, l), id) > 0
  {
    hide Payload.SendPayload, Owners, Attempts;
    var s1 := Apply(s, l);
    OpAttempts(s.rows, s.log, OpOf(s, l), k);
    if l.Go? {
      OwnersUpdate(s.procs, l.pid, s1.procs[l.pid], k);
    }
  }

  lemma WriteKeepsLoops(s: State, l: Label, pid: nat, id: nat)
    requires WriteOf(s, l).Some? && pid in s.procs && s.procs[pid].MoreToCome(id)
    ensures pid in Apply(s, l).procs && Apply(s, l).procs[pid].MoreToCome(id)
  {
    hide Payload.SendPayload;
  }

  /** A late approval of a reply that goes out in chunks lets both go out. */
  lemma WholeAfterChunks(s: State, l: Label, id: nat) returns (more: seq<Label>)
    requires Bound(s) && id < |s.rows| && WriteOf(s, l) == Some(Decision(id, true)) && Stirring(s, id)
    ensures PromptFrom(Apply(s, l), more)
    ensures var s' := Continue(Apply(s, l), more); exists c :: BothOut(s', c) && s'.chunkOf[c].orig == id
  {
    hide Bound, Tokens, Apply, Payload.SendPayload, WriteOf, Attempts;
    var s1 := Apply(s, l);
    ApplyKeepsBound(s, l);
    if c :| c in s.chunkOf && s.chunkOf[c].orig == id && Tokens(s, c) > 0 {
      ChunkExecutable(s, c);
      WriteKeepsRest(s, l, id, c);
      more := BothAttempted(s1, c, id);
    } else {
      var pid :| pid in s.procs && s.procs[pid].MoreToCome(id);
      WriteKeepsLoops(s, l, pid, id);
      var first := LoopGoesOn(s1, pid, id);
      var s2 := Continue(s1, first);
      var c :| c in s2.chunkOf && s2.chunkOf[c].orig == id && Tokens(s2, c) > 0;
      assert Tokens(s2, id) > 0 by { ApprovedHasToken(s, l, id, s2); }
      var rest := BothAttempted(s2, c, id);
      more := first + rest;
      ContinueConcat(s1, first, rest);
    }
  }

  lemma ApprovedHasToken(s: State, l: Label, id: nat, s2: State)
    requires id < |s.rows| && WriteOf(s, l) == Some(Decision(id, true))
    requires id < |s2.rows| && id < |Apply(s, l).rows| && s2.rows[id] == Apply(s, l).rows[id]
    ensures Tokens(s2, id) > 0
  {
    hide Payload.SendPayload, Owners, Attempts;
  }

  /** A write can be followed, without any further late write, by a second attempt or by a chunk next
      to the whole reply, exactly when it is not harmless. */
  lemma LateWriteExact(labels: seq<Label>, l: Label)
    requires HarmlessFrom(INIT, labels) && WriteOf(Run(labels), l).Some?
    ensures var (s, s') := (Run(labels), Apply(Run(labels), l));
      (forall more :: PromptFrom(s', more) ==> Safe(Continue(s', more))) <==> Harmless(s, WriteOf(s, l).value)
  {
    hide Bound, Once, Apart, Tokens, Stirring, Apply, OpOf, Continue, PromptFrom;
    InitSound();
    ContinueKeepsSound(INIT, labels);
    var s := Run(labels);
    var s', d := Apply(s, l), WriteOf(s, l).value;
    DecisionInTable(s, l);
    if Harmless(s, d) {
      ApplyKeepsBound(s, l);
      ApplyKeepsOnce(s, l);
      ApplyKeepsApart(s, l);
      forall more | PromptFrom(s', more) ensures Safe(Continue(s', more)) {
        PromptIsHarmless(s', more);
        ContinueKeepsSound(s', more);
        SoundIsSafe(Continue(s', more));
      }
    } else {
      var more := HarmfulBreaks(s, l);
      assert PromptFrom(s', more) && !Safe(Continue(s', more));
    }
  }

  lemma HarmfulBreaks(s: State, l: Label) returns (more: seq<Label>)
    requires Bound(s) && WriteOf(s, l).Some? && WriteOf(s, l).value.id < |s.rows|
    requires !Harmless(s, WriteOf(s, l).value)
    ensures PromptFrom(Apply(s, l), more) && !Safe(Continue(Apply(s, l), more))
  {
    hide Bound, Tokens, Stirring, Apply, OpOf, Continue, PromptFrom, Safe;
    var id := WriteOf(s, l).value.id;
    if Tokens(s, id) > 0 {
      more := SecondToken(s, l, id);
    } else if Stirring(s, id) {
      more := WholeAfterChunks(s, l, id);
      var s' := Continue(Apply(s, l), more);
      var c :| BothOut(s', c) && s'.chunkOf[c].orig == id;
      BothOutIsUnsafe(s', c);
    } else {
      var orig := s.chunkOf[id].orig;
      ChunkExecutable(s, id);
      WriteKeepsRest(s, l, id, orig);
      ApplyKeepsBound(s, l);
      more := BothAttempted(Apply(s, l), id, orig);
      BothOutIsUnsafe(Continue(Apply(s, l), more), id);
    }
  }

  /** Two responders read the same pending approval. The first one's write is used at once; the
      second one's write makes the used approval good for another send of the same message. */
  lemma TwoRespondersSendTwice(m: Message)
    ensures var log := Run(TwoResponders(m)).log;
      && Attempts(log, 0) == 2 && |log| == 7
      && log[2..4] == [WasClaimed(0), WasAttempted(0, Transport(m))] == log[5..7]
  {
    hide Payload.SendPayload, Apply;
    var payload := Some(Payload.SendPayload(m));
    var d := Decision(0, true);
    var approved := [Row(SEND, payload, Approved)];
    var both := map[0 := d, 1 := d];
    var opening := [Request(SEND, payload)] + [Read(0, d)] + [Read(1, d)] + [Write(0)];
    var log: Log := [WasRequested(0), WasDecided(0, true)];
    Opening(m);
    var s1 := Run(opening);
    ApprovedSent(s1, 0, m);
    ContinueConcat(INIT, opening, SendOf(0, m));
    var s2 := Run(opening + SendOf(0, m));
    ContinueStep(INIT, opening + SendOf(0, m), Write(1));
    var s3 := Run(opening + SendOf(0, m) + [Write(1)]);
    assert s3 == Apply(s2, Write(1));
    LateApproval(s2, m);
    ApprovedSent(s3, 1, m);
    ContinueConcat(INIT, opening + SendOf(0, m) + [Write(1)], SendOf(1, m));
    var sent: Log := [WasClaimed(0)] + [WasAttempted(0, Transport(m))];
    TwoAttempts(log, sent, Transport(m));
    assert Run(TwoResponders(m)).log == log + sent + [WasDecided(0, true)] + sent;
  }

  function TwoResponders(m: Message): seq<Label> {
    [Request(SEND, Some(Payload.SendPayload(m)))]
    + [Read(0, Decision(0, true))] + [Read(1, Decision(0, true))] + [Write(0)]
    + SendOf(0, m) + [Write(1)] + SendOf(1, m)
  }

  /** A caller of approval 0 up to its attempt. */
  function SendOf(pid: nat, m: Message): seq<Label> {
    [Spawn(pid, Caller(Call(0, SendMessage(m), Start)))] + [Go(pid, true)] + [Go(pid, true)] + [Go(pid, true)]
  }

  lemma Opening(m: Message)
    ensures var payload, d := Some(Payload.SendPayload(m)), Decision(0, true);
      Run([Request(SEND, payload)] + [Read(0, d)] + [Read(1, d)] + [Write(0)])
        == State([Row(SEND, payload, Approved)], map[], [WasRequested(0), WasDecided(0, true)], map[], map[1 := d])
  {
    hide Payload.SendPayload, Continue;
    var payload, d := Some(Payload.SendPayload(m)), Decision(0, true);
    var rows := [Row(SEND, payload, Pending)];
    var log: Log := [WasRequested(0)];
    OneLabel(INIT, Request(SEND, payload));
    ContinueStep(INIT, [Request(SEND, payload)], Read(0, d));
    ContinueStep(INIT, [Request(SEND, payload)] + [Read(0, d)], Read(1, d));
    ContinueStep(INIT, [Request(SEND, payload)] + [Read(0, d)] + [Read(1, d)], Write(0));
    assert Run([Request(SEND, payload)]) == State(rows, map[], log, map[], map[]);
    assert log + [] == log;
    assert Run([Request(SEND, payload)] + [Read(0, d)]) == State(rows, map[], log, map[], map[0 := d]);
    assert Run([Request(SEND, payload)] + [Read(0, d)] + [Read(1, d)])
        == State(rows, map[], log, map[], map[0 := d, 1 := d]);
    assert map[0 := d, 1 := d] - {0} == map[1 := d];
    assert log + [WasDecided(0, true)] == [WasRequested(0), WasDecided(0, true)];
  }

  lemma ApprovedSent(s: State, pid: nat, m: Message)
    requires pid !in s.procs && s.rows == [Row(SEND, Some(Payload.SendPayload(m)), Approved)]
    ensures var s' := Continue(s, SendOf(pid, m));
      && s'.rows == [Row(SEND, Some(Payload.SendPayload(m)), Executing)]
      && s'.log == s.log + ([WasClaimed(0)] + [WasAttempted(0, Transport(m))])
      && s'.responders == s.responders && s'.procs.Keys == s.procs.Keys + {pid}
  {
    hide Payload.SendPayload, Continue;
    var payload, call := Some(Payload.SendPayload(m)), Call(0, SendMessage(m), Start);
    var s1 := s.(procs := s.procs[pid := Caller(call)]);
    assert Apply(s, Spawn(pid, Caller(call))) == s1 by { assert s.log + [] == s.log; }
    var s2 := s1.(procs := s1.procs[pid := Caller(call.(pc := Checked(payload)))]);
    CheckStep(s1, pid);
    var s3 := State([Row(SEND, payload, Executing)], s2.procs[pid := Caller(call.(pc := Owns(payload)))],
                    s.log + [WasClaimed(0)], s.chunkOf, s.responders);
    assert Apply(s2, Go(pid, true)) == s3;
    var s4 := s3.(procs := s3.procs[pid := Caller(call.(pc := Tried))],
                  log := s3.log + [WasAttempted(0, Transport(m))]);
    assert Apply(s3, Go(pid, true)) == s4;
    FourLabels(s, Spawn(pid, Caller(call)), Go(pid, true));
  }

  lemma LateApproval(s: State, m: Message)
    requires s.rows == [Row(SEND, Some(Payload.SendPayload(m)), Executing)]
    requires s.responders == map[1 := Decision(0, true)]
    ensures var s' := Apply(s, Write(1));
      && s'.rows == [Row(SEND, Some(Payload.SendPayload(m)), Approved)]
      && s'.log == s.log + [WasDecided(0, true)] && s'.procs == s.procs
  {
    hide Payload.SendPayload;
  }

  lemma TwoAttempts(log: Log, sent: Log, effect: Effect<Message>)
    requires log == [WasRequested(0), WasDecided(0, true)] && sent == [WasClaimed(0)] + [WasAttempted(0, effect)]
    ensures Attempts(log + sent + [WasDecided(0, true)] + sent, 0) == 2
  {
    hide Attempts;
    assert [] + [WasRequested(0)] + [WasDecided(0, true)] == log;
    assert Attempts([], 0) == 0 by { NoAttemptsOutside([], [], 0); }
    AttemptsStep([], WasRequested(0), 0);
    AttemptsStep([] + [WasRequested(0)], WasDecided(0, true), 0);
    assert log + sent == log + [WasClaimed(0)] + [WasAttempted(0, effect)];
    AttemptsStep(log, WasClaimed(0), 0);
    AttemptsStep(log + [WasClaimed(0)], WasAttempted(0, effect), 0);
    var h := log + sent + [WasDecided(0, true)];
    AttemptsStep(log + sent, WasDecided(0, true), 0);
    assert h + sent == h + [WasClaimed(0)] + [WasAttempted(0, effect)];
    AttemptsStep(h, WasClaimed(0), 0);
    AttemptsStep(h + [WasClaimed(0)], WasAttempted(0, effect), 0);
  }

  /** A guardian's approval of a long reply that was read as pending before the reply was split. */
  function SplitWhileApproving(m: Message, chunks: seq<Payload.PyStr>): seq<Label> {
    [Request(SEND, Some(Payload.SendPayload(m)))] + [Read(0, Decision(0, true))]
    + [Spawn(0, Chunker(0, m, chunks, Superseding))] + [Go(0, true)]
  }

  lemma SplitState(m: Message, chunks: seq<Payload.PyStr>)
    ensures Run(SplitWhileApproving(m, chunks))
         == State([Row(SEND, Some(Payload.SendPayload(m)), Superseded)], map[0 := Chunker(0, m, chunks, Turn(0))],
                  [WasRequested(0), WasSuperseded(0)], map[], map[0 := Decision(0, true)])
  {
    hide Payload.SendPayload, Continue;
    var payload, d := Some(Payload.SendPayload(m)), Decision(0, true);
    var rows, p := [Row(SEND, payload, Pending)], Chunker(0, m, chunks, Superseding);
    var log: Log := [WasRequested(0)];
    OneLabel(INIT, Request(SEND, payload));
    ContinueStep(INIT, [Request(SEND, payload)], Read(0, d));
    ContinueStep(INIT, [Request(SEND, payload)] + [Read(0, d)], Spawn(0, p));
    ContinueStep(INIT, [Request(SEND, payload)] + [Read(0, d)] + [Spawn(0, p)], Go(0, true));
    assert log + [] == log;
    assert Run([Request(SEND, payload)]) == State(rows, map[], log, map[], map[]);
    assert Run([Request(SEND, payload)] + [Read(0, d)]) == State(rows, map[], log, map[], map[0 := d]);
    assert Run([Request(SEND, payload)] + [Read(0, d)] + [Spawn(0, p)])
        == State(rows, map[0 := p], log, map[], map[0 := d]);
    assert log + [WasSuperseded(0)] == [WasRequested(0), WasSuperseded(0)];
  }

  /** If the write of that approval lands after the reply was superseded for its chunks, a run without
      any further late write sends both the whole reply and a chunk of it. */
  lemma SplitReplySentWhole(m: Message, chunks: seq<Payload.PyStr>) returns (more: seq<Label>)
    requires chunks != []
    ensures var s' := Run(SplitWhileApproving(m, chunks) + [Write(0)] + more);
      exists c :: BothOut(s', c) && s'.chunkOf[c].orig == 0
  {
    hide Continue, Payload.SendPayload, Attempts, SplitWhileApproving, PromptFrom, Bound, Tokens, Apply, BothOut;
    var opening := SplitWhileApproving(m, chunks);
    var s := Run(opening);
    RunIsBound(opening);
    SplitState(m, chunks);
    assert s.procs[0].MoreToCome(0);
    assert Stirring(s, 0);
    more := WholeAfterChunks(s, Write(0), 0);
    ContinueStep(INIT, opening, Write(0));
    ContinueConcat(INIT, opening + [Write(0)], more);
    assert Run(opening + [Write(0)] + more) == Continue(Apply(s, Write(0)), more);
  }
}
