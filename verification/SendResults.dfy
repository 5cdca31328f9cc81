/** What every run of the send protocol keeps: at most one attempt, authorised attempts, stored payloads,
    and the whole reply or its chunks. */
module SendResults {
  import opened PyText
  import opened Approvals
  import Payload
  import opened SendProtocol
  import opened SendTokens
  import opened SendSteps

  lemma {:induction false} AttemptsCounted(log: Log, j: nat, k: nat)
    requires j < k < |log| && log[j].WasAttempted? && log[k].WasAttempted? && log[j].id == log[k].id
    ensures Attempts(log, log[k].id) >= 2
  {
    var id, before := log[k].id, log[..|log| - 1];
    if k == |log| - 1 {
      AttemptCounted(before, j);
    } else {
      AttemptsCounted(before, j, k);
    }
  }

  lemma {:induction false} AttemptCounted(log: Log, k: nat)
    requires k < |log| && log[k].WasAttempted?
    ensures Attempts(log, log[k].id) >= 1
  {
    if k == |log| - 1 {
    } else {
      AttemptCounted(log[..|log| - 1], k);
    }
  }

  /** However callers, responders and crashes interleave, as long as late writes are harmless an
      approval reaches the outside world at most once. */
  lemma AtMostOneAttempt(labels: seq<Label>, j: nat, k: nat)
    requires HarmlessFrom(INIT, labels)
    requires j < k < |Run(labels).log| && Run(labels).log[j].WasAttempted? && Run(labels).log[k].WasAttempted?
    ensures Run(labels).log[j].id != Run(labels).log[k].id
  {
    hide Continue, HarmlessFrom, Attempts, Bound, Once, Apart;
    InitSound();
    ContinueKeepsSound(INIT, labels);
    SoundIsSafe(Run(labels));
    var log := Run(labels).log;
    assert SafeFor(Run(labels), log[k].id);
    if log[j].id == log[k].id {
      AttemptsCounted(log, j, k);
    }
  }

  ghost predicate Granted(log: Log, id: nat) {
    exists i :: 0 <= i < |log| && log[i] == WasDecided(id, true) && WasRequested(id) in log[..i]
  }

  ghost predicate Taken(log: Log, id: nat) {
    exists j :: 0 <= j < |log| && log[j] == WasClaimed(id) && Granted(log[..j], id)
  }

  /** Before event `k`: requested, then approved, then claimed. */
  ghost predicate Authorised(log: Log, k: nat)
    requires k < |log|
  {
    Taken(log[..k], log[k].id)
  }

  lemma GrantedLater(log: Log, log': Log, id: nat)
    requires log <= log'
    ensures Granted(log, id) ==> Granted(log', id)
    ensures Taken(log, id) ==> Taken(log', id)
  {
    if Granted(log, id) {
      var i :| 0 <= i < |log| && log[i] == WasDecided(id, true) && WasRequested(id) in log[..i];
      assert log'[i] == log[i] && log'[..i] == log[..i];
    }
    if Taken(log, id) {
      var j :| 0 <= j < |log| && log[j] == WasClaimed(id) && Granted(log[..j], id);
      assert log'[j] == log[j] && log'[..j] == log[..j];
    }
  }

  ghost predicate Documented(s: State) {
    && (forall id: nat :: id < |s.rows| ==> WasRequested(id) in s.log)
    && (forall id: nat :: id < |s.rows| && s.rows[id].status == Approved ==> Granted(s.log, id))
    && (forall pid, id: nat :: pid in s.procs && s.procs[pid].OwnsId(id) ==> Taken(s.log, id))
    && (forall k :: 0 <= k < |s.log| && s.log[k].WasAttempted? ==> Authorised(s.log, k))
  }

  /** How a row comes to be approved, a caller to own it, and an attempt to be made. */
  lemma StepDocuments(s: State, l: Label, pid: nat, id: nat)
    requires Bound(s)
    ensures var (op, s') := (OpOf(s, l), Apply(s, l));
      && (id < |s'.rows| && s'.rows[id].status == Approved ==>
            (id < |s.rows| && s.rows[id].status == Approved) || op == Decide(Decision(id, true)))
      && (pid in s'.procs && s'.procs[pid].OwnsId(id) ==>
            || (pid in s.procs && s.procs[pid].OwnsId(id))
            || (op == Claim(id) && id < |s.rows| && s.rows[id].status == Approved))
      && (op.Attempt? ==> l.Go? && l.pid in s.procs && s.procs[l.pid].OwnsId(op.id))
  {
    hide Payload.SendPayload, Bound;
  }

  lemma ApplyKeepsDocumented(s: State, l: Label)
    requires Bound(s) && Documented(s)
    ensures Documented(Apply(s, l))
  {
    hide Bound, ProcStep, Granted, Taken;
    var op, s' := OpOf(s, l), Apply(s, l);
    OpExtends(s.rows, op);
    RowsGrow(s, l);
    forall id: nat | id < |s'.rows| ensures WasRequested(id) in s'.log {
      assert id == |s.rows| ==> s'.log[|s.log|] == WasRequested(id);
    }
    forall id: nat | id < |s'.rows| && s'.rows[id].status == Approved ensures Granted(s'.log, id) {
      StepDocuments(s, l, 0, id);
      GrantedLater(s.log, s'.log, id);
      if !(id < |s.rows| && s.rows[id].status == Approved) {
        DecisionInTable(s, l);
        NewlyGranted(s.log, s'.log, id);
      }
    }
    forall pid, id: nat | pid in s'.procs && s'.procs[pid].OwnsId(id) ensures Taken(s'.log, id) {
      StepDocuments(s, l, pid, id);
      GrantedLater(s.log, s'.log, id);
      if !(pid in s.procs && s.procs[pid].OwnsId(id)) {
        NewlyTaken(s.log, s'.log, id);
      }
    }
    forall k | 0 <= k < |s'.log| && s'.log[k].WasAttempted? ensures Authorised(s'.log, k) {
      if k < |s.log| {
        assert Authorised(s.log, k) && s'.log[..k] == s.log[..k];
      } else {
        StepDocuments(s, l, 0, 0);
        assert s'.log[..k] == s.log;
      }
    }
  }

  lemma NewlyGranted(log: Log, log': Log, id: nat)
    requires log' == log + [WasDecided(id, true)] && WasRequested(id) in log
    ensures Granted(log', id)
  {
    assert log'[|log|] == WasDecided(id, true) && log'[..|log|] == log;
  }

  lemma NewlyTaken(log: Log, log': Log, id: nat)
    requires log' == log + [WasClaimed(id)] && Granted(log, id)
    ensures Taken(log', id)
  {
    hide Granted;
    assert log'[|log|] == WasClaimed(id) && log'[..|log|] == log;
  }

  /** In every run, late writes or not, an attempt was preceded by a request, then an approval, then
      a claim, of that very id. */
  lemma {:induction false} AttemptsAreAuthorised(labels: seq<Label>)
    ensures Documented(Run(labels))
  {
    hide Apply, Documented;
    if labels == [] {
      assert Documented(INIT) by { InitDocumented(); }
    } else {
      var before := labels[..|labels| - 1];
      AttemptsAreAuthorised(before);
      RunIsBound(before);
      ApplyKeepsDocumented(Run(before), labels[|labels| - 1]);
    }
  }

  lemma InitDocumented()
    ensures Documented(INIT)
  {
  }

  /** In every run what goes out is what was stored: the transported message is, character for
      character and id for id, any message whose payload the approval carries. */
  lemma AttemptIsTheStoredOne(labels: seq<Label>, k: nat, stored: Message)
    requires k < |Run(labels).log| && Run(labels).log[k].WasAttempted?
    ensures var e := Run(labels).log[k]; e.id < |Run(labels).rows|
    ensures var (e, rows) := (Run(labels).log[k], Run(labels).rows);
      rows[e.id].payload == Some(Payload.SendPayload(stored)) && e.effect.Transport? ==>
        && e.effect.message.conversation == stored.conversation
        && e.effect.message.replyTo == stored.replyTo
        && Payload.Joined(e.effect.message.body) == Payload.Joined(stored.body)
    ensures var (e, rows) := (Run(labels).log[k], Run(labels).rows);
      e.effect.RunAction? ==> rows[e.id].action == BRAIN && rows[e.id].payload == e.effect.payload
  {
    hide Continue, Payload.SendPayload, Payload.Joined;
    RunIsBound(labels);
    var s := Run(labels);
    var e := s.log[k];
    assert EventOk(s.rows, e);
    if e.effect.Transport? {
      Payload.PayloadPinsMessage(e.effect.message, stored);
    }
  }

  /** A row that is neither pending nor approved becomes claimable in one way only. */
  lemma ClaimableAgainIff(s: State, l: Label, id: nat)
    requires id < |s.rows|
    ensures var s' := Apply(s, l);
      && id < |s'.rows| && s'.rows[id].action == s.rows[id].action && s'.rows[id].payload == s.rows[id].payload
      && (!Claimable(s, id) ==> (Claimable(s', id) <==> Revives(s, l, id)))
  {
    hide Payload.SendPayload, ProcStep;
    OpExtends(s.rows, OpOf(s, l));
    if l.Go? && l.pid in s.procs && !Claimable(s, id) {
      ProcFrees(s.rows, s.procs[l.pid], l.works, id);
    }
  }

  lemma ProcFrees(rows: Table, p: Proc, works: bool, id: nat)
    requires id < |rows| && rows[id].status !in {Pending, Approved}
    ensures var op := ProcStep(rows, p, works).0;
      OpRows(rows, op)[id].status in {Pending, Approved} <==> op == Decide(Decision(id, true))
  {
    hide Payload.SendPayload;
  }

  /** A row's action and payload never change, and once an approval has been claimed, refused or
      withdrawn, only an approval written late makes it claimable again. */
  lemma {:induction false} ClaimedStaysClaimed(s: State, more: seq<Label>, id: nat)
    requires id < |s.rows|
    ensures var s' := Continue(s, more);
      && id < |s'.rows| && s'.rows[id].action == s.rows[id].action && s'.rows[id].payload == s.rows[id].payload
      && (!Claimable(s, id) && Claimable(s', id) ==>
            exists k :: 0 <= k < |more| && Revives(Continue(s, more[..k]), more[k], id))
    decreases |more|
  {
    hide Apply, Claimable, Revives;
    if more == [] {
    } else {
      var n := |more| - 1;
      var before := more[..n];
      ClaimedStaysClaimed(s, before, id);
      ClaimableAgainIff(Continue(s, before), more[n], id);
      if !Claimable(s, id) && Claimable(Continue(s, before), id) {
        var k :| 0 <= k < |before| && Revives(Continue(s, before[..k]), before[k], id);
        assert before[..k] == more[..k] && before[k] == more[k];
      }
    }
  }

  /** A chunk loop past its first statement that has not stopped. */
  predicate InChunks(p: Proc) {
    p.Chunker? && !p.at.Superseding? && !p.at.Stopped?
  }

  /** Where no write comes late, a reply is superseded before its first chunk is requested, and
      stays so. */
  ghost predicate ChunkedIsSuperseded(s: State) {
    && (forall c :: c in s.chunkOf ==> HasStatus(s.rows, s.chunkOf[c].orig, Superseded))
    && (forall pid :: pid in s.procs && InChunks(s.procs[pid]) ==>
          HasStatus(s.rows, s.procs[pid].orig, Superseded))
  }

  predicate HasStatus(rows: Table, id: nat, status: Status) {
    id < |rows| && rows[id].status == status
  }

  lemma SupersededStays(s: State, l: Label, id: nat)
    requires PromptAt(s, l) && HasStatus(s.rows, id, Superseded)
    ensures HasStatus(Apply(s, l).rows, id, Superseded)
  {
    hide Payload.SendPayload;
  }

  /** A chunk loop leaves its first statement only by superseding the reply. */
  lemma LoopSupersedes(rows: Table, p: Proc, works: bool)
    requires p.Chunker?
    ensures var (op, p', o) := ProcStep(rows, p, works);
      && p'.Chunker? && p'.orig == p.orig
      && (o.Some? ==> o.value.orig == p.orig && !p.at.Superseding? && !p.at.Stopped?)
      && (!p'.at.Superseding? && !p'.at.Stopped? ==>
            if p.at.Superseding? then HasStatus(OpRows(rows, op), p.orig, Superseded) else !p.at.Stopped?)
  {
    hide Payload.SendPayload, CallStep;
  }

  lemma ApplyKeepsSuperseded(s: State, l: Label)
    requires ChunkedIsSuperseded(s) && PromptAt(s, l)
    ensures ChunkedIsSuperseded(Apply(s, l))
  {
    hide ProcStep, HasStatus, PromptAt;
    var s' := Apply(s, l);
    var p := if l.Go? && l.pid in s.procs then s.procs[l.pid] else Caller(Call(0, RunBrainAction, Start));
    if p.Chunker? {
      LoopSupersedes(s.rows, p, l.works);
      if !p.at.Superseding? && !p.at.Stopped? {
        SupersededStays(s, l, p.orig);
      }
    } else {
      CallerStays(s.rows, p, l);
    }
    forall c | c in s'.chunkOf ensures HasStatus(s'.rows, s'.chunkOf[c].orig, Superseded) {
      if c in s.chunkOf && s'.chunkOf[c] == s.chunkOf[c] {
        SupersededStays(s, l, s.chunkOf[c].orig);
      }
    }
    forall pid | pid in s'.procs && InChunks(s'.procs[pid])
      ensures HasStatus(s'.rows, s'.procs[pid].orig, Superseded)
    {
      if pid in s.procs && s'.procs[pid] == s.procs[pid] {
        SupersededStays(s, l, s.procs[pid].orig);
      }
    }
  }

  lemma CallerStays(rows: Table, p: Proc, l: Label)
    requires p.Caller?
    ensures l.Go? ==> ProcStep(rows, p, l.works).1.Caller? && ProcStep(rows, p, l.works).2 == None
  {
    hide CallStep;
  }

  ghost predicate SupersededSpent(s: State) {
    forall id: nat :: HasStatus(s.rows, id, Superseded) ==> Tokens(s, id) == 0
  }

  lemma ApplyKeepsSpent(s: State, l: Label)
    requires Once(s) && PromptAt(s, l) && SupersededSpent(s)
    ensures SupersededSpent(Apply(s, l))
  {
    hide Tokens, ProcStep;
    var s' := Apply(s, l);
    forall id: nat | HasStatus(s'.rows, id, Superseded) ensures Tokens(s', id) == 0 {
      if HasStatus(s.rows, id, Superseded) {
        StaysWithoutTokens(s, l, id);
      } else {
        assert OpOf(s, l) == Retire(id);
        RetireIsGuarded(s.rows, s.procs[l.pid], l.works);
        RetiredHasNoTokens(s, l, id);
      }
    }
  }

  lemma RetireIsGuarded(rows: Table, p: Proc, works: bool)
    ensures var op := ProcStep(rows, p, works).0;
      op.Retire? ==> op.id < |rows| && rows[op.id].status in {Pending, Approved}
  {
    hide Payload.SendPayload;
  }

  lemma NothingRetired()
    ensures ChunkedIsSuperseded(INIT) && SupersededSpent(INIT)
  {
  }

  lemma {:induction false} PromptRunSupersedes(labels: seq<Label>)
    requires PromptFrom(INIT, labels)
    ensures ChunkedIsSuperseded(Run(labels)) && SupersededSpent(Run(labels))
  {
    hide Apply, PromptAt, HasStatus, Tokens, Bound, Apart;
    if labels == [] {
      NothingRetired();
    } else {
      var before := labels[..|labels| - 1];
      PromptRunSupersedes(before);
      PromptIsHarmless(INIT, before);
      InitSound();
      ContinueKeepsSound(INIT, before);
      ApplyKeepsSuperseded(Run(before), labels[|labels| - 1]);
      ApplyKeepsSpent(Run(before), labels[|labels| - 1]);
    }
  }

  /** A long reply and its chunks are never both sent: where an approval was queued for a chunk, the
      approval of the whole reply carries the whole reply's payload, and if the chunk was attempted
      the whole was not and cannot be. Each chunk goes out under an approval of its own, for exactly
      that chunk. If no write came late, the whole stands superseded. */
  lemma WholeReplyXorChunks(labels: seq<Label>, c: nat)
    requires HarmlessFrom(INIT, labels) && c in Run(labels).chunkOf
    ensures var s := Run(labels);
      var o := s.chunkOf[c];
      && Carries(s.rows, o.orig, o.whole) && Carries(s.rows, c, o.chunk)
      && o.i < |o.chunks| && o.chunk == Payload.Message(o.whole.conversation, o.chunks[o.i], None)
      && (Attempts(s.log, c) > 0 || Claimable(s, c) ==> Attempts(s.log, o.orig) == 0 && !Claimable(s, o.orig))
      && (forall k :: 0 <= k < |s.log| && s.log[k].WasAttempted? && s.log[k].id == c ==>
            s.log[k].effect.Transport?
            && Payload.SendPayload(s.log[k].effect.message) == Payload.SendPayload(o.chunk))
      && (PromptFrom(INIT, labels) ==>
            s.rows[o.orig] == Row(SEND, Some(Payload.SendPayload(o.whole)), Superseded) && Attempts(s.log, o.orig) == 0)
  {
    hide Continue, HarmlessFrom, PromptFrom, Payload.SendPayload, Attempts, Owners;
    InitSound();
    ContinueKeepsSound(INIT, labels);
    var s := Run(labels);
    assert ChunkOk(s, c);
    var o := s.chunkOf[c];
    if Attempts(s.log, c) > 0 || Claimable(s, c) {
      assert Tokens(s, c) > 0;
      assert Stirring(s, o.orig);
    }
    forall k | 0 <= k < |s.log| && s.log[k].WasAttempted? && s.log[k].id == c
      ensures s.log[k].effect.Transport?
           && Payload.SendPayload(s.log[k].effect.message) == Payload.SendPayload(o.chunk)
    {
      assert EventOk(s.rows, s.log[k]);
    }
    if PromptFrom(INIT, labels) {
      PromptRunSupersedes(labels);
    }
  }
}
