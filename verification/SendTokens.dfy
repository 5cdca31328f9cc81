/** Tokens: what can still become an attempt of one approval, and what every statement does to them. */
module SendTokens {
  import opened PyText
  import opened Approvals
  import Payload
  import opened SendProtocol

  predicate Claimable(s: State, id: nat) {
    id < |s.rows| && s.rows[id].status in {Pending, Approved}
  }

  function Owners(procs: map<nat, Proc>, id: nat): set<nat> {
    set pid | pid in procs && procs[pid].OwnsId(id)
  }

  function Attempts(log: Log, id: nat): nat {
    if log == [] then 0
    else Attempts(log[..|log| - 1], id) + One(log[|log| - 1].WasAttempted? && log[|log| - 1].id == id)
  }

  function One(b: bool): nat {
    if b then 1 else 0
  }

  /** The right to attempt approval `id`: unclaimed in the table, held by a caller, or used up. */
  function Tokens(s: State, id: nat): nat {
    One(Claimable(s, id)) + |Owners(s.procs, id)| + Attempts(s.log, id)
  }

  lemma AttemptsStep(log: Log, e: Event<Message>, id: nat)
    ensures Attempts(log + [e], id) == Attempts(log, id) + One(e.WasAttempted? && e.id == id)
  {
    assert (log + [e])[..|log|] == log;
  }

  lemma SizeAfterSwap(owners: set<nat>, pid: nat, owns: bool)
    ensures |owners - {pid} + if owns then {pid} else {}| == |owners| - One(pid in owners) + One(owns)
  {
    var rest := owners - {pid};
    if pid in owners {
      assert owners == rest + {pid};
    } else {
      assert owners == rest;
    }
    assert owns || rest + {} == rest;
  }

  lemma OwnersAfterSwap(procs: map<nat, Proc>, pid: nat, p: Proc, id: nat)
    ensures Owners(procs[pid := p], id) == Owners(procs, id) - {pid} + if p.OwnsId(id) then {pid} else {}
  {
    hide Proc.OwnsId;
    var after := procs[pid := p];
    forall q: nat
      ensures q in Owners(after, id) <==> q in Owners(procs, id) - {pid} + if p.OwnsId(id) then {pid} else {}
    {
      if q != pid {
        assert q in after <==> q in procs;
      }
    }
  }

  lemma OwnersUpdate(procs: map<nat, Proc>, pid: nat, p: Proc, id: nat)
    ensures |Owners(procs[pid := p], id)|
         == |Owners(procs, id)| - One(pid in procs && procs[pid].OwnsId(id)) + One(p.OwnsId(id))
  {
    hide Proc.OwnsId, One;
    SizeAfterSwap(Owners(procs, id), pid, p.OwnsId(id));
    OwnersAfterSwap(procs, pid, p, id);
  }

  lemma OwnersRemove(procs: map<nat, Proc>, pid: nat, id: nat)
    ensures |Owners(procs - {pid}, id)| == |Owners(procs, id)| - One(pid in procs && procs[pid].OwnsId(id))
  {
    assert Owners(procs - {pid}, id) == Owners(procs, id) - {pid};
  }

  lemma OpAttempts(rows: Table, log: Log, op: Op, id: nat)
    ensures Attempts(log + OpLog(rows, op), id) == Attempts(log, id) + One(op.Attempt? && op.id == id)
  {
    if OpLog(rows, op) == [] {
      assert log + [] == log;
    } else {
      AttemptsStep(log, OpLog(rows, op)[0], id);
    }
  }

  /** A statement of a process only moves the token of its row: from the table to its hands, from
      there to the log, or away. */
  lemma CallTokens(rows: Table, call: Call, works: bool, id: nat)
    requires id < |rows|
    ensures var (op, call') := CallStep(rows, call, works);
      var owned, owned' := call.pc.Owns? && call.id == id, call'.pc.Owns? && call'.id == id;
      var free, free' := rows[id].status in {Pending, Approved}, OpRows(rows, op)[id].status in {Pending, Approved};
      One(free') + One(owned') + One(op.Attempt? && op.id == id) <= One(free) + One(owned)
  {
    hide Payload.SendPayload;
  }

  lemma ProcTokens(rows: Table, p: Proc, works: bool, id: nat)
    requires id < |rows|
    ensures var (op, p', o) := ProcStep(rows, p, works);
      var free, free' := rows[id].status in {Pending, Approved}, OpRows(rows, op)[id].status in {Pending, Approved};
      One(free') + One(p'.OwnsId(id)) + One(op.Attempt? && op.id == id)
        <= One(free) + One(p.OwnsId(id)) + One(op == Decide(Decision(id, true)) && !free)
  {
    hide Payload.SendPayload, CallStep;
    if p.Caller? {
      CallTokens(rows, p.call, works, id);
    } else if p.at.Sending? {
      CallTokens(rows, p.at.call, works, id);
    }
  }

  /** The unconditional write of a responder, if the label is one. */
  function WriteOf(s: State, l: Label): Option<Decision> {
    if OpOf(s, l).Decide? then Some(OpOf(s, l).decision) else None
  }

  /** An approval written over a row that is neither pending nor approved any more. */
  predicate Revives(s: State, l: Label, id: nat) {
    WriteOf(s, l) == Some(Decision(id, true)) && !Claimable(s, id)
  }

  /** Tokens are conserved: no label makes one for an existing row, except a late approval. */
  lemma TokensConserved(s: State, l: Label, id: nat)
    requires id < |s.rows|
    ensures Tokens(Apply(s, l), id) <= Tokens(s, id) + One(Revives(s, l, id))
  {
    hide ProcStep, Owners, Attempts;
    var op := OpOf(s, l);
    OpExtends(s.rows, op);
    OpAttempts(s.rows, s.log, op, id);
    if l.Go? && l.pid in s.procs {
      ProcTokens(s.rows, s.procs[l.pid], l.works, id);
      OwnersUpdate(s.procs, l.pid, ProcStep(s.rows, s.procs[l.pid], l.works).1, id);
    } else if l.Spawn? {
      OwnersUpdate(s.procs, l.pid, l.proc, id);
    } else if l.Crash? {
      OwnersRemove(s.procs, l.pid, id);
    }
  }

  lemma {:induction false} NoAttemptsOutside(rows: Table, log: Log, id: nat)
    requires id >= |rows| && forall k :: 0 <= k < |log| ==> EventOk(rows, log[k])
    ensures Attempts(log, id) == 0
  {
    hide Payload.SendPayload;
    if log == [] {
    } else {
      assert EventOk(rows, log[|log| - 1]);
      NoAttemptsOutside(rows, log[..|log| - 1], id);
    }
  }

  lemma NoTokensOutside(s: State, id: nat)
    requires Bound(s) && id >= |s.rows|
    ensures Tokens(s, id) == 0
  {
    hide Payload.SendPayload, Attempts;
    NoAttemptsOutside(s.rows, s.log, id);
    forall pid | pid in s.procs ensures !s.procs[pid].OwnsId(id) {
      assert ProcOk(s, s.procs[pid]);
    }
    assert Owners(s.procs, id) == {};
  }

  /** A new row starts with its one token. */
  lemma NewRowTokens(s: State, l: Label)
    requires Bound(s) && |Apply(s, l).rows| > |s.rows|
    ensures Tokens(Apply(s, l), |s.rows|) == 1
  {
    hide ProcStep, Attempts, Bound, EventOk, ProcOk;
    var op, s', id := OpOf(s, l), Apply(s, l), |s.rows|;
    OpExtends(s.rows, op);
    NoTokensOutside(s, id);
    ApplyKeepsBound(s, l);
    OpAttempts(s.rows, s.log, op, id);
    if l.Go? && l.pid in s.procs {
      OwnersUpdate(s.procs, l.pid, ProcStep(s.rows, s.procs[l.pid], l.works).1, id);
      AskOwnsNothing(s.rows, s.procs[l.pid], l.works, id);
    }
  }

  lemma AskOwnsNothing(rows: Table, p: Proc, works: bool, id: nat)
    requires ProcStep(rows, p, works).0.Ask?
    ensures !ProcStep(rows, p, works).1.OwnsId(id)
  {
    hide Payload.SendPayload;
  }

  lemma DecisionInTable(s: State, l: Label)
    requires Bound(s) && WriteOf(s, l).Some?
    ensures WriteOf(s, l).value.id < |s.rows|
  {
    hide Payload.SendPayload;
    if l.Go? {
      assert ProcOk(s, s.procs[l.pid]);
      assert ChunkOk(s, s.procs[l.pid].at.id);
    }
  }

  // ----- the two safety properties and their invariants -----------------------------------

  /** Approval `id` was superseded by a chunked reply, part of which went out or still may. */
  ghost predicate Stirring(s: State, id: nat) {
    || (exists c :: c in s.chunkOf && s.chunkOf[c].orig == id && Tokens(s, c) > 0)
    || (exists pid :: pid in s.procs && s.procs[pid].MoreToCome(id))
  }

  ghost predicate Once(s: State) {
    forall id: nat :: Tokens(s, id) <= 1
  }

  ghost predicate Apart(s: State) {
    forall id: nat :: Stirring(s, id) ==> Tokens(s, id) == 0
  }

  /** When a decision may be written: a rejection always; an approval if the row is still pending or
      approved, or if nobody holds or has used it, no chunk replaced it and it replaces none that
      could still go out whole. */
  ghost predicate Harmless(s: State, d: Decision) {
    || !d.approved
    || Claimable(s, d.id)
    || (&& Tokens(s, d.id) == 0
        && !Stirring(s, d.id)
        && (d.id in s.chunkOf ==> Tokens(s, s.chunkOf[d.id].orig) == 0))
  }

  ghost predicate HarmlessAt(s: State, l: Label) {
    WriteOf(s, l).Some? ==> Harmless(s, WriteOf(s, l).value)
  }

  lemma ApplyKeepsOnce(s: State, l: Label)
    requires Bound(s) && Once(s) && HarmlessAt(s, l)
    ensures Once(Apply(s, l))
  {
    hide Tokens, Apply, Bound, Stirring, OpOf;
    var s' := Apply(s, l);
    ApplyKeepsBound(s, l);
    RowsGrow(s, l);
    forall id: nat ensures Tokens(s', id) <= 1 {
      if id < |s.rows| {
        TokensConserved(s, l, id);
      } else if id < |s'.rows| {
        NewRowTokens(s, l);
      } else {
        NoTokensOutside(s', id);
      }
    }
  }

  lemma RowsGrow(s: State, l: Label)
    ensures |s.rows| <= |Apply(s, l).rows| <= |s.rows| + 1
  {
    hide ProcStep;
    OpExtends(s.rows, OpOf(s, l));
  }

  /** How a chunk loop comes to have more to do, and how a chunk gets an approval. */
  lemma MoreToComeStep(rows: Table, p: Proc, works: bool, id: nat)
    ensures var (op, p', o) := ProcStep(rows, p, works);
      && (p'.MoreToCome(id) ==>
            || p.MoreToCome(id)
            || (op == Retire(id) && id < |rows| && rows[id].status in {Pending, Approved})
            || (p.Chunker? && p.at.Deciding? && p.orig == id && op == Decide(Decision(p.at.id, true))))
      && (o.Some? ==> p.MoreToCome(o.value.orig))
  {
    hide Payload.SendPayload, CallStep;
  }

  lemma RetiredHasNoTokens(s: State, l: Label, id: nat)
    requires Once(s) && OpOf(s, l) == Retire(id) && Claimable(s, id)
    ensures Tokens(Apply(s, l), id) == 0
  {
    hide ProcStep, Owners, Attempts;
    OpAttempts(s.rows, s.log, OpOf(s, l), id);
    assert Tokens(s, id) <= 1;
    var p := s.procs[l.pid];
    OwnersUpdate(s.procs, l.pid, ProcStep(s.rows, p, l.works).1, id);
    RetireOwnsNothing(s.rows, p, l.works, id);
  }

  lemma RetireOwnsNothing(rows: Table, p: Proc, works: bool, id: nat)
    requires ProcStep(rows, p, works).0.Retire?
    ensures !ProcStep(rows, p, works).1.OwnsId(id)
  {
    hide Payload.SendPayload;
  }

  lemma StaysWithoutTokens(s: State, l: Label, id: nat)
    requires id < |s.rows| && Tokens(s, id) == 0 && !Revives(s, l, id)
    ensures Tokens(Apply(s, l), id) == 0
  {
    hide Tokens, Apply, Revives;
    TokensConserved(s, l, id);
  }

  /** Where a reply was being sent in chunks before the step, its whole stays out. */
  lemma StirredStaysOut(s: State, l: Label, id: nat)
    requires Apart(s) && HarmlessAt(s, l) && id < |s.rows| && Stirring(s, id)
    ensures Tokens(Apply(s, l), id) == 0
  {
    hide Tokens, Apply, Stirring, OpOf;
    StaysWithoutTokens(s, l, id);
  }

  lemma StirringChunk(s: State, l: Label, id: nat, c: nat)
    requires Bound(s) && Apart(s) && HarmlessAt(s, l)
    requires var s' := Apply(s, l); c in s'.chunkOf && s'.chunkOf[c].orig == id && Tokens(s', c) > 0
    ensures Tokens(Apply(s, l), id) == 0
  {
    hide Tokens, ProcStep, Payload.SendPayload, OpOf;
    ChunksInTable(s);
    if c in s.chunkOf && c < |s.rows| {
      assert ChunkOk(s, c);
      TokensConserved(s, l, c);
      if Tokens(s, c) > 0 {
        assert Stirring(s, id);
        StirredStaysOut(s, l, id);
      } else {
        StaysWithoutTokens(s, l, id);
      }
    } else {
      var p := s.procs[l.pid];
      MoreToComeStep(s.rows, p, l.works, id);
      MoreToComeInTable(s, l.pid, id);
      assert Stirring(s, id);
      StirredStaysOut(s, l, id);
    }
  }

  lemma MoreToComeInTable(s: State, pid: nat, id: nat)
    requires Bound(s) && pid in s.procs && s.procs[pid].MoreToCome(id)
    ensures id < |s.rows| && Carries(s.rows, id, s.procs[pid].whole)
  {
    hide Payload.SendPayload;
    assert ProcOk(s, s.procs[pid]);
  }

  lemma StirringProc(s: State, l: Label, id: nat, pid: nat)
    requires Bound(s) && Once(s) && Apart(s) && HarmlessAt(s, l)
    requires var s' := Apply(s, l); pid in s'.procs && s'.procs[pid].MoreToCome(id)
    ensures Tokens(Apply(s, l), id) == 0
  {
    hide Tokens, ProcStep, Payload.SendPayload, Apart, Once, Bound;
    if pid in s.procs && s.procs[pid].MoreToCome(id) {
      MoreToComeInTable(s, pid, id);
      assert Stirring(s, id);
      StirredStaysOut(s, l, id);
    } else {
      assert l.Go? && l.pid == pid;
      var p := s.procs[pid];
      MoreToComeStep(s.rows, p, l.works, id);
      if OpOf(s, l) == Retire(id) {
        RetiredHasNoTokens(s, l, id);
      } else {
        DecidingChunk(s, l, id);
      }
    }
  }

  /** A chunk loop about to approve its own chunk. */
  lemma DecidingChunk(s: State, l: Label, id: nat)
    requires Bound(s) && Apart(s) && HarmlessAt(s, l)
    requires l.Go? && l.pid in s.procs && s.procs[l.pid].Chunker? && s.procs[l.pid].at.Deciding?
    requires s.procs[l.pid].orig == id && OpOf(s, l) == Decide(Decision(s.procs[l.pid].at.id, true))
    ensures Tokens(Apply(s, l), id) == 0
  {
    hide Payload.SendPayload, OpOf, Owners, Attempts;
    var p := s.procs[l.pid];
    var c := p.at.id;
    assert ProcOk(s, p);
    assert ChunkOk(s, c) && s.chunkOf[c].orig == id;
    if Claimable(s, c) {
      assert Tokens(s, c) > 0;
      assert Stirring(s, id);
    }
    assert Tokens(s, id) == 0;
    StaysWithoutTokens(s, l, id);
  }

  lemma ApplyKeepsApart(s: State, l: Label)
    requires Bound(s) && Once(s) && Apart(s) && HarmlessAt(s, l)
    ensures Apart(Apply(s, l))
  {
    hide Tokens, Apply, Bound, Apart, Once, OpOf;
    var s' := Apply(s, l);
    assert Apart(s') by {
      forall id: nat | Stirring(s', id) ensures Tokens(s', id) == 0 {
        if c :| c in s'.chunkOf && s'.chunkOf[c].orig == id && Tokens(s', c) > 0 {
          StirringChunk(s, l, id, c);
        } else {
          var pid :| pid in s'.procs && s'.procs[pid].MoreToCome(id);
          StirringProc(s, l, id, pid);
        }
      }
      AllApart(s');
    }
  }

  lemma AllApart(s: State)
    requires forall id: nat :: Stirring(s, id) ==> Tokens(s, id) == 0
    ensures Apart(s)
  {
    hide Stirring, Tokens;
  }

  ghost predicate Sound(s: State) {
    Bound(s) && Once(s) && Apart(s)
  }

  ghost predicate HarmlessFrom(s: State, labels: seq<Label>) {
    labels == [] || (HarmlessFrom(s, labels[..|labels| - 1])
                     && HarmlessAt(Continue(s, labels[..|labels| - 1]), labels[|labels| - 1]))
  }

  lemma {:induction false} ContinueKeepsSound(s: State, labels: seq<Label>)
    requires Sound(s) && HarmlessFrom(s, labels)
    ensures Sound(Continue(s, labels))
  {
    hide Apply, HarmlessAt, Bound, Once, Apart;
    if labels == [] {
    } else {
      var before := Continue(s, labels[..|labels| - 1]);
      ContinueKeepsSound(s, labels[..|labels| - 1]);
      ApplyKeepsBound(before, labels[|labels| - 1]);
      ApplyKeepsOnce(before, labels[|labels| - 1]);
      ApplyKeepsApart(before, labels[|labels| - 1]);
    }
  }

  lemma InitSound()
    ensures Sound(INIT)
  {
    forall id: nat ensures Tokens(INIT, id) == 0 {
      assert Owners(INIT.procs, id) == {};
    }
  }

  /** At most one attempt per approval, and never a chunk together with the whole reply. */
  predicate SafeFor(s: State, id: nat) {
    Attempts(s.log, id) <= 1
    && (id in s.chunkOf && Attempts(s.log, id) > 0 ==> Attempts(s.log, s.chunkOf[id].orig) == 0)
  }

  ghost predicate Safe(s: State) {
    forall id: nat :: SafeFor(s, id)
  }

  lemma SoundIsSafe(s: State)
    requires Sound(s)
    ensures Safe(s)
  {
    hide Attempts, Owners;
    forall id: nat ensures SafeFor(s, id) {
      assert Tokens(s, id) <= 1;
      if id in s.chunkOf && Attempts(s.log, id) > 0 {
        assert Tokens(s, id) > 0;
        assert Stirring(s, s.chunkOf[id].orig);
      }
    }
  }
}
