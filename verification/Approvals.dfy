/** app/safety/approvals.py: the approval table. Every operation is one transaction, and each
    guarded UPDATE is one compare-and-set. A row's id is its position. */
module Approvals {
  import opened PyText

  datatype Status = Pending | Approved | Rejected | Executing | Succeeded | Failed | Superseded
  datatype Row = Row(action: string, payload: Option<string>, status: Status)
  type Table = seq<Row>

  // ----- the transactions, as functions of the table -----------------------------

  function Requested(t: Table, action: string, payload: Option<string>): Table {
    t + [Row(action, payload, Pending)]
  }

  predicate CanDecide(t: Table, id: nat) {
    id < |t| && t[id].status == Pending
  }

  predicate CanClaim(t: Table, id: nat, action: string, payload: Option<string>) {
    id < |t| && t[id] == Row(action, payload, Approved)
  }

  predicate CanComplete(t: Table, id: nat) {
    id < |t| && t[id].status == Executing
  }

  predicate CanSupersede(t: Table, id: nat, action: string, payload: Option<string>) {
    id < |t| && t[id].status in {Pending, Approved} && t[id].action == action && t[id].payload == payload
  }

  function SetStatus(t: Table, id: nat, status: Status): Table
    requires id < |t|
  {
    t[id := t[id].(status := status)]
  }

  function Decided(t: Table, id: nat, approved: bool): Table {
    if CanDecide(t, id) then SetStatus(t, id, if approved then Approved else Rejected) else t
  }

  function Claimed(t: Table, id: nat, action: string, payload: Option<string>): Table {
    if CanClaim(t, id, action, payload) then SetStatus(t, id, Executing) else t
  }

  function Completed(t: Table, id: nat, succeeded: bool): Table {
    if CanComplete(t, id) then SetStatus(t, id, if succeeded then Succeeded else Failed) else t
  }

  function Retired(t: Table, id: nat, action: string, payload: Option<string>): Table {
    if CanSupersede(t, id, action, payload) then SetStatus(t, id, Superseded) else t
  }

  // ----- what the operations do to one approval ------------------------------------

  /** What has happened to one approval, with the execution attempt told apart from the claim. */
  datatype Phase = Absent | Waiting | Granted | Refused | Held | Spent | Closed(ok: bool) | Withdrawn | Illegal

  datatype Effect<+M> = Transport(message: M) | RunAction(payload: Option<string>)

  datatype Event<+M> =
    | WasRequested(id: nat)
    | WasDecided(id: nat, approved: bool)
    | WasClaimed(id: nat)
    | WasAttempted(id: nat, effect: Effect<M>)
    | WasCompleted(id: nat, succeeded: bool)
    | WasSuperseded(id: nat)

  function Next<M>(p: Phase, e: Event<M>): Phase {
    match (p, e)
    case (Absent, WasRequested(_)) => Waiting
    case (Waiting, WasDecided(_, ok)) => if ok then Granted else Refused
    case (Waiting, WasSuperseded(_)) => Withdrawn
    case (Granted, WasSuperseded(_)) => Withdrawn
    case (Granted, WasClaimed(_)) => Held
    case (Held, WasAttempted(_, _)) => Spent
    case (Held, WasCompleted(_, ok)) => Closed(ok)
    case (Spent, WasCompleted(_, ok)) => Closed(ok)
    case _ => Illegal
  }

  /** The phase of approval `id` after a history. */
  function PhaseOf<M>(history: seq<Event<M>>, id: nat): Phase {
    if history == [] then Absent
    else
      var last := history[|history| - 1];
      var before := PhaseOf(history[..|history| - 1], id);
      if last.id == id then Next(before, last) else before
  }

  predicate Agrees(status: Status, phase: Phase) {
    match status
    case Pending => phase == Waiting
    case Approved => phase == Granted
    case Rejected => phase == Refused
    case Executing => phase == Held || phase == Spent
    case Succeeded => phase == Closed(true)
    case Failed => phase == Closed(false)
    case Superseded => phase == Withdrawn
  }

  /** The table is exactly what its history says, and the history of every row is lawful. */
  ghost predicate Faithful<M>(t: Table, history: seq<Event<M>>) {
    && (forall id: nat :: id < |t| ==> Agrees(t[id].status, PhaseOf(history, id)))
    && (forall id: nat :: id >= |t| ==> PhaseOf(history, id) == Absent)
  }

  lemma PhaseAfter<M>(history: seq<Event<M>>, e: Event<M>, id: nat)
    ensures PhaseOf(history + [e], id)
         == if e.id == id then Next(PhaseOf(history, id), e) else PhaseOf(history, id)
  {
    assert (history + [e])[..|history|] == history;
  }

  /** One row moves, one event is logged. */
  lemma FaithfulStep<M>(t: Table, t': Table, history: seq<Event<M>>, e: Event<M>)
    requires Faithful(t, history)
    requires |t| <= |t'| && e.id < |t'| && (|t'| > |t| ==> |t'| == |t| + 1 && e.id == |t|)
    requires forall id: nat :: id < |t| && id != e.id ==> t'[id] == t[id]
    requires Agrees(t'[e.id].status, Next(PhaseOf(history, e.id), e))
    ensures Faithful(t', history + [e])
  {
    forall id: nat ensures id < |t'| ==> Agrees(t'[id].status, PhaseOf(history + [e], id))
      ensures id >= |t'| ==> PhaseOf(history + [e], id) == Absent
    {
      PhaseAfter(history, e, id);
    }
  }

  // ----- what a lawful history means -------------------------------------------------

  lemma {:induction false} AfterAttempt<M>(history: seq<Event<M>>, k: nat, id: nat)
    requires k < |history| && history[k].WasAttempted? && history[k].id == id
    requires PhaseOf(history, id) != Illegal
    ensures PhaseOf(history[..k], id) == Held
    ensures PhaseOf(history, id) == Spent || PhaseOf(history, id).Closed?
  {
    var n := |history| - 1;
    if k < n {
      assert history[..n][..k] == history[..k];
      AfterAttempt(history[..n], k, id);
    } else {
      assert history[..k] == history[..n];
    }
  }

  /** Each approval is attempted at most once. */
  lemma AttemptedOnce<M>(history: seq<Event<M>>, j: nat, k: nat)
    requires j < k < |history|
    requires history[j].WasAttempted? && history[k].WasAttempted? && history[j].id == history[k].id
    ensures PhaseOf(history, history[k].id) == Illegal
  {
    var id := history[k].id;
    if PhaseOf(history, id) != Illegal {
      AfterAttempt(history, k, id);
      AfterAttempt(history[..k], j, id);
    }
  }

  /** An attempt comes after a claim, the claim after an approval, the approval after the request. */
  lemma {:induction false} HeldMeansApprovedThenClaimed<M>(history: seq<Event<M>>, id: nat)
    ensures PhaseOf(history, id) == Waiting ==> WasRequested(id) in history
    ensures PhaseOf(history, id) == Granted ==>
      exists j :: 0 <= j < |history| && history[j] == WasDecided(id, true) && WasRequested(id) in history[..j]
    ensures PhaseOf(history, id) == Held ==>
      exists i, j :: 0 <= i < j < |history| && history[i] == WasDecided(id, true)
        && history[j] == WasClaimed(id) && WasRequested(id) in history[..i]
    decreases |history|
  {
    if history == [] {
    } else {
      var n := |history| - 1;
      var h := history[..n];
      HeldMeansApprovedThenClaimed(h, id);
      if history[n].id == id {
        if PhaseOf(history, id) == Granted {
          assert history[n] == WasDecided(id, true) && WasRequested(id) in history[..n];
        } else if PhaseOf(history, id) == Held {
          var j :| 0 <= j < |h| && h[j] == WasDecided(id, true) && WasRequested(id) in h[..j];
          assert h[..j] == history[..j];
          assert history[j] == WasDecided(id, true) && history[n] == WasClaimed(id);
        }
      } else if PhaseOf(history, id) == Granted {
        var j :| 0 <= j < |h| && h[j] == WasDecided(id, true) && WasRequested(id) in h[..j];
        assert h[..j] == history[..j];
        assert history[j] == WasDecided(id, true);
      } else if PhaseOf(history, id) == Held {
        var i, j :| 0 <= i < j < |h| && h[i] == WasDecided(id, true)
                 && h[j] == WasClaimed(id) && WasRequested(id) in h[..i];
        assert h[..i] == history[..i];
        assert history[i] == WasDecided(id, true) && history[j] == WasClaimed(id);
      }
    }
  }

  lemma AttemptWasAuthorised<M>(history: seq<Event<M>>, k: nat)
    requires k < |history| && history[k].WasAttempted?
    requires PhaseOf(history, history[k].id) != Illegal
    ensures var id := history[k].id;
      exists i, j :: 0 <= i < j < k && history[i] == WasDecided(id, true)
        && history[j] == WasClaimed(id) && WasRequested(id) in history[..i]
  {
    var id, h := history[k].id, history[..k];
    AfterAttempt(history, k, id);
    HeldMeansApprovedThenClaimed(h, id);
    var i, j :| 0 <= i < j < |h| && h[i] == WasDecided(id, true)
             && h[j] == WasClaimed(id) && WasRequested(id) in h[..i];
    assert h[..i] == history[..i];
    assert history[i] == WasDecided(id, true) && history[j] == WasClaimed(id);
  }

  /** A table that agrees with its history has attempted each approval at most once, after a request,
      an approval and a claim. */
  lemma FaithfulAttempts<M>(t: Table, history: seq<Event<M>>, k: nat)
    requires Faithful(t, history) && k < |history| && history[k].WasAttempted?
    ensures forall j :: 0 <= j < |history| && j != k && history[j].WasAttempted? ==> history[j].id != history[k].id
    ensures var id := history[k].id;
      exists i, j :: 0 <= i < j < k && history[i] == WasDecided(id, true)
        && history[j] == WasClaimed(id) && WasRequested(id) in history[..i]
  {
    var id := history[k].id;
    assert PhaseOf(history, id) != Illegal by {
      assert id < |t| ==> Agrees(t[id].status, PhaseOf(history, id));
    }
    forall j | 0 <= j < |history| && j != k && history[j].WasAttempted? ensures history[j].id != id {
      if history[j].id == id {
        AttemptedOnce(history, if j < k then j else k, if j < k then k else j);
      }
    }
    AttemptWasAuthorised(history, k);
  }

  // ----- the guard of `respond` -----------------------------------------------------

  /** `respond` reads the row and then writes it with no condition in the UPDATE. This is the
      write of a responder that read `Pending` some time ago. */
  function StaleDecision(t: Table, id: nat, approved: bool): Table
    requires id < |t|
  {
    SetStatus(t, id, if approved then Approved else Rejected)
  }

  /** The late write is a decision the history of the row allows exactly when the row is still
      pending. Which late writes do harm is a matter of the callers: `SendProtocol.LateWriteExact`. */
  lemma StaleDecisionIsLawful<M>(t: Table, history: seq<Event<M>>, id: nat, approved: bool)
    requires Faithful(t, history) && id < |t|
    ensures Faithful(StaleDecision(t, id, approved), history + [WasDecided(id, approved)])
       <==> CanDecide(t, id)
  {
    var e := WasDecided(id, approved);
    var t' := StaleDecision(t, id, approved);
    PhaseAfter(history, e, id);
    if CanDecide(t, id) {
      FaithfulStep(t, t', history, e);
    } else {
      assert PhaseOf(history + [e], id) == Illegal;
      assert !Agrees(t'[id].status, Illegal);
    }
  }
}
