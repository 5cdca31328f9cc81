/** Approval-gated outbound actions under interleaving: `execute_send`, the chunked auto-send,
    `execute_approved` and the guardian's `respond` run as any number of concurrent callers over one
    approval table. A run is a list of labels; each label is one statement of one caller, an
    operation of the outside world, or a crash. */
module SendProtocol {
  import opened PyText
  import opened Approvals
  import Payload

  type Message = Payload.Message
  type Log = seq<Event<Message>>

  const SEND := "send_message"
  const BRAIN := "brain_action"

  // ----- callers ------------------------------------------------------------------

  /** What a caller was asked to execute: a send with its arguments, or a brain action. */
  datatype Kind = SendMessage(m: Message) | RunBrainAction {
    function Action(): string {
      if SendMessage? then SEND else BRAIN
    }

    /** The test between reading the row and claiming it. */
    predicate Accepts(row: Row) {
      && row.action == Action()
      && (SendMessage? ==> row.payload == Some(Payload.SendPayload(m)))
    }

    function Effect(payload: Option<string>): Effect<Message> {
      if SendMessage? then Transport(m) else RunAction(payload)
    }
  }

  /** Where a call stands. `Owns` holds the claim; `Tried` has reached the outside world. */
  datatype Pc =
    | Start | Checked(payload: Option<string>) | Owns(payload: Option<string>) | Tried | Finishing(ok: bool) | Done

  datatype Call = Call(id: nat, kind: Kind, pc: Pc)

  /** `respond` reads the row at `Queued` and writes it, with no condition, at `Deciding`. */
  datatype ChunkPc =
    | Superseding | Turn(i: nat) | Queued(i: nat, id: nat) | Deciding(i: nat, id: nat) | Sending(i: nat, call: Call)
    | Stopped

  datatype Proc =
    | Caller(call: Call)
    | Chunker(orig: nat, whole: Message, chunks: seq<Payload.PyStr>, at: ChunkPc)
  {
    /** The call this process is executing, if any. */
    function Running(): Option<Call> {
      if Caller? then Some(call) else if at.Sending? then Some(at.call) else None
    }

    predicate OwnsId(id: nat) {
      Running().Some? && Running().value.pc.Owns? && Running().value.id == id
    }

    predicate Initial() {
      if Caller? then call.pc.Start? else at.Superseding?
    }

    /** The whole reply of approval `id` is retired and a chunk of it is still to be requested. */
    predicate MoreToCome(id: nat) {
      Chunker? && orig == id
      && match at
         case Turn(i) => i < |chunks|
         case Queued(i, _) => i + 1 < |chunks|
         case Sending(i, _) => i + 1 < |chunks|
         case _ => false
    }
  }

  /** A chunk goes to the same conversation and is never a threaded reply. */
  function ChunkMessage(whole: Message, chunk: Payload.PyStr): Message {
    Payload.Message(whole.conversation, chunk, None)
  }

  /** Bookkeeping for the theorems: which approval was queued for which chunk of which reply. */
  datatype Origin = Origin(orig: nat, whole: Message, chunks: seq<Payload.PyStr>, i: nat, chunk: Message)

  /** What a responder has read a row as pending for, and is about to write. */
  datatype Decision = Decision(id: nat, approved: bool)

  datatype State = State(
    rows: Table, procs: map<nat, Proc>, log: Log, chunkOf: map<nat, Origin>, responders: map<nat, Decision>)

  datatype Label =
    | Request(action: string, payload: Option<string>)
    | Read(rid: nat, decision: Decision)
    | Write(rid: nat)
    | Spawn(pid: nat, proc: Proc)
    | Crash(pid: nat)
    | Go(pid: nat, works: bool)

  // ----- what a statement does to the table and the log ------------------------------

  datatype Op =
    | Nop
    | Ask(action: string, payload: Option<string>)
    | Decide(decision: Decision)
    | Claim(id: nat)
    | Attempt(id: nat, effect: Effect<Message>)
    | Finish(id: nat, ok: bool)
    | Retire(id: nat)

  function Put(rows: Table, id: nat, status: Status): Table {
    if id < |rows| then SetStatus(rows, id, status) else rows
  }

  function OpRows(rows: Table, op: Op): Table {
    match op
    case Nop => rows
    case Ask(action, payload) => Requested(rows, action, payload)
    case Decide(d) => Put(rows, d.id, if d.approved then Approved else Rejected)
    case Claim(id) => Put(rows, id, Executing)
    case Attempt(_, _) => rows
    case Finish(id, ok) => Put(rows, id, if ok then Succeeded else Failed)
    case Retire(id) => Put(rows, id, Superseded)
  }

  function OpLog(rows: Table, op: Op): Log {
    match op
    case Nop => []
    case Ask(_, _) => [WasRequested(|rows|)]
    case Decide(d) => [WasDecided(d.id, d.approved)]
    case Claim(id) => [WasClaimed(id)]
    case Attempt(id, effect) => [WasAttempted(id, effect)]
    case Finish(id, ok) => [WasCompleted(id, ok)]
    case Retire(id) => [WasSuperseded(id)]
  }

  // ----- one statement of a call ----------------------------------------------------

  /** `works` is false when the statement raises or reports failure. */
  function CallStep(rows: Table, call: Call, works: bool): (Op, Call) {
    var id := call.id;
    match call.pc
    case Start =>
      if id < |rows| && rows[id].status == Approved && call.kind.Accepts(rows[id])
      then (Nop, call.(pc := Checked(rows[id].payload)))
      else (Nop, call.(pc := Done))
    case Checked(payload) =>
      if CanClaim(rows, id, call.kind.Action(), payload)
      then (Claim(id), call.(pc := Owns(payload)))
      else (Nop, call.(pc := Done))
    case Owns(payload) =>
      if works
      then (Attempt(id, call.kind.Effect(payload)), call.(pc := Tried))
      else (Nop, call.(pc := Finishing(false)))
    case Tried => (Nop, call.(pc := Finishing(works)))
    case Finishing(ok) =>
      if works
      then (if CanComplete(rows, id) then Finish(id, ok) else Nop, call.(pc := Done))
      else (Nop, call.(pc := if ok && call.kind.SendMessage? then Finishing(false) else Done))
    case Done => (Nop, call)
  }

  /** What the chunk loop does next, and the origin of the approval it requests, if it does. */
  function ChunkStep(rows: Table, p: Proc, works: bool): (Op, Proc, Option<Origin>)
    requires p.Chunker?
  {
    match p.at
    case Superseding =>
      if works && CanSupersede(rows, p.orig, SEND, Some(Payload.SendPayload(p.whole)))
      then (Retire(p.orig), p.(at := Turn(0)), None)
      else (Nop, p.(at := Stopped), None)
    case Turn(i) =>
      if works && i < |p.chunks|
      then
        var m := ChunkMessage(p.whole, p.chunks[i]);
        (Ask(SEND, Some(Payload.SendPayload(m))), p.(at := Queued(i, |rows|)),
         Some(Origin(p.orig, p.whole, p.chunks, i, m)))
      else (Nop, p.(at := Stopped), None)
    case Queued(i, id) =>
      if !works || i >= |p.chunks| then (Nop, p.(at := Stopped), None)
      else if CanDecide(rows, id) then (Nop, p.(at := Deciding(i, id)), None)
      else (Nop, p.(at := Sending(i, ChunkCall(p, i, id))), None)
    case Deciding(i, id) =>
      if works && i < |p.chunks|
      then (Decide(Decision(id, true)), p.(at := Sending(i, ChunkCall(p, i, id))), None)
      else (Nop, p.(at := Stopped), None)
    case Sending(i, call) =>
      if call.pc.Done? then (Nop, p.(at := Turn(i + 1)), None)
      else
        var (op, call') := CallStep(rows, call, works);
        (op, p.(at := Sending(i, call')), None)
    case Stopped => (Nop, p, None)
  }

  function ChunkCall(p: Proc, i: nat, id: nat): Call
    requires p.Chunker? && i < |p.chunks|
  {
    Call(id, SendMessage(ChunkMessage(p.whole, p.chunks[i])), Start)
  }

  /** One statement of process `p`. */
  function ProcStep(rows: Table, p: Proc, works: bool): (Op, Proc, Option<Origin>) {
    if p.Chunker? then ChunkStep(rows, p, works)
    else
      var (op, call) := CallStep(rows, p.call, works);
      (op, Caller(call), None)
  }

  /** What a label does to the table; a label that is not possible does nothing. */
  function OpOf(s: State, l: Label): Op {
    match l
    case Request(action, payload) => Ask(action, payload)
    case Write(rid) => if rid in s.responders then Decide(s.responders[rid]) else Nop
    case Go(pid, works) => if pid in s.procs then ProcStep(s.rows, s.procs[pid], works).0 else Nop
    case _ => Nop
  }

  function ProcsAfter(s: State, l: Label): map<nat, Proc> {
    match l
    case Spawn(pid, proc) => if pid !in s.procs && proc.Initial() then s.procs[pid := proc] else s.procs
    case Crash(pid) => s.procs - {pid}
    case Go(pid, works) =>
      if pid in s.procs then s.procs[pid := ProcStep(s.rows, s.procs[pid], works).1] else s.procs
    case _ => s.procs
  }

  function ChunksAfter(s: State, l: Label): map<nat, Origin> {
    if l.Go? && l.pid in s.procs then
      var o := ProcStep(s.rows, s.procs[l.pid], l.works).2;
      if o.Some? then s.chunkOf[|s.rows| := o.value] else s.chunkOf
    else s.chunkOf
  }

  function RespondersAfter(s: State, l: Label): map<nat, Decision> {
    match l
    case Read(rid, d) =>
      if rid !in s.responders && CanDecide(s.rows, d.id) then s.responders[rid := d] else s.responders
    case Write(rid) => s.responders - {rid}
    case _ => s.responders
  }

  function Apply(s: State, l: Label): State {
    var op := OpOf(s, l);
    State(OpRows(s.rows, op), ProcsAfter(s, l), s.log + OpLog(s.rows, op), ChunksAfter(s, l), RespondersAfter(s, l))
  }

  const INIT := State([], map[], [], map[], map[])

  function Continue(s: State, labels: seq<Label>): State {
    if labels == [] then s
    else Apply(Continue(s, labels[..|labels| - 1]), labels[|labels| - 1])
  }

  function Run(labels: seq<Label>): State {
    Continue(INIT, labels)
  }

  lemma ContinueStep(s: State, labels: seq<Label>, l: Label)
    ensures Continue(s, labels + [l]) == Apply(Continue(s, labels), l)
  {
    assert (labels + [l])[..|labels|] == labels;
  }

  // ----- what is bound to what, in every run whatsoever -------------------------------

  predicate CallOk(rows: Table, call: Call) {
    call.pc.Checked? || call.pc.Owns? ==>
      call.id < |rows| && call.kind.Accepts(rows[call.id]) && call.pc.payload == rows[call.id].payload
  }

  predicate Carries(rows: Table, id: nat, m: Message) {
    id < |rows| && rows[id].action == SEND && rows[id].payload == Some(Payload.SendPayload(m))
  }

  predicate ChunkId(s: State, p: Proc, i: nat, id: nat)
    requires p.Chunker?
  {
    && i < |p.chunks| && id in s.chunkOf
    && s.chunkOf[id] == Origin(p.orig, p.whole, p.chunks, i, ChunkMessage(p.whole, p.chunks[i]))
  }

  predicate ProcOk(s: State, p: Proc) {
    match p
    case Caller(call) => CallOk(s.rows, call)
    case Chunker(orig, whole, chunks, at) =>
      match at
      case Superseding => true
      case Stopped => true
      case Turn(_) => Carries(s.rows, orig, whole)
      case Queued(i, id) => Carries(s.rows, orig, whole) && ChunkId(s, p, i, id)
      case Deciding(i, id) => Carries(s.rows, orig, whole) && ChunkId(s, p, i, id)
      case Sending(i, call) =>
        Carries(s.rows, orig, whole) && ChunkId(s, p, i, call.id) && CallOk(s.rows, call)
        && call.kind == SendMessage(ChunkMessage(whole, chunks[i]))
  }

  predicate ChunkOk(s: State, c: nat)
    requires c in s.chunkOf
  {
    var o := s.chunkOf[c];
    && o.orig < c < |s.rows| && Carries(s.rows, o.orig, o.whole) && Carries(s.rows, c, o.chunk)
    && o.i < |o.chunks| && o.chunk == Payload.Message(o.whole.conversation, o.chunks[o.i], None)
  }

  predicate EventOk(rows: Table, e: Event<Message>) {
    && e.id < |rows|
    && (e.WasAttempted? ==>
          match e.effect
          case Transport(m) => Carries(rows, e.id, m)
          case RunAction(payload) => rows[e.id].action == BRAIN && rows[e.id].payload == payload)
  }

  ghost predicate Bound(s: State) {
    && (forall k :: 0 <= k < |s.log| ==> EventOk(s.rows, s.log[k]))
    && (forall pid :: pid in s.procs ==> ProcOk(s, s.procs[pid]))
    && (forall c :: c in s.chunkOf ==> ChunkOk(s, c))
    && (forall rid :: rid in s.responders ==> s.responders[rid].id < |s.rows|)
  }

  /** Rows are only added, and keep their action and payload. */
  predicate Extends(t: Table, t': Table) {
    |t| <= |t'| && forall k :: 0 <= k < |t| ==> t'[k].action == t[k].action && t'[k].payload == t[k].payload
  }

  lemma OpExtends(rows: Table, op: Op)
    ensures Extends(rows, OpRows(rows, op))
    ensures |OpRows(rows, op)| == |rows| + if op.Ask? then 1 else 0
  {
  }

  lemma ProcOkMono(s: State, s': State, p: Proc)
    requires ProcOk(s, p) && Extends(s.rows, s'.rows)
    requires forall c :: c in s.chunkOf ==> c in s'.chunkOf && s'.chunkOf[c] == s.chunkOf[c]
    ensures ProcOk(s', p)
  {
    hide Payload.SendPayload;
  }

  lemma CallStepOk(rows: Table, call: Call, works: bool)
    requires CallOk(rows, call)
    ensures var (op, call') := CallStep(rows, call, works);
      && call'.id == call.id && call'.kind == call.kind
      && CallOk(OpRows(rows, op), call')
      && (forall e :: e in OpLog(rows, op) ==> EventOk(OpRows(rows, op), e))
      && !op.Ask? && !op.Decide? && !op.Retire?
  {
    hide Payload.SendPayload;
  }

  /** `s'` is the state with the rows and origins of the loop's statement, before it moves on. */
  predicate IsStepOf(s: State, p: Proc, works: bool, s': State)
    requires p.Chunker?
  {
    var (op, p', o) := ChunkStep(s.rows, p, works);
    && s'.rows == OpRows(s.rows, op)
    && s'.chunkOf == if o.Some? then s.chunkOf[|s.rows| := o.value] else s.chunkOf
  }

  predicate StepOk(s: State, p: Proc, works: bool, s': State)
    requires p.Chunker?
  {
    var (op, p', o) := ChunkStep(s.rows, p, works);
    && ProcOk(s', p')
    && (o.Some? ==> |s.rows| in s'.chunkOf && ChunkOk(s', |s.rows|))
    && (forall e :: e in OpLog(s.rows, op) ==> EventOk(s'.rows, e))
  }

  lemma SendingStepOk(s: State, p: Proc, works: bool, s': State)
    requires p.Chunker? && p.at.Sending? && ProcOk(s, p) && IsStepOf(s, p, works, s')
    ensures StepOk(s, p, works, s')
  {
    hide Payload.SendPayload, CallStep, CallOk, EventOk;
    OpExtends(s.rows, ChunkStep(s.rows, p, works).0);
    CallStepOk(s.rows, p.at.call, works);
  }

  lemma DecidingStepOk(s: State, p: Proc, works: bool, s': State)
    requires p.Chunker? && (p.at.Queued? || p.at.Deciding?) && ProcOk(s, p) && IsStepOf(s, p, works, s')
    requires forall c :: c in s.chunkOf ==> ChunkOk(s, c)
    ensures StepOk(s, p, works, s')
  {
    hide Payload.SendPayload, CallOk;
    var (op, p', o) := ChunkStep(s.rows, p, works);
    OpExtends(s.rows, op);
    assert ChunkOk(s, p.at.id);
    if p'.at.Sending? {
      FreshCallOk(s'.rows, p'.at.call);
    }
  }

  lemma TurnStepOk(s: State, p: Proc, works: bool, s': State)
    requires p.Chunker? && !p.at.Sending? && !p.at.Queued? && !p.at.Deciding?
    requires ProcOk(s, p) && IsStepOf(s, p, works, s') && forall c :: c in s.chunkOf ==> c < |s.rows|
    ensures StepOk(s, p, works, s')
  {
    hide Payload.SendPayload, CallStep, CallOk;
    OpExtends(s.rows, ChunkStep(s.rows, p, works).0);
  }

  lemma ChunkStepOk(s: State, p: Proc, works: bool, s': State)
    requires p.Chunker? && ProcOk(s, p) && IsStepOf(s, p, works, s')
    requires forall c :: c in s.chunkOf ==> c < |s.rows| && ChunkOk(s, c)
    ensures StepOk(s, p, works, s')
  {
    hide StepOk, IsStepOf, ProcOk, ChunkOk;
    if p.at.Sending? {
      SendingStepOk(s, p, works, s');
    } else if p.at.Queued? || p.at.Deciding? {
      DecidingStepOk(s, p, works, s');
    } else {
      TurnStepOk(s, p, works, s');
    }
  }

  lemma FreshCallOk(rows: Table, call: Call)
    requires call.pc.Start?
    ensures CallOk(rows, call)
  {
  }

  lemma GoKeepsBound(s: State, pid: nat, works: bool)
    requires Bound(s) && pid in s.procs
    ensures Bound(Apply(s, Go(pid, works)))
  {
    hide Payload.SendPayload, CallStep, ChunkStep, ProcOk, EventOk, ChunkOk;
    var l := Go(pid, works);
    var s' := Apply(s, l);
    var p := s.procs[pid];
    OpExtends(s.rows, OpOf(s, l));
    ChunksInTable(s);
    if p.Chunker? {
      ChunkStepOk(s, p, works, s');
    } else {
      CallerStepOk(s, p, works, s');
    }
    BoundMono(s, s', pid);
  }

  lemma ChunksInTable(s: State)
    requires forall c :: c in s.chunkOf ==> ChunkOk(s, c)
    ensures forall c :: c in s.chunkOf ==> c < |s.rows|
  {
    hide Payload.SendPayload;
    forall c | c in s.chunkOf ensures c < |s.rows| {
      assert ChunkOk(s, c);
    }
  }

  lemma CallerStepOk(s: State, p: Proc, works: bool, s': State)
    requires p.Caller? && ProcOk(s, p) && s'.rows == OpRows(s.rows, ProcStep(s.rows, p, works).0)
    ensures var (op, p', o) := ProcStep(s.rows, p, works);
      && ProcOk(s', p') && o == None
      && (forall e :: e in OpLog(s.rows, op) ==> EventOk(s'.rows, e))
  {
    hide Payload.SendPayload, CallStep, CallOk, EventOk;
    CallStepOk(s.rows, p.call, works);
  }

  /** Everything bound stays bound when rows and origins are only added; what is new is checked. */
  lemma BoundMono(s: State, s': State, pid: nat)
    requires Bound(s) && Extends(s.rows, s'.rows) && s.log <= s'.log
    requires forall c :: c in s.chunkOf ==> c in s'.chunkOf && s'.chunkOf[c] == s.chunkOf[c]
    requires forall q :: q in s'.procs && q != pid ==> q in s.procs && s'.procs[q] == s.procs[q]
    requires pid in s'.procs ==> ProcOk(s', s'.procs[pid])
    requires forall k :: |s.log| <= k < |s'.log| ==> EventOk(s'.rows, s'.log[k])
    requires forall c :: c in s'.chunkOf && c !in s.chunkOf ==> ChunkOk(s', c)
    requires forall rid :: rid in s'.responders ==> s'.responders[rid].id < |s'.rows|
    ensures Bound(s')
  {
    hide Payload.SendPayload, ProcOk;
    forall q | q in s'.procs ensures ProcOk(s', s'.procs[q]) {
      if q != pid {
        ProcOkMono(s, s', s.procs[q]);
      }
    }
    forall c | c in s'.chunkOf ensures ChunkOk(s', c) {
      if c in s.chunkOf {
        assert ChunkOk(s, c);
      }
    }
    forall k | 0 <= k < |s'.log| ensures EventOk(s'.rows, s'.log[k]) {
      if k < |s.log| {
        assert EventOk(s.rows, s.log[k]);
      }
    }
  }

  lemma ApplyKeepsBound(s: State, l: Label)
    requires Bound(s)
    ensures Bound(Apply(s, l))
  {
    hide Payload.SendPayload, CallStep, ChunkStep, ChunkOk;
    if l.Go? && l.pid in s.procs {
      GoKeepsBound(s, l.pid, l.works);
    } else {
      var s' := Apply(s, l);
      OpExtends(s.rows, OpOf(s, l));
      var pid := if l.Spawn? || l.Crash? then l.pid else 0;
      if pid in s'.procs {
        assert ProcOk(s', s'.procs[pid]) by { OldOrFresh(s, s', pid); }
      }
      assert forall k :: |s.log| <= k < |s'.log| ==> EventOk(s'.rows, s'.log[k]);
      BoundMono(s, s', pid);
    }
  }

  lemma OldOrFresh(s: State, s': State, pid: nat)
    requires Bound(s) && Extends(s.rows, s'.rows) && s'.chunkOf == s.chunkOf && pid in s'.procs
    requires (pid in s.procs && s'.procs[pid] == s.procs[pid]) || s'.procs[pid].Initial()
    ensures ProcOk(s', s'.procs[pid])
  {
    hide Payload.SendPayload;
    if pid in s.procs && s'.procs[pid] == s.procs[pid] {
      assert ProcOk(s, s.procs[pid]);
      ProcOkMono(s, s', s.procs[pid]);
    }
  }

  lemma {:induction false} RunIsBound(labels: seq<Label>)
    ensures Bound(Run(labels))
  {
    hide Apply, Bound;
    if labels == [] {
      assert Bound(INIT) by { InitBound(); }
    } else {
      RunIsBound(labels[..|labels| - 1]);
      ApplyKeepsBound(Run(labels[..|labels| - 1]), labels[|labels| - 1]);
    }
  }

  lemma InitBound()
    ensures Bound(INIT)
  {
  }
}
