/** app/brain/autonomous_tasks.py: recurring tasks, their next run and their daily cap. Instants
    are microseconds since the epoch in UTC; dates and wall times are Indian Standard Time. */
module Scheduler {
  import opened PyText

  const SECOND := 1_000_000
  const MINUTE := 60 * SECOND
  const DAY := 24 * 60 * MINUTE
  const IST := 330 * MINUTE
  const MIN_INTERVAL := 5
  const MAX_INTERVAL := 60 * 24 * 14

  // ----- schedule arithmetic ----------------------------------------------------------

  datatype Wall = Wall(hour: int, minute: int) {
    predicate OnTheClock() {
      0 <= hour < 24 && 0 <= minute < 60
    }

    /** The position of the wall time in its day. */
    function OfDay(): int {
      (60 * hour + minute) * MINUTE
    }
  }

  function IstDate(t: int): int {
    (t + IST) / DAY
  }

  function IstOfDay(t: int): int {
    (t + IST) % DAY
  }

  function ClampInterval(minutes: int): int {
    if minutes > MAX_INTERVAL then MAX_INTERVAL else if minutes < MIN_INTERVAL then MIN_INTERVAL else minutes
  }

  /** `wall` is the parsed "HH:MM", or None when there is none or it does not parse. */
  function NextRun(minutes: int, wall: Option<Wall>, after: int): int {
    if wall.Some? && wall.value.OnTheClock() then
      var today := IstDate(after) * DAY + wall.value.OfDay() - IST;
      if today <= after then today + DAY else today
    else after + ClampInterval(minutes) * MINUTE
  }

  /** A time of day in microseconds on the Indian clock, five and a half hours ahead. */
  predicate ShowsWall(t: int, wall: Wall) {
    (t + 19_800_000_000) % 86_400_000_000 == wall.hour * 3_600_000_000 + wall.minute * 60_000_000
  }

  /** The next run is right for the schedule, in plain numbers: strictly later; with a wall time within
      a day and at that time; else as many minutes later as asked, but between 5 and 20160. */
  predicate RightNext(minutes: int, wall: Option<Wall>, after: int, next: int) {
    && after < next
    && if wall.Some? && 0 <= wall.value.hour < 24 && 0 <= wall.value.minute < 60
       then next <= after + 86_400_000_000 && ShowsWall(next, wall.value)
       else next - after
              == 60_000_000 * (if minutes < 5 then 5 else if minutes > 20_160 then 20_160 else minutes)
  }

  lemma WallIs(t: int, wall: Wall)
    ensures ShowsWall(t, wall) <==> IstOfDay(t) == wall.OfDay()
  {
  }

  lemma FirstAtWall(minutes: int, wall: Wall, after: int, t: int)
    requires wall.OnTheClock()
    ensures var n := NextRun(minutes, Some(wall), after);
      && after < n <= after + DAY && IstOfDay(n) == wall.OfDay()
      && (after < t && IstOfDay(t) == wall.OfDay() ==> n <= t)
  {
    var w := wall.OfDay();
    assert 0 <= w < DAY;
    var d := IstDate(after);
    assert d * DAY <= after + IST < d * DAY + DAY;
    var n := NextRun(minutes, Some(wall), after);
    DayAndTime(n, if d * DAY + w - IST <= after then d + 1 else d, w);
    if after < t && IstOfDay(t) == w {
      var e := IstDate(t);
      assert t + IST == e * DAY + w;
      if n > t {
        SameSlot(d, e, w, after, t);
      }
    }
  }

  /** With a wall time the next run is the first instant after `after` at that time of day, hence
      within a day; without one it is the clamped interval away. */
  lemma NextRunIsNextOccurrence(minutes: int, wall: Option<Wall>, after: int, t: int)
    ensures var n := NextRun(minutes, wall, after);
      && RightNext(minutes, wall, after, n)
      && (wall.Some? && wall.value.OnTheClock() && after < t && ShowsWall(t, wall.value) ==> n <= t)
  {
    hide ShowsWall, IstOfDay;
    if wall.Some? && wall.value.OnTheClock() {
      hide NextRun;
      FirstAtWall(minutes, wall.value, after, t);
      WallIs(NextRun(minutes, wall, after), wall.value);
      WallIs(t, wall.value);
      assert DAY == 86_400_000_000;
    } else {
      assert MINUTE == 60_000_000;
    }
  }

  lemma DayAndTime(n: int, d: int, w: int)
    requires 0 <= w < DAY && n + IST == d * DAY + w
    ensures IstDate(n) == d && IstOfDay(n) == w
  {
    DivUnique(n + IST, d, w);
  }

  lemma DivUnique(x: int, q: int, r: int)
    requires 0 <= r < DAY && x == q * DAY + r
    ensures x / DAY == q && x % DAY == r
  {
  }

  lemma SameSlot(d: int, e: int, w: int, after: int, t: int)
    requires d * DAY <= after + IST < d * DAY + DAY && t + IST == e * DAY + w && 0 <= w < DAY
    requires after < t
    ensures if d * DAY + w - IST <= after then e >= d + 1 else e >= d
  {
  }

  // ----- tasks --------------------------------------------------------------------------

  datatype Status = Active | Failed | Paused | Done

  datatype Task = Task(
    status: Status, next: int, minutes: int, wall: Option<Wall>, goodParams: bool,
    runsToday: nat, runDate: Option<int>, totalRuns: nat)

  type Table = map<nat, Task>

  function NewTask(minutes: int, wall: Option<Wall>, goodParams: bool, now: int): Task {
    Task(Active, NextRun(ClampInterval(minutes), wall, now), ClampInterval(minutes), wall, goodParams, 0, None, 0)
  }

  /** `_reset_daily_cap_if_new_day` */
  function Reset(r: Task, now: int): Task {
    if r.runDate != Some(IstDate(now)) then r.(runDate := Some(IstDate(now)), runsToday := 0) else r
  }

  predicate Dispatches(r: Task, cap: int, now: int) {
    r.status == Active && Reset(r, now).runsToday < cap && r.goodParams
  }

  /** The first transaction of a run. Unreadable parameters raise inside it, so it is rolled back. */
  function Begun(r: Task, cap: int, now: int): Task {
    if r.status != Active then r
    else
      var r1 := Reset(r, now);
      if r1.runsToday >= cap then r1.(next := NextRun(r1.minutes, r1.wall, now))
      else if r.goodParams then r1
      else r
  }

  /** The second transaction, after the handler returned or raised. */
  function Finished(r: Task, ok: bool, now: int): Task {
    var r1 := r.(totalRuns := r.totalRuns + 1, runsToday := r.runsToday + 1);
    if ok then r1.(status := Active, next := NextRun(r1.minutes, r1.wall, now)) else r1.(status := Failed)
  }

  function Resumed(r: Task, now: int): Task {
    r.(status := Active, next := NextRun(r.minutes, r.wall, now))
  }

  datatype Dispatch = Dispatch(id: nat, date: int)

  // ----- what is due ----------------------------------------------------------------------

  predicate IsDue(tasks: Table, id: nat, now: int) {
    id in tasks && tasks[id].status == Active && tasks[id].next <= now
  }

  /** `list_due`: the due rows in the order of their times, the earliest `limit` of them. */
  predicate IsDueList(tasks: Table, now: int, limit: nat, due: seq<nat>) {
    && |due| <= limit
    && (forall k :: 0 <= k < |due| ==> IsDue(tasks, due[k], now))
    && (forall j, k :: 0 <= j < k < |due| ==> due[j] != due[k] && tasks[due[j]].next <= tasks[due[k]].next)
    && (forall id :: id in tasks && IsDue(tasks, id, now) && id !in due ==>
          |due| == limit && forall k :: 0 <= k < |due| ==> tasks[due[k]].next <= tasks[id].next)
  }

  /** The next time is right for a run that ended at `now`. */
  predicate DueProperly(r: Task, now: int) {
    RightNext(r.minutes, r.wall, now, r.next)
  }

  /** How often the row has run on the date of `now`. */
  function RunsOn(r: Task, now: int): nat {
    if r.runDate == Some((now + 19_800_000_000) / 86_400_000_000) then r.runsToday else 0
  }

  /** What a due turn comes to. An active row below its cap with readable parameters is dispatched,
      its counter brought to the date; one at its cap is put off, and keeps its status and totals; one
      that is not active, or whose parameters cannot be read, is left as it was. */
  lemma BegunIs(r: Task, cap: int, now: int)
    ensures Dispatches(r, cap, now) <==> r.status == Active && RunsOn(r, now) < cap && r.goodParams
    ensures var b := Begun(r, cap, now);
      if r.status != Active || (RunsOn(r, now) < cap && !r.goodParams) then b == r
      else
        && b.status == Active && b.totalRuns == r.totalRuns
        && b.minutes == r.minutes && b.wall == r.wall && b.goodParams == r.goodParams
        && b.runDate == Some((now + 19_800_000_000) / 86_400_000_000) && b.runsToday == RunsOn(r, now)
        && if RunsOn(r, now) >= cap then DueProperly(b, now) else b.next == r.next
  {
    hide RightNext, NextRun;
    NextRunIsNextOccurrence(r.minutes, r.wall, now, now);
  }

  /** Registering and resuming make a row active and due in time, and resuming counts nothing. */
  lemma FreshlyDue(r: Task, minutes: int, wall: Option<Wall>, goodParams: bool, now: int)
    ensures var t := NewTask(minutes, wall, goodParams, now);
      && t.status == Active && t.wall == wall && t.goodParams == goodParams && t.totalRuns == t.runsToday == 0
      && RightNext(minutes, wall, now, t.next) && DueProperly(t, now)
    ensures var t := Resumed(r, now);
      t.status == Active && DueProperly(t, now) && t == r.(status := t.status, next := t.next)
  {
    NextRunIsNextOccurrence(minutes, wall, now, now);
    NextRunIsNextOccurrence(ClampInterval(minutes), wall, now, now);
    NextRunIsNextOccurrence(r.minutes, r.wall, now, now);
  }

  /** `lost` lists the dispatches whose end was never recorded. */
  class Registry {
    var tasks: Table
    ghost var log: seq<Dispatch>
    ghost var lost: seq<Dispatch>

    constructor ()
      ensures tasks == map[] && log == [] && lost == []
    {
      tasks, log, lost := map[], [], [];
    }

    method BeginRun(id: nat, cap: int, now: int) returns (dispatched: bool)
      modifies this`tasks, this`log
      ensures dispatched <==> id in old(tasks) && Dispatches(old(tasks)[id], cap, now)
      ensures tasks == if id in old(tasks) then old(tasks)[id := Begun(old(tasks)[id], cap, now)] else old(tasks)
      ensures log == old(log) + if dispatched then [Dispatch(id, IstDate(now))] else []
    {
      dispatched := false;
      if id !in tasks || tasks[id].status != Active {
        assert id in tasks ==> tasks == tasks[id := tasks[id]];
        return;
      }
      var r := tasks[id];
      var today := IstDate(now);
      if r.runDate != Some(today) {
        r := r.(runDate := Some(today), runsToday := 0);
      }
      if r.runsToday >= cap {
        tasks := tasks[id := r.(next := NextRun(r.minutes, r.wall, now))];
        return;
      }
      if !r.goodParams {
        assert tasks == tasks[id := tasks[id]];
        return;
      }
      tasks := tasks[id := r];
      log := log + [Dispatch(id, today)];
      dispatched := true;
    }

    method FinishRun(id: nat, ok: bool, now: int)
      requires id in tasks
      modifies this`tasks
      ensures tasks == old(tasks)[id := Finished(old(tasks)[id], ok, now)]
      ensures var (was, r) := (old(tasks)[id], tasks[id]);
        && r.totalRuns == was.totalRuns + 1 && r.runsToday == was.runsToday + 1 && r.runDate == was.runDate
        && (if ok then r.status == Active && DueProperly(r, now) else r.status == Failed && r.next == was.next)
      ensures forall k :: k in tasks && k != id ==> k in old(tasks) && tasks[k] == old(tasks)[k]
    {
      hide NextRun, IstOfDay;
      NextRunIsNextOccurrence(tasks[id].minutes, tasks[id].wall, now, now);
      var r := tasks[id];
      r := r.(totalRuns := r.totalRuns + 1);
      if !ok {
        r := r.(runsToday := r.runsToday + 1, status := Failed);
      } else {
        r := r.(runsToday := r.runsToday + 1);
        r := r.(status := Active);
        r := r.(next := NextRun(r.minutes, r.wall, now));
      }
      tasks := tasks[id := r];
    }

    /** The turn of one listed row: dispatch it if it may run, then record how its handler ended. */
    method RunOne(id: nat, cap: int, start: int, end: int, result: Option<bool>, ghost listed: seq<nat>)
      returns (ended: bool)
      requires listed != [] && listed[0] == id
      modifies this
      ensures World(tasks, log, None, lost, listed[1..])
           == Turn(World(old(tasks), old(log), None, old(lost), listed), cap, id, start, end, result)
      ensures (if ended then 1 else 0) + |lost| - |old(lost)| == |log| - |old(log)|
    {
      hide NextRun, IstDate, Begun, Finished, Dispatches, DueProperly;
      ended := BeginRun(id, cap, start);
      if ended && result.Some? {
        FinishRun(id, result.value, end);
      } else if ended {
        lost := lost + [Dispatch(id, IstDate(start))];
        ended := false;
      }
    }

    /** One sweep over the due rows listed at its beginning; `starts` and `ends` are the clock readings of each turn and
        `results` what came of it: the handler's success or failure, or None if its end was not recorded. */
    method RunDue(
        due: seq<nat>, now: int, limit: nat, cap: int,
        starts: seq<int>, ends: seq<int>, results: seq<Option<bool>>)
      returns (ran: nat)
      requires IsDueList(tasks, now, limit, due) && |due| == |starts| == |ends| == |results|
      modifies this
      ensures World(tasks, log, None, lost, [])
           == Sweep(Apply(World(old(tasks), old(log), None, old(lost), []), ListDue(limit, due), cap, now),
                    cap, due, starts, ends, results)
      ensures ran + |lost| - |old(lost)| == |log| - |old(log)|
    {
      hide Turn, IsDueList;
      ran := 0;
      for k := 0 to |due|
        invariant World(tasks, log, None, lost, due[k..])
               == Sweep(World(old(tasks), old(log), None, old(lost), due), cap,
                        due[..k], starts[..k], ends[..k], results[..k])
        invariant ran + |lost| - |old(lost)| == |log| - |old(log)|
      {
        var ended := RunOne(due[k], cap, starts[k], ends[k], results[k], due[k..]);
        if ended {
          ran := ran + 1;
        }
        assert due[k..][0] == due[k] && due[k..][1..] == due[k + 1..];
        assert due[..k + 1][..k] == due[..k] && starts[..k + 1][..k] == starts[..k];
        assert ends[..k + 1][..k] == ends[..k] && results[..k + 1][..k] == results[..k];
      }
      assert due[..|due|] == due && starts[..|due|] == starts && ends[..|due|] == ends && results[..|due|] == results;
    }
  }

  function AllDue(tasks: Table, now: int): set<nat> {
    set id | id in tasks && tasks[id].status == Active && tasks[id].next <= now
  }

  /** The list holds every due row, or `limit` of them. */
  lemma DueListSize(tasks: Table, now: int, limit: nat, due: seq<nat>)
    requires IsDueList(tasks, now, limit, due)
    ensures var all := |AllDue(tasks, now)|;
      |due| == if all < limit then all else limit
  {
    var all := AllDue(tasks, now);
    var listed := set id | id in due;
    DistinctSize(due, listed);
    assert listed <= all by {
      forall id | id in listed ensures id in all {
        assert IsDue(tasks, id, now);
      }
    }
    SubsetSize(listed, all);
    if |due| < limit {
      assert forall id :: id in all ==> IsDue(tasks, id, now);
      assert all == listed;
    }
  }

  lemma {:induction false} DistinctSize(ids: seq<nat>, all: set<nat>)
    requires forall j, k :: 0 <= j < k < |ids| ==> ids[j] != ids[k]
    requires forall id :: id in ids <==> id in all
    ensures |all| == |ids|
    decreases |ids|
  {
    if ids == [] {
      assert all == {};
    } else {
      forall id ensures id in ids[1..] <==> id in all - {ids[0]} {
      }
      DistinctSize(ids[1..], all - {ids[0]});
    }
  }

  lemma SubsetSize(some: set<nat>, all: set<nat>)
    requires some <= all
    ensures |some| <= |all|
  {
    assert all == some + (all - some);
  }

  /** There is such a list at every moment, so a sweep can always begin. */
  lemma {:induction false} DueListExists(tasks: Table, now: int, limit: nat) returns (due: seq<nat>)
    ensures IsDueList(tasks, now, limit, due)
    decreases limit
  {
    due := [];
    if limit == 0 {
    } else {
      due := DueListExists(tasks, now, limit - 1);
      var more := set id | id in tasks && IsDue(tasks, id, now) && id !in due;
      assert forall id :: id in tasks && IsDue(tasks, id, now) && id !in due ==> id in more;
      if more != {} {
        var id := Earliest(tasks, more);
        due := due + [id];
      }
    }
  }

  lemma {:induction false} Earliest(tasks: Table, ids: set<nat>) returns (id: nat)
    requires ids != {} && forall i :: i in ids ==> i in tasks
    ensures id in ids && forall i :: i in ids ==> tasks[id].next <= tasks[i].next
    decreases |ids|
  {
    id :| id in ids;
    var rest := ids - {id};
    if rest == {} {
      assert ids == {id};
    } else {
      var other := Earliest(tasks, rest);
      if tasks[other].next < tasks[id].next {
        id := other;
      }
      assert forall i :: i in ids ==> i in rest || i in ids - rest;
    }
  }

  // ----- runs ---------------------------------------------------------------------------

  /** `running` is the dispatch whose handler is executing; there is one worker. `lost` lists the
      dispatches whose end was never recorded, `listed` the rows the sweep in progress has yet to
      come to. */
  datatype World = World(
    tasks: Table, log: seq<Dispatch>, running: Option<Dispatch>, lost: seq<Dispatch>, listed: seq<nat>)

  /** `Lose` is the worker dying in a handler, or the transaction after it failing. */
  datatype Op =
    | Register(id: nat, minutes: int, wall: Option<Wall>, goodParams: bool)
    | ListDue(limit: nat, due: seq<nat>)
    | Begin(id: nat)
    | Finish(ok: bool)
    | Lose
    | Pause(id: nat)
    | Resume(id: nat)
    | Delete(id: nat)

  function SetTask(w: World, id: nat, r: Task): World {
    w.(tasks := w.tasks[id := r])
  }

  function Apply(w: World, op: Op, cap: int, now: int): World {
    match op
    case Register(id, minutes, wall, goodParams) =>
      if id in w.tasks then w else SetTask(w, id, NewTask(minutes, wall, goodParams, now))
    case ListDue(limit, due) =>
      if w.running.None? && IsDueList(w.tasks, now, limit, due) then w.(listed := due) else w
    case Begin(id) =>
      if w.running.Some? || w.listed == [] || w.listed[0] != id then w
      else if id !in w.tasks then w.(listed := w.listed[1..])
      else
        var w1 := SetTask(w, id, Begun(w.tasks[id], cap, now)).(listed := w.listed[1..]);
        if Dispatches(w.tasks[id], cap, now)
        then w1.(log := w.log + [Dispatch(id, IstDate(now))], running := Some(Dispatch(id, IstDate(now))))
        else w1
    case Finish(ok) =>
      if w.running.None? || w.running.value.id !in w.tasks then w
      else SetTask(w, w.running.value.id, Finished(w.tasks[w.running.value.id], ok, now)).(running := None)
    case Lose => if w.running.None? then w else w.(running := None, lost := w.lost + [w.running.value])
    case Pause(id) => if id in w.tasks then SetTask(w, id, w.tasks[id].(status := Paused)) else w
    case Resume(id) => if id in w.tasks then SetTask(w, id, Resumed(w.tasks[id], now)) else w
    case Delete(id) => if id in w.tasks then SetTask(w, id, w.tasks[id].(status := Done)) else w
  }

  /** Whatever becomes of the first row listed, gone or stopped or dispatched, the sweep goes on to the next. */
  lemma BeginMovesOn(w: World, cap: int, now: int)
    requires w.running.None? && w.listed != []
    ensures var w' := Apply(w, Begin(w.listed[0]), cap, now);
      && w'.listed == w.listed[1..]
      && (w'.running.Some? <==>
            w.listed[0] in w.tasks && w.tasks[w.listed[0]].status == Active && w.tasks[w.listed[0]].goodParams
            && RunsOn(w.tasks[w.listed[0]], now) < cap)
      && w'.tasks.Keys == w.tasks.Keys
      && forall id :: id in w.tasks && id != w.listed[0] ==> w'.tasks[id] == w.tasks[id]
  {
    hide Begun, RunsOn, Dispatches;
    if w.listed[0] in w.tasks {
      BegunIs(w.tasks[w.listed[0]], cap, now);
    }
  }

  function Turn(w: World, cap: int, id: nat, start: int, end: int, result: Option<bool>): World {
    var w1 := Apply(w, Begin(id), cap, start);
    if w1.running.None? then w1
    else Apply(w1, if result.Some? then Finish(result.value) else Lose, cap, end)
  }

  function Sweep(w: World, cap: int, due: seq<nat>, starts: seq<int>, ends: seq<int>, results: seq<Option<bool>>): World
    requires |due| == |starts| == |ends| == |results|
  {
    if due == [] then w
    else
      var n := |due| - 1;
      Turn(Sweep(w, cap, due[..n], starts[..n], ends[..n], results[..n]), cap, due[n], starts[n], ends[n], results[n])
  }

  datatype Timed = Timed(op: Op, now: int)

  predicate ClockRuns(ops: seq<Timed>) {
    forall i, j :: 0 <= i < j < |ops| ==> ops[i].now <= ops[j].now
  }

  function Run(cap: int, ops: seq<Timed>): World {
    if ops == [] then World(map[], [], None, [], [])
    else Apply(Run(cap, ops[..|ops| - 1]), ops[|ops| - 1].op, cap, ops[|ops| - 1].now)
  }

  function CountOn(log: seq<Dispatch>, id: nat, date: int): nat {
    if log == [] then 0
    else CountOn(log[..|log| - 1], id, date) + (if log[|log| - 1] == Dispatch(id, date) then 1 else 0)
  }

  function CountAll(log: seq<Dispatch>, id: nat): nat {
    if log == [] then 0
    else CountAll(log[..|log| - 1], id) + (if log[|log| - 1].id == id then 1 else 0)
  }

  function InFlight(w: World, id: nat): nat {
    if w.running.Some? && w.running.value.id == id then 1 else 0
  }

  function Limit(cap: int): nat {
    if cap < 0 then 0 else cap
  }

  /** The counters of a row are what the logs say. */
  ghost predicate Counted(w: World, cap: int, now: int, id: nat)
    requires id in w.tasks
  {
    var r := w.tasks[id];
    && r.totalRuns + InFlight(w, id) + CountAll(w.lost, id) == CountAll(w.log, id)
    && (r.runDate.Some? ==>
          && r.runDate.value <= IstDate(now)
          && CountOn(w.log, id, r.runDate.value)
               == r.runsToday + InFlight(w, id) + CountOn(w.lost, id, r.runDate.value))
    && (r.runDate.None? ==> r.runsToday == 0)
    && (InFlight(w, id) == 1 ==> r.runDate == Some(w.running.value.date))
    && (forall d :: (r.runDate.Some? ==> d > r.runDate.value) ==>
          CountOn(w.log, id, d) == 0 && CountOn(w.lost, id, d) == 0)
  }

  ghost predicate Inv(w: World, cap: int, now: int) {
    && (w.running.Some? ==> w.running.value.id in w.tasks)
    && (forall id :: id in w.tasks ==> Counted(w, cap, now, id))
    && (forall id: nat :: id !in w.tasks ==> CountAll(w.log, id) == 0 && CountAll(w.lost, id) == 0)
    && (forall id: nat, d :: CountOn(w.log, id, d) <= Limit(cap) + CountOn(w.lost, id, d))
  }

  lemma CountStep(log: seq<Dispatch>, e: Dispatch, id: nat, d: int)
    ensures CountOn(log + [e], id, d) == CountOn(log, id, d) + (if e == Dispatch(id, d) then 1 else 0)
    ensures CountAll(log + [e], id) == CountAll(log, id) + (if e.id == id then 1 else 0)
  {
    assert (log + [e])[..|log|] == log;
  }

  lemma {:induction false} CountOnBelowAll(log: seq<Dispatch>, id: nat, d: int)
    ensures CountOn(log, id, d) <= CountAll(log, id)
  {
    if log == [] {
    } else {
      CountOnBelowAll(log[..|log| - 1], id, d);
    }
  }

  /** An operation that changes one row without touching its counters keeps the books right. */
  lemma SameCounters(w: World, cap: int, now: int, now': int, id: nat, r: Task)
    requires Inv(w, cap, now) && id in w.tasks && now <= now'
    requires r.runsToday == w.tasks[id].runsToday && r.runDate == w.tasks[id].runDate
    requires r.totalRuns == w.tasks[id].totalRuns
    ensures Inv(SetTask(w, id, r), cap, now')
  {
    hide CountOn, CountAll;
    DatesGrow(now, now');
    var w' := SetTask(w, id, r);
    forall k | k in w'.tasks ensures Counted(w', cap, now', k) {
      assert Counted(w, cap, now, k);
    }
  }

  lemma DatesGrow(now: int, now': int)
    requires now <= now'
    ensures IstDate(now) <= IstDate(now')
  {
  }

  lemma LaterClock(w: World, cap: int, now: int, now': int)
    requires Inv(w, cap, now) && now <= now'
    ensures Inv(w, cap, now')
  {
    hide CountOn, CountAll;
    DatesGrow(now, now');
    forall k | k in w.tasks ensures Counted(w, cap, now', k) {
      assert Counted(w, cap, now, k);
    }
  }

  lemma RegisterKeeps(w: World, cap: int, now: int, id: nat, r: Task)
    requires Inv(w, cap, now) && id !in w.tasks
    requires r.runsToday == 0 && r.runDate == None && r.totalRuns == 0
    ensures Inv(SetTask(w, id, r), cap, now)
  {
    hide CountOn, CountAll;
    var w' := SetTask(w, id, r);
    forall k | k in w'.tasks ensures Counted(w', cap, now, k) {
      if k == id {
        forall d ensures CountOn(w'.log, id, d) == 0 && CountOn(w'.lost, id, d) == 0 {
          CountOnBelowAll(w.log, id, d);
          CountOnBelowAll(w.lost, id, d);
        }
      } else {
        assert Counted(w, cap, now, k);
      }
    }
  }

  /** A new day starts at zero. */
  lemma ResetKeeps(w: World, cap: int, now: int, id: nat)
    requires Inv(w, cap, now) && id in w.tasks && w.running.None?
    ensures Inv(SetTask(w, id, Reset(w.tasks[id], now)), cap, now)
  {
    hide CountOn, CountAll;
    var w' := SetTask(w, id, Reset(w.tasks[id], now));
    assert Counted(w, cap, now, id);
    forall k | k in w'.tasks ensures Counted(w', cap, now, k) {
      assert Counted(w, cap, now, k);
    }
  }

  lemma DispatchKeeps(w: World, cap: int, now: int, id: nat)
    requires Inv(w, cap, now) && id in w.tasks && w.running.None?
    requires w.tasks[id].runDate == Some(IstDate(now)) && w.tasks[id].runsToday < cap
    ensures var e := Dispatch(id, IstDate(now)); Inv(w.(log := w.log + [e], running := Some(e)), cap, now)
  {
    hide CountOn, CountAll, IstDate;
    var e := Dispatch(id, IstDate(now));
    var w' := w.(log := w.log + [e], running := Some(e));
    assert Counted(w, cap, now, id);
    forall k: nat, d ensures CountOn(w'.log, k, d) <= Limit(cap) + CountOn(w.lost, k, d) {
      CountStep(w.log, e, k, d);
    }
    forall k | k in w'.tasks ensures Counted(w', cap, now, k) {
      assert Counted(w, cap, now, k);
      CountStep(w.log, e, k, IstDate(now));
      forall d ensures CountOn(w'.log, k, d) == CountOn(w.log, k, d) + (if e == Dispatch(k, d) then 1 else 0) {
        CountStep(w.log, e, k, d);
      }
    }
    forall k: nat | k !in w'.tasks ensures CountAll(w'.log, k) == 0 {
      CountStep(w.log, e, k, 0);
    }
  }

  lemma FinishKeeps(w: World, cap: int, now: int, now': int, ok: bool)
    requires Inv(w, cap, now) && w.running.Some? && now <= now'
    ensures Inv(Apply(w, Finish(ok), cap, now'), cap, now')
  {
    hide CountOn, CountAll, NextRun;
    DatesGrow(now, now');
    var w' := Apply(w, Finish(ok), cap, now');
    forall k | k in w'.tasks ensures Counted(w', cap, now', k) {
      assert Counted(w, cap, now, k);
    }
  }

  lemma LoseKeeps(w: World, cap: int, now: int)
    requires Inv(w, cap, now) && w.running.Some?
    ensures Inv(w.(running := None, lost := w.lost + [w.running.value]), cap, now)
  {
    hide CountOn, CountAll;
    var e := w.running.value;
    var w' := w.(running := None, lost := w.lost + [e]);
    forall k: nat, d ensures CountOn(w'.lost, k, d) == CountOn(w.lost, k, d) + (if e == Dispatch(k, d) then 1 else 0) {
      CountStep(w.lost, e, k, d);
    }
    forall k: nat ensures CountAll(w'.lost, k) == CountAll(w.lost, k) + (if e.id == k then 1 else 0) {
      CountStep(w.lost, e, k, 0);
    }
    forall k | k in w'.tasks ensures Counted(w', cap, now, k) {
      assert Counted(w, cap, now, k);
    }
    assert Counted(w, cap, now, e.id);
  }

  lemma ListedIsFree(w: World, cap: int, now: int, listed: seq<nat>)
    requires Inv(w, cap, now)
    ensures Inv(w.(listed := listed), cap, now)
  {
    hide CountOn, CountAll;
    var w' := w.(listed := listed);
    forall k | k in w'.tasks ensures Counted(w', cap, now, k) {
      assert Counted(w, cap, now, k);
    }
  }

  lemma BeginKeeps(w: World, cap: int, now: int, id: nat)
    requires Inv(w, cap, now) && w.running.None? && id in w.tasks && w.listed != [] && w.listed[0] == id
    ensures Inv(Apply(w, Begin(id), cap, now), cap, now)
  {
    hide CountOn, CountAll, Inv, NextRun;
    var r := w.tasks[id];
    var v := w.(listed := w.listed[1..]);
    ListedIsFree(w, cap, now, w.listed[1..]);
    if r.status != Active {
      SameCounters(v, cap, now, now, id, r);
    } else {
      ResetKeeps(v, cap, now, id);
      var v1 := SetTask(v, id, Reset(r, now));
      var r' := Begun(r, cap, now);
      if Dispatches(r, cap, now) {
        DispatchKeeps(v1, cap, now, id);
      } else if Reset(r, now).runsToday >= cap {
        SameCounters(v1, cap, now, now, id, r');
        assert SetTask(v1, id, r') == SetTask(v, id, r');
      } else {
        SameCounters(v, cap, now, now, id, r);
      }
    }
  }

  lemma ApplyKeepsInv(w: World, op: Op, cap: int, now: int, now': int)
    requires Inv(w, cap, now) && now <= now'
    ensures Inv(Apply(w, op, cap, now'), cap, now')
  {
    hide CountOn, CountAll, Inv, NextRun, Begun, Dispatches, Finished;
    LaterClock(w, cap, now, now');
    match op {
      case Register(id, minutes, wall, goodParams) =>
        if id !in w.tasks {
          RegisterKeeps(w, cap, now', id, NewTask(minutes, wall, goodParams, now'));
        }
      case ListDue(limit, due) =>
        ListedIsFree(w, cap, now', due);
      case Begin(id) =>
        if w.running.None? && w.listed != [] && w.listed[0] == id {
          if id in w.tasks {
            BeginKeeps(w, cap, now', id);
          } else {
            ListedIsFree(w, cap, now', w.listed[1..]);
          }
        }
      case Finish(ok) =>
        if w.running.Some? {
          FinishKeeps(w, cap, now', now', ok);
        }
      case Lose =>
        if w.running.Some? {
          LoseKeeps(w, cap, now');
        }
      case Pause(id) =>
        if id in w.tasks {
          SameCounters(w, cap, now', now', id, w.tasks[id].(status := Paused));
        }
      case Resume(id) =>
        if id in w.tasks {
          SameCounters(w, cap, now', now', id, Resumed(w.tasks[id], now'));
        }
      case Delete(id) =>
        if id in w.tasks {
          SameCounters(w, cap, now', now', id, w.tasks[id].(status := Done));
        }
    }
  }

  /** Over any run with a clock that does not go back, with pauses, resumptions, deletions,
      registrations and deaths anywhere in between, the dispatches of a row on one IST date exceed
      `cap` by no more than those of them whose end was lost, and its total is the number of its
      dispatches that came to a recorded end. */
  lemma {:induction false} CapHolds(cap: int, ops: seq<Timed>)
    requires ClockRuns(ops)
    ensures var w := Run(cap, ops);
      && (forall id: nat, d :: CountOn(w.log, id, d) <= Limit(cap) + CountOn(w.lost, id, d))
      && (forall id :: id in w.tasks ==>
            w.tasks[id].totalRuns + InFlight(w, id) + CountAll(w.lost, id) == CountAll(w.log, id))
    ensures ops != [] ==> Inv(Run(cap, ops), cap, ops[|ops| - 1].now)
  {
    hide CountOn, CountAll;
    if ops == [] {
      NothingCounted();
    } else {
      var n := |ops| - 1;
      CapHolds(cap, ops[..n]);
      if n == 0 {
        NothingCounted();
        assert Inv(Run(cap, ops[..n]), cap, ops[0].now);
        ApplyKeepsInv(Run(cap, ops[..n]), ops[n].op, cap, ops[0].now, ops[n].now);
      } else {
        assert ops[..n][n - 1] == ops[n - 1];
        ApplyKeepsInv(Run(cap, ops[..n]), ops[n].op, cap, ops[n - 1].now, ops[n].now);
      }
      var w := Run(cap, ops);
      forall id | id in w.tasks
        ensures w.tasks[id].totalRuns + InFlight(w, id) + CountAll(w.lost, id) == CountAll(w.log, id)
      {
        assert Counted(w, cap, ops[n].now, id);
      }
    }
  }

  /** Without such losses the cap is the cap. */
  lemma CapIsExact(cap: int, ops: seq<Timed>, id: nat, d: int)
    requires ClockRuns(ops) && forall k :: 0 <= k < |ops| ==> !ops[k].op.Lose?
    ensures CountOn(Run(cap, ops).log, id, d) <= Limit(cap)
  {
    hide Apply;
    CapHolds(cap, ops);
    NothingLost(cap, ops);
    NothingCounted();
  }

  /** A row is registered and, when its time `t` has come, dispatched in two sweeps, the first of
      which dies in its handler. */
  function TwoSweeps(id: nat, minutes: int, now: int, t: int): seq<Timed> {
    [Timed(Register(id, minutes, None, true), now)]
    + [Timed(ListDue(1, [id]), t)] + [Timed(Begin(id), t)] + [Timed(Lose, t)]
    + [Timed(ListDue(1, [id]), t)] + [Timed(Begin(id), t)]
  }

  /** With such a loss the cap is exceeded: under a cap of one a row is dispatched twice on one date. */
  lemma LostRunIsRepeated(id: nat, minutes: int, now: int)
    ensures var t := NewTask(minutes, None, true, now).next;
      Run(1, TwoSweeps(id, minutes, now, t)).log == [Dispatch(id, IstDate(t)), Dispatch(id, IstDate(t))]
  {
    hide NextRun, IstDate, Run, IsDueList;
    var r := NewTask(minutes, None, true, now);
    var t := r.next;
    var e := Dispatch(id, IstDate(t));
    var begun := r.(runDate := Some(IstDate(t)));
    var o1 := [Timed(Register(id, minutes, None, true), now)];
    var o2 := o1 + [Timed(ListDue(1, [id]), t)];
    var o3 := o2 + [Timed(Begin(id), t)];
    var o4 := o3 + [Timed(Lose, t)];
    var o5 := o4 + [Timed(ListDue(1, [id]), t)];
    NothingRun();
    assert [] + o1 == o1;
    RunStep(1, [], o1[0]);
    RunStep(1, o1, Timed(ListDue(1, [id]), t));
    RunStep(1, o2, Timed(Begin(id), t));
    RunStep(1, o3, Timed(Lose, t));
    RunStep(1, o4, Timed(ListDue(1, [id]), t));
    RunStep(1, o5, Timed(Begin(id), t));
    OnlyRowListed(map[id := r], id, t);
    OnlyRowListed(map[id := begun], id, t);
    assert Run(1, o1) == World(map[id := r], [], None, [], []);
    assert Run(1, o2) == World(map[id := r], [], None, [], [id]);
    assert [id][1..] == [] && [] + [e] == [e];
    assert Run(1, o3) == World(map[id := begun], [e], Some(e), [], []);
    assert Run(1, o5) == World(map[id := begun], [e], None, [e], [id]);
  }

  lemma OnlyRowListed(tasks: Table, id: nat, now: int)
    requires tasks.Keys == {id} && IsDue(tasks, id, now)
    ensures IsDueList(tasks, now, 1, [id])
  {
  }

  lemma NothingRun()
    ensures forall cap :: Run(cap, []) == World(map[], [], None, [], [])
  {
  }

  lemma RunStep(cap: int, ops: seq<Timed>, t: Timed)
    ensures Run(cap, ops + [t]) == Apply(Run(cap, ops), t.op, cap, t.now)
  {
    assert (ops + [t])[..|ops|] == ops;
  }

  lemma {:induction false} NothingLost(cap: int, ops: seq<Timed>)
    requires forall k :: 0 <= k < |ops| ==> !ops[k].op.Lose?
    ensures Run(cap, ops).lost == []
  {
    hide NextRun, Begun, Finished;
    if ops == [] {
    } else {
      NothingLost(cap, ops[..|ops| - 1]);
    }
  }

  lemma NothingCounted()
    ensures forall id: nat, d :: CountOn([], id, d) == 0
    ensures forall id: nat :: CountAll([], id) == 0
  {
  }

  // ----- after a dispatch -------------------------------------------------------------------

  /** When the handler returns, its row is either in error, or active and due strictly later, at its
      next wall-clock occurrence or an interval away; every other row is as it was. */
  lemma AfterDispatch(w: World, cap: int, ok: bool, now: int)
    requires w.running.Some? && w.running.value.id in w.tasks
    ensures var (id, w') := (w.running.value.id, Apply(w, Finish(ok), cap, now));
      && w'.running == None && w'.tasks.Keys == w.tasks.Keys
      && (if ok then w'.tasks[id].status == Active && DueProperly(w'.tasks[id], now) else w'.tasks[id].status == Failed)
      && (forall k :: k in w.tasks && k != id ==> w'.tasks[k] == w.tasks[k])
  {
    hide IstOfDay, NextRun;
    var r := w.tasks[w.running.value.id];
    NextRunIsNextOccurrence(r.minutes, r.wall, now, now);
  }

  /** A row waiting for its time is not on the list of the sweep in progress unless its time had
      come when the list was made. */
  ghost predicate Waits(w: World, id: nat, next: int, now: int) {
    && id in w.tasks && InFlight(w, id) == 0 && w.tasks[id].next >= next
    && (id in w.listed ==> now >= next)
  }

  lemma StepWaits(w: World, op: Op, cap: int, id: nat, next: int, now: int, now': int)
    requires Waits(w, id, next, now) && now <= now' && op != Resume(id)
    ensures var w' := Apply(w, op, cap, now');
      if CountAll(w'.log, id) > CountAll(w.log, id) then now' >= next
      else CountAll(w'.log, id) == CountAll(w.log, id) && Waits(w', id, next, now')
  {
    hide NextRun, CountAll, CountOn;
    if op.Begin? {
      CountStep(w.log, Dispatch(op.id, IstDate(now')), id, 0);
      if w.running.None? && w.listed != [] && w.listed[0] == op.id && op.id == id {
        assert id in w.listed;
        NextRunIsNextOccurrence(w.tasks[id].minutes, w.tasks[id].wall, now', now');
      }
    }
  }

  lemma {:induction false} NotBeforeItsTime(w: World, cap: int, ops: seq<Timed>, id: nat, next: int, now: int)
    requires Waits(w, id, next, now) && ClockRuns(ops) && (ops != [] ==> now <= ops[0].now)
    requires forall k :: 0 <= k < |ops| ==> ops[k].op != Resume(id)
    ensures var w' := Continue(w, cap, ops);
      if CountAll(w'.log, id) > CountAll(w.log, id) then ops != [] && ops[|ops| - 1].now >= next
      else (CountAll(w'.log, id) == CountAll(w.log, id)
            && Waits(w', id, next, if ops == [] then now else ops[|ops| - 1].now))
  {
    hide Apply, CountAll, Waits;
    if ops == [] {
    } else {
      var n := |ops| - 1;
      NotBeforeItsTime(w, cap, ops[..n], id, next, now);
      var before := Continue(w, cap, ops[..n]);
      if CountAll(before.log, id) == CountAll(w.log, id) {
        StepWaits(before, ops[n].op, cap, id, next, if n == 0 then now else ops[n - 1].now, ops[n].now);
      } else {
        LogGrows(before, ops[n].op, cap, ops[n].now, id);
      }
    }
  }

  lemma LogGrows(w: World, op: Op, cap: int, now: int, id: nat)
    ensures CountAll(Apply(w, op, cap, now).log, id) >= CountAll(w.log, id)
  {
    hide NextRun, CountAll, CountOn;
    if op.Begin? {
      CountStep(w.log, Dispatch(op.id, IstDate(now)), id, 0);
    }
  }

  /** Dispatches are spaced: after its handler has succeeded a row is not dispatched again, unless it
      is resumed, before the next wall-clock occurrence or interval computed at that moment. */
  lemma DispatchesAreSpaced(w: World, cap: int, end: int, ops: seq<Timed>)
    requires w.running.Some? && w.running.value.id in w.tasks && w.running.value.id !in w.listed
    requires ClockRuns(ops) && (ops != [] ==> end <= ops[0].now)
    requires forall k :: 0 <= k < |ops| ==> ops[k].op != Resume(w.running.value.id)
    ensures var (id, w1) := (w.running.value.id, Apply(w, Finish(true), cap, end));
      && DueProperly(w1.tasks[id], end)
      && (CountAll(Continue(w1, cap, ops).log, id) > CountAll(w1.log, id) ==>
            ops != [] && ops[|ops| - 1].now >= w1.tasks[id].next)
  {
    hide NextRun, CountAll, DueProperly, Continue;
    var id := w.running.value.id;
    AfterDispatch(w, cap, true, end);
    var w1 := Apply(w, Finish(true), cap, end);
    NotBeforeItsTime(w1, cap, ops, id, w1.tasks[id].next, end);
  }

  /** The row being dispatched has left the list, in every run. */
  lemma {:induction false} RunningIsNotListed(cap: int, ops: seq<Timed>)
    ensures var w := Run(cap, ops);
      && (forall j, k :: 0 <= j < k < |w.listed| ==> w.listed[j] != w.listed[k])
      && (w.running.Some? ==> w.running.value.id !in w.listed)
  {
    hide NextRun, Begun, Finished, Dispatches;
    if ops == [] {
    } else {
      RunningIsNotListed(cap, ops[..|ops| - 1]);
    }
  }

  /** A row in error, with no handler of its own running, is not dispatched again until it is
      resumed. */
  lemma {:induction false} ErrorHoldsUntilResumed(w: World, cap: int, ops: seq<Timed>, id: nat)
    requires id in w.tasks && w.tasks[id].status != Active && InFlight(w, id) == 0
    requires forall k :: 0 <= k < |ops| ==> ops[k].op != Resume(id)
    ensures var w' := Continue(w, cap, ops);
      && id in w'.tasks && w'.tasks[id].status != Active && InFlight(w', id) == 0
      && CountAll(w'.log, id) == CountAll(w.log, id)
  {
    hide NextRun, CountAll, CountOn;
    if ops == [] {
    } else {
      var n := |ops| - 1;
      ErrorHoldsUntilResumed(w, cap, ops[..n], id);
      var before := Continue(w, cap, ops[..n]);
      if ops[n].op.Begin? {
        CountStep(before.log, Dispatch(ops[n].op.id, IstDate(ops[n].now)), id, 0);
      }
    }
  }

  function Continue(w: World, cap: int, ops: seq<Timed>): World {
    if ops == [] then w
    else Apply(Continue(w, cap, ops[..|ops| - 1]), ops[|ops| - 1].op, cap, ops[|ops| - 1].now)
  }

  /** A pause or a deletion made while the handler runs is lost: the handler's success makes the
      row active again, its failure puts it in error. It survives only if made outside a run. */
  lemma StopWhileRunningIsLost(w: World, cap: int, id: nat, op: Op, now: int, ok: bool)
    requires id in w.tasks && (op == Pause(id) || op == Delete(id))
    ensures var stopped := Apply(w, op, cap, now);
      var after := Apply(stopped, Finish(ok), cap, now);
      after.tasks[id].status == stopped.tasks[id].status <==> InFlight(w, id) == 0
  {
  }
}
