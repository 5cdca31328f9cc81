/** app/brain/repair_queue.py and the `auto_heal` driver of app/brain/self_diagnose.py: an
    accumulator of failure signatures with a one-fix-per-signature rule. */
module RepairQueue {
  import opened PyText

  const MAX_SIGNATURE := 160
  const MAX_PEOPLE := 20
  const CODE := "code"
  const UNKNOWN := "unknown"
  const VALID_FIX := {"memory", "directive", "config", "code", "capability", "environment", "unknown"}

  // ----- signatures ---------------------------------------------------------------

  predicate SlugChar(c: char) {
    'a' <= c <= 'z' || '0' <= c <= '9' || c == ':' || c == '+' || c == '-'
  }

  /** `re.sub(r"[^a-z0-9:+-]+", "-", s)` */
  function Collapse(s: string, inRun: bool): string
    decreases |s|
  {
    if s == "" then ""
    else if SlugChar(s[0]) then [s[0]] + Collapse(s[1..], false)
    else (if inRun then "" else "-") + Collapse(s[1..], true)
  }

  function TrimLeft(s: string): string {
    if s != "" && s[0] == '-' then TrimLeft(s[1..]) else s
  }

  function TrimRight(s: string): string {
    if s != "" && s[|s| - 1] == '-' then TrimRight(s[..|s| - 1]) else s
  }

  function Slug(text: string): string {
    var s := TrimRight(TrimLeft(Collapse(Lower(Strip(text)), false)));
    var cut := if |s| <= MAX_SIGNATURE then s else s[..MAX_SIGNATURE];
    if cut == "" then UNKNOWN else cut
  }

  predicate Slugged(s: string) {
    forall k :: 0 <= k < |s| ==> SlugChar(s[k])
  }

  predicate EndsInDash(s: string) {
    s != "" && s[|s| - 1] == '-'
  }

  lemma {:induction false} CollapseSlugs(s: string, inRun: bool)
    ensures Slugged(Collapse(s, inRun))
    decreases |s|
  {
    if s == "" {
    } else {
      CollapseSlugs(s[1..], !SlugChar(s[0]));
    }
  }

  lemma {:induction false} CollapseKeeps(s: string)
    requires Slugged(s)
    ensures Collapse(s, false) == s
    decreases |s|
  {
    if s == "" {
    } else {
      CollapseKeeps(s[1..]);
    }
  }

  lemma {:induction false} TrimsOnlyEnds(s: string)
    requires Slugged(s)
    ensures var t := TrimRight(TrimLeft(s)); Slugged(t) && (t != "" ==> t[0] != '-' && t[|t| - 1] != '-')
    decreases |s|
  {
    if s != "" && s[0] == '-' {
      TrimsOnlyEnds(s[1..]);
    } else {
      TrimRightShape(s);
    }
  }

  lemma {:induction false} TrimRightShape(s: string)
    requires Slugged(s)
    ensures var t := TrimRight(s); t <= s && Slugged(t) && !EndsInDash(t)
    ensures !EndsInDash(s) ==> TrimRight(s) == s
    decreases |s|
  {
    if EndsInDash(s) {
      TrimRightShape(s[..|s| - 1]);
    }
  }

  lemma SlugShape(text: string)
    ensures var t := Slug(text); t != "" && |t| <= MAX_SIGNATURE && Slugged(t) && t[0] != '-'
  {
    CollapseSlugs(Lower(Strip(text)), false);
    TrimsOnlyEnds(Collapse(Lower(Strip(text)), false));
  }

  /** A text made of slug characters that starts like a slug passes through unchanged, but for
      dashes at its end and the cut at 160. */
  lemma SlugOfSlugged(t: string)
    requires t != "" && Slugged(t) && t[0] != '-'
    ensures TrimRight(t) != "" && TrimRight(t)[0] == t[0]
    ensures Slug(t) == (if |TrimRight(t)| <= MAX_SIGNATURE then TrimRight(t) else TrimRight(t)[..MAX_SIGNATURE])
  {
    assert !IsSpace(t[0]) && !IsSpace(t[|t| - 1]);
    assert Strip(t) == t;
    assert Lower(t) == t;
    CollapseKeeps(t);
    TrimRightKeepsHead(t);
  }

  lemma {:induction false} TrimRightKeepsHead(t: string)
    requires t != "" && t[0] != '-'
    ensures TrimRight(t) != "" && TrimRight(t)[0] == t[0]
    decreases |t|
  {
    if EndsInDash(t) {
      TrimRightKeepsHead(t[..|t| - 1]);
    }
  }

  /** A signature is a fixed point of `_slug` exactly when the cut left no dash at its end. */
  lemma SlugFixedIff(text: string)
    ensures Slug(Slug(text)) == Slug(text) <==> !EndsInDash(Slug(text))
  {
    var t := Slug(text);
    SlugShape(text);
    SlugOfSlugged(t);
    TrimRightShape(t);
    if EndsInDash(t) {
      TrimRightShape(t[..|t| - 1]);
      assert |TrimRight(t)| < |t|;
    }
  }

  /** The characters a signature takes over: small letters, digits, colons and plus signs. */
  function Kept(s: string): string {
    if s == "" then "" else KeptChar(s[0]) + Kept(s[1..])
  }

  function KeptChar(c: char): string {
    if 'a' <= c <= 'z' || '0' <= c <= '9' || c == ':' || c == '+' then [c] else ""
  }

  lemma {:induction false} KeptJoins(a: string, b: string)
    ensures Kept(a + b) == Kept(a) + Kept(b)
  {
    hide KeptChar;
    if a == "" {
      assert a + b == b;
    } else {
      assert (a + b)[1..] == a[1..] + b;
      KeptJoins(a[1..], b);
    }
  }

  lemma {:induction false} CollapseKept(s: string, inRun: bool)
    ensures Kept(Collapse(s, inRun)) == Kept(s)
    decreases |s|
  {
    if s == "" {
    } else {
      CollapseKept(s[1..], !SlugChar(s[0]));
      var rest := Collapse(s[1..], !SlugChar(s[0]));
      KeptJoins([s[0]], rest);
      KeptJoins("-", rest);
      assert "" + rest == rest;
    }
  }

  lemma {:induction false} TrimLeftKept(s: string)
    ensures Kept(TrimLeft(s)) == Kept(s)
  {
    if s != "" && s[0] == '-' {
      TrimLeftKept(s[1..]);
    }
  }

  lemma {:induction false} TrimRightKept(s: string)
    ensures Kept(TrimRight(s)) == Kept(s)
  {
    if EndsInDash(s) {
      TrimRightKept(s[..|s| - 1]);
      KeptJoins(s[..|s| - 1], "-");
      assert s[..|s| - 1] + "-" == s;
    }
  }

  /** What a signature says of the text: the letters, digits, colons and plus signs of its lower-case
      form in their order, with dashes between them, as far as 160 characters reach. */
  lemma SlugIs(text: string)
    ensures var kept, t := Kept(Lower(Strip(text))), Slug(text);
      && (kept == "" ==> t == "unknown")
      && (kept != "" ==>
            && Kept(t) <= kept
            && (|t| < 160 ==> Kept(t) == kept)
            && |t| <= 160 && t[0] != '-'
            && forall k :: 0 <= k < |t| ==> t[k] in "abcdefghijklmnopqrstuvwxyz0123456789:+-")
  {
    var low := Lower(Strip(text));
    var run := Collapse(low, false);
    var s := TrimRight(TrimLeft(run));
    CollapseSlugs(low, false);
    CollapseKept(low, false);
    TrimLeftKept(run);
    TrimRightKept(TrimLeft(run));
    TrimsOnlyEnds(run);
    if s != "" {
      KeptJoins(s[..1], s[1..]);
      assert s[..1] + s[1..] == s && Kept(s[..1]) == s[..1];
    }
    if |s| > 160 {
      KeptJoins(s[..160], s[160..]);
      assert s[..160] + s[160..] == s;
    }
    SlugShape(text);
    forall k | 0 <= k < |Slug(text)| ensures Slug(text)[k] in "abcdefghijklmnopqrstuvwxyz0123456789:+-" {
      SlugCharsAre(Slug(text)[k]);
    }
  }

  lemma SlugCharsAre(c: char)
    requires SlugChar(c)
    ensures c in "abcdefghijklmnopqrstuvwxyz0123456789:+-"
  {
    var all := "abcdefghijklmnopqrstuvwxyz0123456789:+-";
    if 'a' <= c <= 'z' {
      assert all[c as int - 'a' as int] == c;
    } else if '0' <= c <= '9' {
      assert all[26 + (c as int - '0' as int)] == c;
    } else {
      assert all[36] == ':' && all[37] == '+' && all[38] == '-';
    }
  }

  // ----- rows ---------------------------------------------------------------------

  datatype Status = Observing | Ready | Repairing | Fixed | Escalated | Dismissed

  datatype Row = Row(tier: int, fixClass: string, recurrence: nat, guardian: bool, people: seq<string>, status: Status)
  type Queue = map<string, Row>

  /** One call of `note_failure`; an absent person is the empty string. */
  datatype Note = Note(signature: string, tier: int, person: string, guardian: bool, fixClass: string)

  function Clamp(tier: int): int {
    if tier < 1 then 1 else if tier > 4 then 4 else tier
  }

  function ValidFix(fixClass: string): string {
    if fixClass in VALID_FIX then fixClass else UNKNOWN
  }

  function ReadyAt(tier: int): int {
    if tier == 1 then 1 else 2
  }

  predicate IsReady(row: Row) {
    && 1 <= row.tier <= 3
    && row.recurrence >= ReadyAt(row.tier)
    && (row.tier == 2 && !row.guardian ==> |row.people| >= 2)
  }

  function Named(people: seq<string>, n: Note): seq<string> {
    if n.person != "" && !n.guardian && n.person !in people && |people| < MAX_PEOPLE then people + [n.person]
    else people
  }

  /** The row after the note, before its status is reconsidered. */
  function Accumulated(row: Option<Row>, n: Note): Row {
    match row
    case None => Row(Clamp(n.tier), ValidFix(n.fixClass), 1, n.guardian, Named([], n), Observing)
    case Some(r) =>
      Row(if Clamp(n.tier) < r.tier then Clamp(n.tier) else r.tier,
          if r.fixClass == UNKNOWN then ValidFix(n.fixClass) else r.fixClass,
          r.recurrence + 1, r.guardian || n.guardian, Named(r.people, n), r.status)
  }

  function NextStatus(row: Row): Status {
    if row.status == Fixed then Escalated
    else if row.status == Observing && IsReady(row) then Ready
    else row.status
  }

  function Lookup(q: Queue, sig: string): Option<Row> {
    if sig in q then Some(q[sig]) else None
  }

  function Noted(row: Option<Row>, n: Note): Row {
    var acc := Accumulated(row, n);
    acc.(status := NextStatus(acc))
  }

  function AfterNote(q: Queue, n: Note): Queue {
    var sig := Slug(n.signature);
    q[sig := Noted(Lookup(q, sig), n)]
  }

  /** `mark` looks the signature up by its slug. */
  function AfterMark(q: Queue, signature: string, status: Status): Queue {
    var sig := Slug(signature);
    if sig in q then q[sig := q[sig].(status := status)] else q
  }

  class Store {
    var rows: Queue

    constructor ()
      ensures rows == map[]
    {
      rows := map[];
    }

    /** A recurrence of a known signature: the fields change one after the other. */
    static method Recur(row: Row, n: Note) returns (r: Row)
      ensures r == Accumulated(Some(row), n)
    {
      hide ValidFix;
      var tier := if n.tier < 1 then 1 else if n.tier > 4 then 4 else n.tier;
      var fixClass := ValidFix(n.fixClass);
      r := row.(recurrence := row.recurrence + 1);
      if tier < r.tier {
        r := r.(tier := tier);
      }
      r := r.(guardian := r.guardian || n.guardian);
      if fixClass != UNKNOWN && r.fixClass == UNKNOWN {
        r := r.(fixClass := fixClass);
      }
      if n.person != "" && !n.guardian {
        if n.person !in r.people && |r.people| < MAX_PEOPLE {
          r := r.(people := r.people + [n.person]);
        }
      }
    }

    method NoteFailure(n: Note) returns (row: Row)
      modifies this
      ensures rows == AfterNote(old(rows), n)
      ensures row == rows[Slug(n.signature)]
    {
      hide Slug, IsReady, ValidFix, Named;
      var sig := Slug(n.signature);
      if sig !in rows {
        row := Row(Clamp(n.tier), ValidFix(n.fixClass), 1, n.guardian, Named([], n), Observing);
      } else {
        row := Recur(rows[sig], n);
      }
      if row.status == Fixed {
        row := row.(status := Escalated);
      } else if row.status == Observing && IsReady(row) {
        row := row.(status := Ready);
      }
      rows := rows[sig := row];
    }

    method MarkStatus(signature: string, status: Status) returns (found: bool)
      modifies this
      ensures rows == AfterMark(old(rows), signature, status)
      ensures found <==> Slug(signature) in old(rows)
      ensures rows.Keys == old(rows).Keys
      ensures forall s :: s in rows && s != Slug(signature) ==> rows[s] == old(rows)[s]
      ensures found ==> var row := rows[Slug(signature)];
        row.status == status && row == old(rows)[Slug(signature)].(status := status)
    {
      hide Slug;
      var sig := Slug(signature);
      found := sig in rows;
      if found {
        rows := rows[sig := rows[sig].(status := status)];
      }
    }
  }

  // ----- a row is a fold of its notes ---------------------------------------------

  function MinTier(h: seq<Note>): int {
    if h == [] then 4
    else
      var t, m := Clamp(h[|h| - 1].tier), MinTier(h[..|h| - 1]);
      if t < m then t else m
  }

  /** The first twenty distinct people other than the guardian, in order of appearance. */
  function People(h: seq<Note>): seq<string> {
    if h == [] then [] else Named(People(h[..|h| - 1]), h[|h| - 1])
  }

  function FirstFix(h: seq<Note>): string {
    if h == [] then UNKNOWN
    else
      var before := FirstFix(h[..|h| - 1]);
      if before == UNKNOWN then ValidFix(h[|h| - 1].fixClass) else before
  }

  predicate GuardianSpoke(h: seq<Note>) {
    exists k :: 0 <= k < |h| && h[k].guardian
  }

  /** The readiness rule read off the history itself. */
  predicate EvidenceSuffices(h: seq<Note>) {
    && MinTier(h) <= 3
    && |h| >= ReadyAt(MinTier(h))
    && (MinTier(h) == 2 && !GuardianSpoke(h) ==> |People(h)| >= 2)
  }

  predicate EverSuffices(h: seq<Note>) {
    exists k :: 0 <= k <= |h| && EvidenceSuffices(h[..k])
  }

  function RowOf(h: seq<Note>): Option<Row> {
    if h == [] then None else Some(Noted(RowOf(h[..|h| - 1]), h[|h| - 1]))
  }

  function FoldRow(h: seq<Note>, status: Status): Row {
    Row(MinTier(h), FirstFix(h), |h|, GuardianSpoke(h), People(h), status)
  }

  lemma GuardianSpokeStep(h: seq<Note>)
    requires h != []
    ensures GuardianSpoke(h) <==> GuardianSpoke(h[..|h| - 1]) || h[|h| - 1].guardian
  {
    var before := h[..|h| - 1];
    if k :| 0 <= k < |before| && before[k].guardian {
      assert h[k].guardian;
    }
    if k :| 0 <= k < |h| && h[k].guardian {
      assert k < |before| ==> before[k].guardian;
    }
  }

  lemma FirstIsFold(h: seq<Note>)
    requires |h| == 1
    ensures Accumulated(None, h[0]) == FoldRow(h, Observing)
    ensures 1 <= MinTier(h) <= 4
  {
    hide ValidFix;
    GuardianSpokeStep(h);
    assert h[..0] == [];
    assert MinTier(h[..0]) == 4 && People(h[..0]) == [] && FirstFix(h[..0]) == UNKNOWN;
  }

  lemma FoldSteps(h: seq<Note>)
    requires h != []
    ensures var (before, n) := (h[..|h| - 1], h[|h| - 1]);
      && MinTier(h) == (if Clamp(n.tier) < MinTier(before) then Clamp(n.tier) else MinTier(before))
      && FirstFix(h) == (if FirstFix(before) == UNKNOWN then ValidFix(n.fixClass) else FirstFix(before))
      && People(h) == Named(People(before), n)
  {
    hide Clamp, Named, ValidFix;
  }

  lemma LaterIsFold(h: seq<Note>, status: Status)
    requires |h| > 1
    requires 1 <= MinTier(h[..|h| - 1]) <= 4
    ensures Accumulated(Some(FoldRow(h[..|h| - 1], status)), h[|h| - 1]) == FoldRow(h, status)
    ensures 1 <= MinTier(h) <= 4
  {
    hide GuardianSpoke, Named, ValidFix, MinTier, FirstFix, People;
    GuardianSpokeStep(h);
    FoldSteps(h);
  }

  lemma FoldReadiness(h: seq<Note>, status: Status)
    requires 1 <= MinTier(h)
    ensures IsReady(FoldRow(h, status)) <==> EvidenceSuffices(h)
  {
  }

  /** However long the history, the row is its fold, and it has become ready exactly when some
      beginning of the history sufficed. */
  lemma {:induction false} RowIsFold(h: seq<Note>)
    ensures h != [] ==> RowOf(h) == Some(FoldRow(h, if EverSuffices(h) then Ready else Observing))
    ensures 1 <= MinTier(h) <= 4
  {
    hide Accumulated, EvidenceSuffices, EverSuffices, IsReady, People, FirstFix, GuardianSpoke;
    if h == [] {
    } else {
      var n := |h| - 1;
      var before := h[..n];
      RowIsFold(before);
      SufficesLater(h);
      if n == 0 {
        assert h[0] == h[n] && before == [];
        FirstIsFold(h);
      } else {
        LaterIsFold(h, if EverSuffices(before) then Ready else Observing);
      }
      FoldReadiness(h, Observing);
    }
  }

  /** The notes of one signature among those of many. */
  function NotesFor(notes: seq<Note>, sig: string): seq<Note> {
    if notes == [] then []
    else
      NotesFor(notes[..|notes| - 1], sig)
      + if Slug(notes[|notes| - 1].signature) == sig then [notes[|notes| - 1]] else []
  }

  function AfterNotes(notes: seq<Note>): Queue {
    if notes == [] then map[] else AfterNote(AfterNotes(notes[..|notes| - 1]), notes[|notes| - 1])
  }

  /** In a queue of many signatures each row is the row of its own notes and of no others. */
  lemma {:induction false} QueueIsFold(notes: seq<Note>, sig: string)
    ensures Lookup(AfterNotes(notes), sig) == RowOf(NotesFor(notes, sig))
  {
    hide Slug, Noted;
    if notes == [] {
    } else {
      var n := |notes| - 1;
      QueueIsFold(notes[..n], sig);
      var h := NotesFor(notes[..n], sig);
      assert h + [] == h;
      assert (h + [notes[n]])[..|h|] == h;
    }
  }

  /** Who is counted: distinct people, each named by a note that was not the guardian's, and
      nobody is left out until twenty are known. */
  lemma {:induction false} PeopleAreWitnesses(h: seq<Note>, who: string)
    ensures |People(h)| <= 20
    ensures forall i, j :: 0 <= i < j < |People(h)| ==> People(h)[i] != People(h)[j]
    ensures who in People(h) ==> Names(h, who)
    ensures Names(h, who) ==> who in People(h) || |People(h)| == 20
  {
    if h == [] {
    } else {
      var n := |h| - 1;
      var before := h[..n];
      PeopleAreWitnesses(before, who);
      if Names(before, who) {
        var k :| 0 <= k < |before| && before[k].person == who && !before[k].guardian && who != "";
        assert h[k] == before[k];
      }
      if k :| 0 <= k < |h| && h[k].person == who && !h[k].guardian && who != "" {
        assert k < n ==> before[k] == h[k];
      }
    }
  }

  predicate Names(h: seq<Note>, who: string) {
    exists k :: 0 <= k < |h| && h[k].person == who && !h[k].guardian && who != ""
  }

  /** The people are listed in the order of their first complaints. */
  lemma {:induction false} PeopleInOrder(h: seq<Note>, n: nat, who: string)
    requires n <= |h| && who in People(h[..n])
    ensures People(h[..n]) <= People(h)
    decreases |h|
  {
    if n == |h| {
      assert h[..n] == h;
    } else {
      var before := h[..|h| - 1];
      assert before[..n] == h[..n];
      PeopleInOrder(before, n, who);
    }
  }

  /** The fix class of a row is that of the first note with one of the six classes, or unknown. */
  lemma {:induction false} FirstFixIs(h: seq<Note>, k: nat)
    requires k <= |h|
    requires forall j :: 0 <= j < k ==>
      h[j].fixClass !in {"memory", "directive", "config", "code", "capability", "environment"}
    ensures k == |h| ==> FirstFix(h) == "unknown"
    ensures k < |h| && h[k].fixClass in {"memory", "directive", "config", "code", "capability", "environment"} ==>
      FirstFix(h) == h[k].fixClass
    decreases |h|
  {
    if h == [] {
    } else {
      var before := h[..|h| - 1];
      if k < |h| {
        FirstFixIs(before, k);
        assert k < |before| ==> before[k] == h[k];
      } else {
        FirstFixIs(before, k - 1);
      }
      KnownClasses(h[|h| - 1].fixClass);
    }
  }

  lemma KnownClasses(c: string)
    ensures ValidFix(c) == if c in {"memory", "directive", "config", "code", "capability", "environment"}
      then c else "unknown"
    ensures "unknown" !in {"memory", "directive", "config", "code", "capability", "environment"}
  {
    assert |"unknown"| == 7 && |"memory"| == 6 && |"directive"| == 9 && |"config"| == 6 && |"code"| == 4
        && |"capability"| == 10 && |"environment"| == 11;
  }

  // ----- readiness in plain numbers -------------------------------------------------

  predicate HasTier(h: seq<Note>, lo: int, hi: int) {
    exists k :: 0 <= k < |h| && lo <= h[k].tier <= hi
  }

  /** Two different people, neither of them the guardian, wrote notes of the history. */
  predicate TwoPeople(h: seq<Note>) {
    exists j, k :: 0 <= j < |h| && 0 <= k < |h| && h[j].person != h[k].person
      && h[j].person != "" && h[k].person != "" && !h[j].guardian && !h[k].guardian
  }

  /** One note of tier 1 or less is enough. Two notes are if the strongest is of tier 3, or if it is
      of tier 2 and the guardian or two different people are among those who wrote. Tier 4 never is. */
  predicate PlainlySuffices(h: seq<Note>) {
    || (exists k :: 0 <= k < |h| && h[k].tier <= 1)
    || (|h| >= 2 && HasTier(h, 2, 2) && (TwoPeople(h) || exists k :: 0 <= k < |h| && h[k].guardian))
    || (|h| >= 2 && !HasTier(h, 2, 2) && HasTier(h, 3, 3))
  }

  predicate Low(h: seq<Note>, t: int) {
    exists k :: 0 <= k < |h| && h[k].tier <= t
  }

  lemma {:induction false} MinTierIs(h: seq<Note>)
    ensures 1 <= MinTier(h) <= 4
    ensures MinTier(h) == 1 <==> Low(h, 1)
    ensures MinTier(h) <= 2 <==> Low(h, 2)
    ensures MinTier(h) <= 3 <==> Low(h, 3)
  {
    hide Low;
    if h == [] {
      assert !Low(h, 1) && !Low(h, 2) && !Low(h, 3) by { NothingLow(); }
    } else {
      MinTierIs(h[..|h| - 1]);
      LowStep(h, 1);
      LowStep(h, 2);
      LowStep(h, 3);
    }
  }

  lemma NothingLow()
    ensures forall t :: !Low([], t)
  {
  }

  lemma LowStep(h: seq<Note>, t: int)
    requires h != []
    ensures Low(h, t) <==> Low(h[..|h| - 1], t) || h[|h| - 1].tier <= t
  {
    var before := h[..|h| - 1];
    if k :| 0 <= k < |h| && h[k].tier <= t {
      assert k < |h| - 1 ==> before[k] == h[k];
    }
    if k :| 0 <= k < |before| && before[k].tier <= t {
      assert h[k] == before[k];
    }
  }

  lemma TwoPeopleIff(h: seq<Note>)
    ensures |People(h)| >= 2 <==> TwoPeople(h)
  {
    var people := People(h);
    if |people| >= 2 {
      PeopleAreWitnesses(h, people[0]);
      PeopleAreWitnesses(h, people[1]);
      var j :| 0 <= j < |h| && h[j].person == people[0] && !h[j].guardian && people[0] != "";
      var k :| 0 <= k < |h| && h[k].person == people[1] && !h[k].guardian && people[1] != "";
      assert h[j].person != h[k].person;
    }
    if TwoPeople(h) {
      var j, k :| 0 <= j < |h| && 0 <= k < |h| && h[j].person != h[k].person
        && h[j].person != "" && h[k].person != "" && !h[j].guardian && !h[k].guardian;
      PeopleAreWitnesses(h, h[j].person);
      PeopleAreWitnesses(h, h[k].person);
      assert Names(h, h[j].person) && Names(h, h[k].person);
    }
  }

  lemma SufficesIff(h: seq<Note>)
    ensures EvidenceSuffices(h) <==> PlainlySuffices(h)
  {
    hide MinTier, People, TwoPeople;
    MinTierIs(h);
    TwoPeopleIff(h);
    if k :| 0 <= k < |h| && h[k].tier <= 2 {
      assert h[k].tier <= 1 || HasTier(h, 2, 2);
    }
    if k :| 0 <= k < |h| && h[k].tier <= 3 {
      assert h[k].tier <= 2 || HasTier(h, 3, 3);
    }
  }

  /** For every history: the row is ready if and only if some beginning of the history was enough. */
  lemma ReadyExactly(h: seq<Note>)
    requires h != []
    ensures RowOf(h).Some?
    ensures RowOf(h).value.status ==
      if exists k :: 0 <= k <= |h| && PlainlySuffices(h[..k]) then Ready else Observing
  {
    hide RowOf, EvidenceSuffices, PlainlySuffices;
    RowIsFold(h);
    forall k | 0 <= k <= |h| ensures EvidenceSuffices(h[..k]) <==> PlainlySuffices(h[..k]) {
      SufficesIff(h[..k]);
    }
  }

  /** What a further note does to the status of a known row, whatever its history and marks were. */
  lemma StatusAfterNote(row: Row, n: Note)
    ensures var after := Noted(Some(row), n);
      after.status ==
        if row.status == Fixed then Escalated
        else if row.status == Observing
             && (|| after.tier == 1
                 || (after.tier == 2 && after.recurrence >= 2 && (after.guardian || |after.people| >= 2))
                 || (after.tier == 3 && after.recurrence >= 2)) then Ready
        else row.status
    ensures Noted(Some(row), n).recurrence == row.recurrence + 1
  {
    hide ValidFix, Named;
  }

  /** One complaint of the guardian is not enough, two are. */
  lemma GuardianComplainsTwice(n: Note)
    requires n.tier == 2 && n.guardian
    ensures RowOf([n]).value.status == Observing && RowOf([n, n]).value.status == Ready
  {
    hide RowOf;
    ReadyExactly([n]);
    ReadyExactly([n, n]);
    forall k | 0 <= k <= 1 ensures !PlainlySuffices([n][..k]) {
    }
    var h := [n, n];
    assert h[..2] == h && h[0].tier == 2 && h[0].guardian;
    assert HasTier(h[..2], 2, 2);
  }

  lemma NeverReady(h: seq<Note>)
    requires h != [] && forall k :: 0 <= k <= |h| ==> !EvidenceSuffices(h[..k])
    ensures RowOf(h).value.status == Observing
  {
    hide EvidenceSuffices, RowOf;
    RowIsFold(h);
  }

  lemma SufficesLater(h: seq<Note>)
    requires h != []
    ensures EverSuffices(h) <==> EverSuffices(h[..|h| - 1]) || EvidenceSuffices(h)
    ensures |h| == 1 ==> !EverSuffices(h[..0])
  {
    hide EvidenceSuffices;
    var before := h[..|h| - 1];
    assert h[..|h|] == h;
    if k :| 0 <= k <= |before| && EvidenceSuffices(before[..k]) {
      assert before[..k] == h[..k];
    }
    if k :| 0 <= k <= |h| && EvidenceSuffices(h[..k]) {
      if k < |h| {
        assert before[..k] == h[..k];
      }
    }
    if |h| == 1 {
      assert h[..0] == [];
      NothingSuffices();
    }
  }

  lemma NothingSuffices()
    ensures forall k :: 0 <= k <= 0 ==> !EvidenceSuffices([][..k])
  {
  }

  lemma {:induction false} TierFourOnly(h: seq<Note>)
    requires forall k :: 0 <= k < |h| ==> h[k].tier >= 4
    ensures MinTier(h) == 4
  {
    if h == [] {
    } else {
      TierFourOnly(h[..|h| - 1]);
    }
  }

  /** Self-critique alone never makes a row ready, however long it goes on. */
  lemma SelfCritiqueNeverReady(h: seq<Note>)
    requires h != [] && forall k :: 0 <= k < |h| ==> h[k].tier >= 4
    ensures RowOf(h).value.status == Observing
  {
    forall k | 0 <= k <= |h| ensures !EvidenceSuffices(h[..k]) {
      TierFourOnly(h[..k]);
    }
    NeverReady(h);
  }

  lemma {:induction false} OnePersonOnly(h: seq<Note>, who: string)
    requires forall k :: 0 <= k < |h| ==> h[k].tier == 2 || h[k].tier >= 4
    requires forall k :: 0 <= k < |h| ==> !h[k].guardian && h[k].person in {"", who}
    ensures MinTier(h) in {2, 4} && (People(h) == [] || People(h) == [who])
  {
    if h == [] {
    } else {
      OnePersonOnly(h[..|h| - 1], who);
    }
  }

  /** One stranger, complaining as often as they like, does not steer the repair loop. */
  lemma OneStrangerNeverReady(h: seq<Note>, who: string)
    requires h != []
    requires forall k :: 0 <= k < |h| ==> h[k].tier == 2 || h[k].tier >= 4
    requires forall k :: 0 <= k < |h| ==> !h[k].guardian && h[k].person in {"", who}
    ensures RowOf(h).value.status == Observing
  {
    hide RowOf, MinTier, People;
    forall k | 0 <= k <= |h| ensures !EvidenceSuffices(h[..k]) {
      OnePersonOnly(h[..k], who);
    }
    NeverReady(h);
  }

  /** The tiers are not monotone. Two hard system events make a row ready; put one anonymous
      complaint between them and no number of further hard events ever does, because the row is
      now judged as a tier-2 row without witnesses. */
  lemma {:induction false} ComplaintMasksHardEvents(more: nat)
    ensures var hard := Note("worker-crash", 3, "", false, "code");
      var complaint := Note("worker-crash", 2, "", false, "code");
      && RowOf([hard, hard]).value.status == Ready
      && RowOf([hard, complaint] + seq(more, i => hard)).value.status == Observing
  {
    var hard := Note("worker-crash", 3, "", false, "code");
    var complaint := Note("worker-crash", 2, "", false, "code");
    TwoHardEventsReady(hard);
    if more == 0 {
      assert [hard, complaint] + seq(0, i => hard) == [hard, complaint];
      MaskedStep([hard, complaint], hard, complaint, 0);
    } else {
      MaskedStep([hard, complaint] + seq(more, i => hard), hard, complaint, more);
    }
    RowIsFold([hard, complaint] + seq(more, i => hard));
  }

  lemma TwoHardEventsReady(hard: Note)
    requires hard.tier == 3
    ensures RowOf([hard, hard]).value.status == Ready
  {
    var h := [hard, hard];
    assert h[..1] == [hard] && h[..1][..0] == [];
    assert MinTier(h[..1][..0]) == 4;
    assert MinTier(h[..1]) == 3;
    assert MinTier(h) == 3;
    assert h[..2] == h && EvidenceSuffices(h[..2]);
    RowIsFold(h);
  }

  lemma MaskedStep(h: seq<Note>, hard: Note, complaint: Note, more: nat)
    requires hard.tier == 3 && complaint.tier == 2
    requires hard.person == complaint.person == "" && !hard.guardian && !complaint.guardian
    requires h == [hard, complaint] + seq(more, i => hard)
    ensures !EverSuffices(h)
  {
    forall k | 0 <= k <= |h| ensures !EvidenceSuffices(h[..k]) {
      NobodyNamed(h[..k]);
      if k >= 2 {
        TierTwoStays(h[..k]);
      } else if k == 1 {
        assert |h[..1]| == 1 && h[..1][..0] == [];
        assert MinTier(h[..1][..0]) == 4;
      } else {
        assert h[..0] == [];
      }
    }
  }

  lemma {:induction false} NobodyNamed(h: seq<Note>)
    requires forall k :: 0 <= k < |h| ==> h[k].person == "" && !h[k].guardian
    ensures People(h) == [] && !GuardianSpoke(h)
  {
    if h == [] {
    } else {
      NobodyNamed(h[..|h| - 1]);
    }
  }

  lemma {:induction false} TierTwoStays(h: seq<Note>)
    requires |h| >= 2 && h[1].tier == 2
    requires forall k :: 0 <= k < |h| ==> h[k].tier in {2, 3}
    ensures MinTier(h) == 2
    decreases |h|
  {
    var before := h[..|h| - 1];
    if |h| > 2 {
      TierTwoStays(before);
    } else {
      assert MinTier(before) in {2, 3, 4};
    }
  }

  // ----- healing --------------------------------------------------------------------

  /** `healing` is the signature an `auto_heal` in progress has marked as under repair. */
  datatype World = World(queue: Queue, healing: Option<string>, repaired: seq<string>)

  /** `HealDies` is the worker being killed between the two marks of a heal. */
  datatype Op = Notice(note: Note) | HealStart(signature: string) | HealEnd(ok: bool) | HealDies

  predicate Stronger(a: Row, b: Row) {
    a.tier < b.tier || (a.tier == b.tier && a.recurrence > b.recurrence)
  }

  /** The first `code` row among the eight strongest ready rows, up to ties. */
  predicate MayPick(q: Queue, sig: string) {
    && sig in q && q[sig].status == Ready && q[sig].fixClass == CODE
    && (forall s :: s in q && q[s].status == Ready && q[s].fixClass == CODE ==> !Stronger(q[s], q[sig]))
    && |set s | s in q && q[s].status == Ready && Stronger(q[s], q[sig])| < 8
  }

  function Apply(w: World, op: Op): World {
    match op
    case Notice(n) => w.(queue := AfterNote(w.queue, n))
    case HealStart(sig) =>
      if w.healing.None? && MayPick(w.queue, sig)
      then w.(queue := AfterMark(w.queue, sig, Repairing), healing := Some(sig))
      else w
    case HealEnd(ok) =>
      match w.healing {
        case None => w
        case Some(sig) =>
          if ok then World(AfterMark(w.queue, sig, Fixed), None, w.repaired + [sig])
          else World(AfterMark(w.queue, sig, Ready), None, w.repaired)
      }
    case HealDies => w.(healing := None)
  }

  /** A heal begins exactly when none is in progress, on a ready row of fix class "code" than which no
      such row has stronger evidence, among the eight ready rows with the strongest. */
  lemma HealStartsIff(w: World, sig: string)
    ensures var (q, w') := (w.queue, Apply(w, HealStart(sig)));
      w'.healing == Some(sig) && w.healing == None <==>
        && w.healing == None && sig in q && q[sig].status == Ready && q[sig].fixClass == "code"
        && (forall s :: s in q && q[s].status == Ready && q[s].fixClass == "code" ==>
              q[sig].tier < q[s].tier || (q[sig].tier == q[s].tier && q[sig].recurrence >= q[s].recurrence))
        && |set s | s in q && q[s].status == Ready
             && (q[s].tier < q[sig].tier || (q[s].tier == q[sig].tier && q[s].recurrence > q[sig].recurrence))| < 8
    ensures Apply(w, HealStart(sig)).repaired == w.repaired
  {
    hide Slug;
    if sig in w.queue {
      var q := w.queue;
      assert (set s | s in q && q[s].status == Ready && Stronger(q[s], q[sig]))
          == (set s | s in q && q[s].status == Ready
               && (q[s].tier < q[sig].tier || (q[s].tier == q[sig].tier && q[s].recurrence > q[sig].recurrence)));
    }
  }

  function Run(ops: seq<Op>): World {
    if ops == [] then World(map[], None, []) else Apply(Run(ops[..|ops| - 1]), ops[|ops| - 1])
  }

  predicate SettledText(text: string) {
    Slug(Slug(text)) == Slug(text)
  }

  /** A row noted under `text` is another row than `s`, but its marks are written on `s`. */
  predicate MarksElsewhere(text: string, s: string) {
    Slug(text) != s && Slug(Slug(text)) == s
  }

  /** No text noted in the run has its marks land on `s` by mistake. */
  predicate Undisturbed(ops: seq<Op>, s: string) {
    forall k :: 0 <= k < |ops| && ops[k].Notice? ==> !MarksElsewhere(ops[k].note.signature, s)
  }

  ghost predicate HealInv(w: World, s: string) {
    && (forall sig :: sig in w.queue && Slug(sig) == s ==> sig == s)
    && (forall j, k :: 0 <= j < k < |w.repaired| ==> !(w.repaired[j] == w.repaired[k] == s))
    && (s in w.repaired ==> s in w.queue && w.queue[s].status in {Fixed, Escalated})
    && (w.healing.Some? ==> w.healing.value in w.queue)
    && (w.healing == Some(s) ==> w.queue[s].status == Repairing)
  }

  /** Marking a row under the text it was noted with always reaches it. Marking it under its stored
      signature, as `auto_heal` does, reaches it exactly when the text has settled; otherwise the
      row stays as it is and some other row, if there is one, takes the mark. */
  lemma MarkReachesRowIff(q: Queue, n: Note, st: Status)
    ensures var (sig, q1) := (Slug(n.signature), AfterNote(q, n));
      && AfterMark(q1, n.signature, st) == q1[sig := q1[sig].(status := st)]
      && (SettledText(n.signature) <==> !MarksElsewhere(n.signature, Slug(sig)))
      && AfterMark(q1, sig, st)[sig].status == (if SettledText(n.signature) then st else q1[sig].status)
      && (forall s :: s in q1 && !MarksElsewhere(n.signature, s) && s != sig ==> AfterMark(q1, sig, st)[s] == q1[s])
      && (forall s :: s in q1 && MarksElsewhere(n.signature, s) ==> AfterMark(q1, sig, st)[s].status == st)
  {
    hide Slug;
  }

  lemma ApplyKeepsHealInv(w: World, op: Op, s: string)
    requires HealInv(w, s) && Slug(s) == s
    requires op.Notice? ==> !MarksElsewhere(op.note.signature, s)
    ensures HealInv(Apply(w, op), s)
    ensures s in w.queue && w.queue[s].status == Escalated ==>
      s in Apply(w, op).queue && Apply(w, op).queue[s].status == Escalated
  {
    hide Slug, IsReady, Stronger;
    if op.HealEnd? && w.healing.Some? {
      assert Slug(w.healing.value) == s <==> w.healing.value == s;
    }
  }

  lemma {:induction false} RunKeepsHealInv(ops: seq<Op>, s: string)
    requires Slug(s) == s && Undisturbed(ops, s)
    ensures HealInv(Run(ops), s)
  {
    hide HealInv, Slug, Apply;
    if ops == [] {
      NothingYet(s);
    } else {
      RunKeepsHealInv(ops[..|ops| - 1], s);
      ApplyKeepsHealInv(Run(ops[..|ops| - 1]), ops[|ops| - 1], s);
    }
  }

  /** The one-fix rule, signature by signature: whatever else the run notes, heals or loses, a
      signature on which only its own marks land is repaired at most once, and is then fixed or
      escalated. */
  lemma RepairedAtMostOnce(ops: seq<Op>, s: string)
    requires Slug(s) == s && Undisturbed(ops, s)
    ensures var w := Run(ops);
      && (forall j, k :: 0 <= j < k < |w.repaired| ==> !(w.repaired[j] == w.repaired[k] == s))
      && (s in w.repaired ==> s in w.queue && w.queue[s].status in {Fixed, Escalated})
  {
    hide Slug, Run;
    RunKeepsHealInv(ops, s);
  }

  lemma NothingYet(s: string)
    ensures HealInv(World(map[], None, []), s)
  {
  }

  /** Escalation is final for such a signature: no later note, heal or crash moves the row. */
  lemma {:induction false} EscalatedStays(ops: seq<Op>, k: nat, s: string)
    requires Slug(s) == s && Undisturbed(ops, s) && k <= |ops|
    requires var w := Run(ops[..k]); s in w.queue && w.queue[s].status == Escalated
    ensures var w := Run(ops); s in w.queue && w.queue[s].status == Escalated
    decreases |ops|
  {
    hide HealInv, Slug, Apply;
    if k == |ops| {
      assert ops[..k] == ops;
    } else {
      var before := ops[..|ops| - 1];
      assert before[..k] == ops[..k];
      EscalatedStays(before, k, s);
      RunKeepsHealInv(before, s);
      ApplyKeepsHealInv(Run(before), ops[|ops| - 1], s);
    }
  }

  /** Marked as under repair, with no heal of it in progress. */
  predicate Stranded(w: World, s: string) {
    s in w.queue && w.queue[s].status == Repairing && w.healing != Some(s)
  }

  lemma ApplyKeepsStranded(w: World, op: Op, s: string)
    requires HealInv(w, s) && Slug(s) == s && Stranded(w, s)
    requires op.Notice? ==> !MarksElsewhere(op.note.signature, s)
    ensures Stranded(Apply(w, op), s)
  {
    hide Slug, IsReady, Stronger;
    if op.HealEnd? && w.healing.Some? {
      assert Slug(w.healing.value) == s <==> w.healing.value == s;
    }
  }

  lemma DeathStrands(w: World, s: string)
    requires HealInv(w, s) && w.healing == Some(s)
    ensures Stranded(Apply(w, HealDies), s) && Apply(w, HealDies).healing == None
  {
  }

  lemma StrandedUnrepaired(w: World, s: string)
    requires HealInv(w, s) && Stranded(w, s)
    ensures s !in w.repaired
  {
  }

  /** A heal that dies between its two marks leaves its signature under repair for good: no later note
      or heal moves the row, and it is never repaired. Other heals may follow. */
  lemma {:induction false} DyingHealStrands(ops: seq<Op>, k: nat, s: string)
    requires Slug(s) == s && Undisturbed(ops, s) && k < |ops|
    requires Run(ops[..k]).healing == Some(s) && ops[k].HealDies?
    ensures Run(ops[..k + 1]).healing == None
    ensures var w := Run(ops); s in w.queue && w.queue[s].status == Repairing && w.healing != Some(s)
    ensures s !in Run(ops).repaired
    decreases |ops|
  {
    hide HealInv, Slug, Apply;
    var before := ops[..|ops| - 1];
    RunKeepsHealInv(before, s);
    RunKeepsHealInv(ops, s);
    if k == |ops| - 1 {
      assert ops[..k + 1] == ops && before == ops[..k];
      DeathStrands(Run(before), s);
    } else {
      assert before[..k] == ops[..k] && before[..k + 1] == ops[..k + 1];
      DyingHealStrands(before, k, s);
      ApplyKeepsStranded(Run(before), ops[|ops| - 1], s);
    }
    StrandedUnrepaired(Run(ops), s);
  }

  /** A slug is a fixed point from its second application on. */
  lemma SlugSettles(text: string)
    ensures Slug(Slug(Slug(text))) == Slug(Slug(text))
  {
    var t := Slug(text);
    SlugShape(text);
    SlugOfSlugged(t);
    TrimRightShape(t);
    assert Slug(t) == TrimRight(t);
    SlugFixedIff(t);
  }

  function Serious(text: string): Note {
    Note(text, 1, "", true, CODE)
  }

  /** For every text whose slug does not settle the rule fails: the marks go to another
      signature, the row stays ready, and the same signature is repaired again. */
  lemma UnsettledRepairedTwice(text: string)
    requires !SettledText(text)
    ensures var sig := Slug(text);
      Run([Notice(Serious(text)), HealStart(sig), HealEnd(true), HealStart(sig), HealEnd(true)]).repaired
        == [sig, sig]
  {
    hide Slug;
    var sig := Slug(text);
    var n := Serious(text);
    var ops := [Notice(n), HealStart(sig), HealEnd(true), HealStart(sig), HealEnd(true)];
    var q := AfterNote(map[], n);
    assert q.Keys == {sig} && q[sig] == Row(1, CODE, 1, true, [], Ready);
    OnlyRowMayBePicked(q, sig);
    assert forall st :: AfterMark(q, sig, st) == q;
    assert ops[..4][..3] == ops[..3] && ops[..3][..2] == ops[..2] && ops[..2][..1] == ops[..1] && ops[..1][..0] == [];
    assert Run(ops[..1][..0]) == World(map[], None, []);
    assert Run(ops[..1]) == World(q, None, []);
    assert Run(ops[..2]) == World(q, Some(sig), []);
    assert Run(ops[..3]) == World(q, None, [sig]);
    assert Run(ops[..4]) == World(q, Some(sig), [sig]);
    assert ops[..5] == ops;
  }

  lemma OnlyRowMayBePicked(q: Queue, sig: string)
    requires sig in q && q[sig].status == Ready && q[sig].fixClass == CODE
    requires forall s :: s in q && q[s].status == Ready ==> !Stronger(q[s], q[sig])
    ensures MayPick(q, sig)
  {
    var rivals := set s | s in q && q[s].status == Ready && Stronger(q[s], q[sig]);
    assert rivals == {};
  }

  lemma RunStep(ops: seq<Op>, op: Op)
    ensures Run(ops + [op]) == Apply(Run(ops), op)
  {
    assert (ops + [op])[..|ops|] == ops;
  }

  /** `s` is noted and repaired; then a text whose marks land on `s` is noted and its heal begun. */
  function StrayHeal(text: string, s: string): seq<Op> {
    [Notice(Serious(s))] + [HealStart(s)] + [HealEnd(true)] + [Notice(Serious(text))] + [HealStart(Slug(text))]
  }

  lemma StrayHealWorld(text: string, s: string)
    requires MarksElsewhere(text, s) && Slug(s) == s
    ensures var row := Row(1, CODE, 1, true, [], Repairing);
      Run(StrayHeal(text, s))
        == World(map[s := row, Slug(text) := row.(status := Ready)], Some(Slug(text)), [s])
  {
    hide Slug, Run;
    var sig := Slug(text);
    var row := Row(1, CODE, 1, true, [], Ready);
    RunStep([], Notice(Serious(s)));
    assert Run([]) == World(map[], None, []) by { NothingRun(); }
    assert [] + [Notice(Serious(s))] == [Notice(Serious(s))];
    var h1 := [Notice(Serious(s))];
    assert Run(h1) == World(map[s := row], None, []);
    OnlyRowMayBePicked(map[s := row], s);
    RunStep(h1, HealStart(s));
    var h2 := h1 + [HealStart(s)];
    assert Run(h2).queue == map[s := row.(status := Repairing)];
    RunStep(h2, HealEnd(true));
    var h3 := h2 + [HealEnd(true)];
    assert Run(h3) == World(map[s := row.(status := Fixed)], None, [s]);
    RunStep(h3, Notice(Serious(text)));
    var h4 := h3 + [Notice(Serious(text))];
    assert Run(h4) == World(map[s := row.(status := Fixed), sig := row], None, [s]);
    OnlyRowMayBePicked(Run(h4).queue, sig);
    RunStep(h4, HealStart(sig));
  }

  lemma NothingRun()
    ensures Run([]) == World(map[], None, [])
  {
  }

  /** The condition is exact: for every text whose marks land on another signature, that other,
      perfectly settled signature is repaired twice in some run. */
  lemma StrayMarksRepairTwice(text: string, s: string)
    requires MarksElsewhere(text, s)
    ensures Slug(s) == s
    ensures Run(StrayHeal(text, s) + [HealEnd(false)] + [HealStart(s)] + [HealEnd(true)]).repaired == [s, s]
  {
    hide Slug, Run;
    SlugSettles(text);
    StrayHealWorld(text, s);
    var h5 := StrayHeal(text, s);
    RunStep(h5, HealEnd(false));
    var h6 := h5 + [HealEnd(false)];
    OnlyRowMayBePicked(Run(h6).queue, s);
    RunStep(h6, HealStart(s));
    RunStep(h6 + [HealStart(s)], HealEnd(true));
    assert [s] + [s] == [s, s];
  }

  /** Such marks undo an escalation as well. */
  lemma StrayMarksUndoEscalation(text: string, s: string)
    requires MarksElsewhere(text, s)
    ensures var ops := [Notice(Serious(s))] + [HealStart(s)] + [HealEnd(true)] + [Notice(Serious(s))];
      var (q, q') := (Run(ops).queue, Run(ops + [Notice(Serious(text))] + [HealStart(Slug(text))]).queue);
      && s in q && q[s].status == Escalated
      && s in q' && q'[s].status == Repairing
  {
    hide Slug, Run;
    SlugSettles(text);
    var sig := Slug(text);
    var row := Row(1, CODE, 1, true, [], Ready);
    RunStep([], Notice(Serious(s)));
    assert Run([]) == World(map[], None, []) by { NothingRun(); }
    assert [] + [Notice(Serious(s))] == [Notice(Serious(s))];
    var h1 := [Notice(Serious(s))];
    assert Run(h1) == World(map[s := row], None, []);
    OnlyRowMayBePicked(map[s := row], s);
    RunStep(h1, HealStart(s));
    RunStep(h1 + [HealStart(s)], HealEnd(true));
    var h3 := h1 + [HealStart(s)] + [HealEnd(true)];
    assert Run(h3) == World(map[s := row.(status := Fixed)], None, [s]);
    RunStep(h3, Notice(Serious(s)));
    var h4 := h3 + [Notice(Serious(s))];
    assert Run(h4) == World(map[s := row.(status := Escalated, recurrence := 2)], None, [s]);
    RunStep(h4, Notice(Serious(text)));
    var h5 := h4 + [Notice(Serious(text))];
    assert Run(h5).queue[sig] == row;
    OnlyRowMayBePicked(Run(h5).queue, sig);
    RunStep(h5, HealStart(sig));
  }

  /** Such texts exist: 159 letters, a dash, and one more letter. */
  lemma UnsettledTextExists()
    ensures var t := seq(159, i => 'a') + "-b"; !SettledText(t) && MarksElsewhere(t, Slug(Slug(t)))
  {
    var t := seq(159, i => 'a') + "-b";
    assert t[|t| - 1] == 'b';
    SlugOfSlugged(t);
    TrimRightShape(t);
    assert Slug(t) == t[..160];
    assert t[..160][159] == '-';
    SlugFixedIff(t);
  }
}
