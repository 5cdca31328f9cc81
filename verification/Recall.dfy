/** app/memory/base_memory.py: ranked keyword recall behind a LIKE prefilter. */
module Recall {
  import opened PyText
  import opened SqlLike

  const MAX_CANDIDATES := 2000

  datatype Memory = Memory(
    id: nat, memoryType: string, project: string, title: string, content: string,
    relatedModule: Option<string>, importance: int, permanent: bool, archived: bool)

  /** `score` counts tenths: every weight in the source is a multiple of 0.1. */
  datatype Hit = Hit(row: Memory, score: int)

  // ----- tokens ---------------------------------------------------------------

  predicate TokenChar(c: char) {
    'a' <= c <= 'z' || '0' <= c <= '9'
  }

  predicate IsToken(t: string) {
    t != "" && forall k :: 0 <= k < |t| ==> TokenChar(t[k])
  }

  function Flush(run: string): set<string> {
    if run == "" then {} else {run}
  }

  /** The maximal runs of `[a-z0-9]` of `run + s.lower()`, where `run` is the part already read. */
  function Runs(run: string, s: string): set<string>
    decreases |s|
  {
    if s == "" then Flush(run)
    else if TokenChar(LowerChar(s[0])) then Runs(run + [LowerChar(s[0])], s[1..])
    else Flush(run) + Runs("", s[1..])
  }

  function Tokens(text: string): set<string> {
    Runs("", text)
  }

  lemma {:induction false} RunsAreTokens(run: string, s: string, t: string)
    requires run == "" || IsToken(run)
    requires t in Runs(run, s)
    ensures IsToken(t)
    decreases |s|
  {
    if s != "" && TokenChar(LowerChar(s[0])) {
      RunsAreTokens(run + [LowerChar(s[0])], s[1..], t);
    } else if t !in Flush(run) {
      RunsAreTokens("", s[1..], t);
    }
  }

  lemma {:induction false} TokenIsInText(run: string, s: string, t: string)
    requires run == "" || IsToken(run)
    requires t in Runs(run, s)
    ensures Occurs(t, run + s)
    decreases |s|
  {
    hide Occurs, StartsFold, LowerChar, TokenChar;
    if s != "" && TokenChar(LowerChar(s[0])) {
      TokenGrows(run, s[0]);
      TokenIsInText(run + [LowerChar(s[0])], s[1..], t);
      FoldedHead(run, s, t);
    } else if t in Flush(run) {
      RunHeadsText(run, s);
    } else {
      TokenIsInText("", s[1..], t);
      OccursBehind(run, s, t);
    }
  }

  lemma TokenGrows(run: string, c: char)
    requires (run == "" || IsToken(run)) && TokenChar(LowerChar(c))
    ensures IsToken(run + [LowerChar(c)])
  {
  }

  lemma FoldedHead(run: string, s: string, t: string)
    requires s != "" && Occurs(t, run + [LowerChar(s[0])] + s[1..])
    ensures Occurs(t, run + s)
  {
    hide Occurs, StartsFold;
    SameFold(t, run + [LowerChar(s[0])] + s[1..], run + s);
  }

  lemma OccursBehind(run: string, s: string, t: string)
    requires s != "" && Occurs(t, "" + s[1..])
    ensures Occurs(t, run + s)
  {
    hide Occurs, StartsFold;
    assert "" + s[1..] == s[1..];
    OccursInside(t, run + s[..1], s[1..], "");
    assert run + s[..1] + s[1..] + "" == run + s;
  }

  lemma RunHeadsText(run: string, s: string)
    requires IsToken(run)
    ensures Occurs(run, run + s)
  {
    forall k | 0 <= k < |run| ensures LowerChar((run + s)[k]) == run[k] {
      assert TokenChar(run[k]);
    }
  }

  lemma {:induction false} SameFold(w: string, a: string, b: string)
    requires |a| == |b| && forall k :: 0 <= k < |a| ==> LowerChar(a[k]) == LowerChar(b[k])
    requires Occurs(w, a)
    ensures Occurs(w, b)
    decreases |a|
  {
    if !StartsFold(a, w) {
      forall k | 0 <= k < |a| - 1 ensures LowerChar(a[1..][k]) == LowerChar(b[1..][k]) {
        assert LowerChar(a[k + 1]) == LowerChar(b[k + 1]);
      }
      SameFold(w, a[1..], b[1..]);
    }
  }

  /** Joining with a blank neither splits nor merges a token. */
  lemma {:induction false} TokensOfJoin(run: string, a: string, b: string)
    ensures Runs(run, a + " " + b) == Runs(run, a) + Tokens(b)
    decreases |a|
  {
    var s := a + " " + b;
    if a == "" {
      assert s[1..] == b;
    } else {
      assert s[1..] == a[1..] + " " + b;
      if TokenChar(LowerChar(a[0])) {
        TokensOfJoin(run + [LowerChar(a[0])], a[1..], b);
      } else {
        TokensOfJoin("", a[1..], b);
      }
    }
  }

  predicate Alnum(c: char) {
    'a' <= c <= 'z' || '0' <= c <= '9'
  }

  /** `low[i..j]` is all letters and digits, and cannot be made longer on either side. */
  predicate IsRun(low: string, i: nat, j: nat)
    requires i < j <= |low|
  {
    && (forall k :: i <= k < j ==> Alnum(low[k]))
    && (i > 0 ==> !Alnum(low[i - 1]))
    && (j < |low| ==> !Alnum(low[j]))
  }

  ghost predicate IsWholeRun(low: string, t: string) {
    exists i: nat, j: nat :: i < j <= |low| && IsRun(low, i, j) && t == low[i..j]
  }

  /** The tokens of the reader's state: the text already read as one run, and the rest. */
  lemma {:induction false} RunsIff(run: string, s: string, t: string)
    requires run == "" || IsToken(run)
    ensures t in Runs(run, s) <==> IsWholeRun(run + Lower(s), t)
    decreases |s|
  {
    hide IsWholeRun, LowerChar, TokenChar, IsToken, Lower;
    LowerSplits(run, s);
    if s == "" {
      OnlyRun(run, t);
    } else if TokenChar(LowerChar(s[0])) {
      TokenGrows(run, s[0]);
      RunsIff(run + [LowerChar(s[0])], s[1..], t);
    } else {
      RunsIff("", s[1..], t);
      RunThenRest(run, LowerChar(s[0]), Lower(s[1..]), t);
    }
  }

  lemma LowerSplits(run: string, s: string)
    ensures s == "" ==> run + Lower(s) == run
    ensures s != "" ==> run + Lower(s) == run + [LowerChar(s[0])] + Lower(s[1..])
    ensures s != "" ==> "" + Lower(s[1..]) == Lower(s[1..])
  {
  }

  lemma OnlyRun(run: string, t: string)
    requires run == "" || IsToken(run)
    ensures t in Flush(run) <==> IsWholeRun(run, t)
  {
    forall k | 0 <= k < |run| ensures Alnum(run[k]) {
      assert TokenChar(run[k]);
    }
    if t in Flush(run) {
      assert IsRun(run, 0, |run|) && run[0..|run|] == run;
    }
    if i: nat, j: nat :| i < j <= |run| && IsRun(run, i, j) && t == run[i..j] {
      assert run[0..|run|] == run;
    }
  }

  /** A run, a character that ends it, and the rest: the runs are the first one and those of the rest. */
  lemma RunThenRest(run: string, c: char, rest: string, t: string)
    requires (run == "" || IsToken(run)) && !TokenChar(c)
    ensures IsWholeRun(run + [c] + rest, t) <==> t in Flush(run) || IsWholeRun(rest, t)
  {
    hide IsRun, IsToken, TokenChar;
    var low := run + [c] + rest;
    HeadAlone(run, c, rest);
    if t in Flush(run) {
      assert IsRun(low, 0, |run|) && low[0..|run|] == run;
    }
    if i: nat, j: nat :| i < j <= |rest| && IsRun(rest, i, j) && t == rest[i..j] {
      RunBehind(run, c, rest, i, j);
      assert IsRun(low, |run| + 1 + i, |run| + 1 + j) && low[|run| + 1 + i..|run| + 1 + j] == t;
    }
    if i: nat, j: nat :| i < j <= |low| && IsRun(low, i, j) && t == low[i..j] {
      if i <= |run| {
        HeadRun(run, c, rest, i, j);
        assert low[0..|run|] == run;
      } else {
        RunBehind(run, c, rest, i - |run| - 1, j - |run| - 1);
      }
    }
  }

  lemma HeadAlone(run: string, c: char, rest: string)
    requires (run == "" || IsToken(run)) && !TokenChar(c)
    ensures run != "" ==> IsRun(run + [c] + rest, 0, |run|)
  {
    forall k | 0 <= k < |run| ensures Alnum((run + [c] + rest)[k]) {
      assert TokenChar(run[k]);
    }
  }

  lemma HeadRun(run: string, c: char, rest: string, i: nat, j: nat)
    requires (run == "" || IsToken(run)) && !TokenChar(c)
    requires i <= |run| && i < j <= |run + [c] + rest| && IsRun(run + [c] + rest, i, j)
    ensures run != "" && i == 0 && j == |run|
  {
    var low := run + [c] + rest;
    assert !Alnum(low[|run|]);
    forall k | 0 <= k < |run| ensures Alnum(low[k]) {
      assert TokenChar(run[k]);
    }
  }

  lemma RunBehind(run: string, c: char, rest: string, i: nat, j: nat)
    requires i < j <= |rest| && !TokenChar(c)
    ensures var low, n := run + [c] + rest, |run| + 1;
      (IsRun(low, n + i, n + j) <==> IsRun(rest, i, j)) && low[n + i..n + j] == rest[i..j]
  {
    var low, n := run + [c] + rest, |run| + 1;
    assert low[n - 1] == c;
    assert low[n..] == rest;
    assert forall k :: 0 <= k < |rest| ==> low[n + k] == rest[k];
    assert forall k :: n <= k < |low| ==> low[k] == rest[k - n];
  }

  /** The tokens of a text are its maximal runs of letters and digits, in lower case. */
  lemma TokensAreWholeRuns(text: string, t: string)
    ensures t in Tokens(text) <==>
      exists i: nat, j: nat :: i < j <= |text| && IsRun(Lower(text), i, j) && t == Lower(text)[i..j]
  {
    RunsIff("", text, t);
    assert "" + Lower(text) == Lower(text);
  }

  // ----- prefilter and score ----------------------------------------------------

  function ModuleText(m: Memory): string {
    match m.relatedModule
    case Some(s) => s
    case None => ""
  }

  function RowTokens(m: Memory): set<string> {
    Tokens(m.title + " " + m.content + " " + ModuleText(m))
  }

  /** The `or_` of LIKE terms sent to the database; a NULL module matches nothing. */
  predicate Matches(db: Dialect, q: set<string>, m: Memory) {
    exists t :: t in q && (|| Contains(db, t, m.title) || Contains(db, t, m.content)
                           || (m.relatedModule.Some? && Contains(db, t, m.relatedModule.value)))
  }

  function Overlap(q: set<string>, m: Memory): nat {
    |q * RowTokens(m)|
  }

  function Score(q: set<string>, m: Memory): int {
    10 * Overlap(q, m) + m.importance
    + (if m.permanent then 20 else 0)
    + (if m.memoryType == "semantic" then 15 else 0)
    + (if Tokens(ModuleText(m)) * q != {} then 30 else 0)
  }

  predicate Selectable(project: Option<string>, m: Memory) {
    !m.archived && (project.Some? && project.value != "" ==> m.project == project.value)
  }

  /** The score in the program's own units: one point a shared token, a tenth of the importance, two
      points for a permanent memory, one and a half for a semantic one, three if the module is named. */
  lemma ScoreIs(q: set<string>, m: Memory)
    ensures var module' := if m.relatedModule.Some? then m.relatedModule.value else "";
      Score(q, m) as real / 10.0
        == |q * Tokens(m.title + " " + m.content + " " + module')| as real
         + m.importance as real / 10.0
         + (if m.permanent then 2.0 else 0.0)
         + (if m.memoryType == "semantic" then 1.5 else 0.0)
         + (if exists t :: t in q && t in Tokens(module') then 3.0 else 0.0)
    ensures Overlap(q, m) > 0 <==> exists t :: t in q && t in RowTokens(m)
  {
    var shared := q * RowTokens(m);
    assert Overlap(q, m) == 0 ==> shared == {};
    assert forall t :: t in q && t in RowTokens(m) ==> t in shared;
    if shared != {} {
      var t :| t in shared;
      assert t in q && t in RowTokens(m);
    }
    var named := Tokens(ModuleText(m)) * q;
    assert forall t :: t in q && t in Tokens(ModuleText(m)) ==> t in named;
    if named != {} {
      var t :| t in named;
      assert t in q && t in Tokens(ModuleText(m));
    }
  }

  /** What recall may show: nothing archived, and only the project asked for, if one was. */
  lemma SelectableIs(project: Option<string>, m: Memory)
    ensures Selectable(project, m) <==>
      !m.archived && (project == None || project == Some("") || project == Some(m.project))
  {
  }

  lemma OverlapImpliesMatch(db: Dialect, q: set<string>, m: Memory)
    requires Overlap(q, m) > 0
    ensures Matches(db, q, m)
  {
    var shared := q * RowTokens(m);
    assert shared != {};
    var t :| t in shared;
    TokensOfJoin("", m.title + " " + m.content, ModuleText(m));
    TokensOfJoin("", m.title, m.content);
    if t in Tokens(m.title) {
      TokenFound(db, t, m.title);
    } else if t in Tokens(m.content) {
      TokenFound(db, t, m.content);
    } else {
      TokenFound(db, t, ModuleText(m));
      assert m.relatedModule.Some?;
    }
  }

  lemma TokenFound(db: Dialect, t: string, text: string)
    requires t in Tokens(text)
    ensures Contains(db, t, text)
  {
    TokenIsInText("", text, t);
    RunsAreTokens("", text, t);
    assert "" + text == text && Lower(t) == t;
    PlainContains(db, t, text);
  }

  // ----- ranking ------------------------------------------------------------------

  predicate Before(a: Hit, b: Hit) {
    a.score > b.score || (a.score == b.score && a.row.id >= b.row.id)
  }

  function Insert(h: Hit, hits: seq<Hit>): seq<Hit> {
    if hits == [] || Before(h, hits[0]) then [h] + hits else [hits[0]] + Insert(h, hits[1..])
  }

  /** `scored.sort(key=lambda h: (h.score, h.id), reverse=True)` */
  function Ranked(hits: seq<Hit>): seq<Hit> {
    if hits == [] then [] else Insert(hits[0], Ranked(hits[1..]))
  }

  predicate Descending(hits: seq<Hit>) {
    forall i, j :: 0 <= i < j < |hits| ==> Before(hits[i], hits[j])
  }

  lemma {:induction false} InsertAdds(h: Hit, hits: seq<Hit>)
    ensures multiset(Insert(h, hits)) == multiset{h} + multiset(hits)
  {
    if hits != [] && !Before(h, hits[0]) {
      InsertAdds(h, hits[1..]);
      assert hits == [hits[0]] + hits[1..];
    }
  }

  predicate AllBelow(top: Hit, hits: seq<Hit>) {
    forall j :: 0 <= j < |hits| ==> Before(top, hits[j])
  }

  lemma {:induction false} InsertBelow(h: Hit, hits: seq<Hit>, top: Hit)
    requires Before(top, h) && AllBelow(top, hits)
    ensures AllBelow(top, Insert(h, hits))
  {
    if hits != [] && !Before(h, hits[0]) {
      InsertBelow(h, hits[1..], top);
    }
  }

  lemma {:induction false} InsertKeepsOrder(h: Hit, hits: seq<Hit>)
    requires Descending(hits)
    ensures Descending(Insert(h, hits))
  {
    if hits != [] && !Before(h, hits[0]) {
      InsertKeepsOrder(h, hits[1..]);
      assert AllBelow(hits[0], hits[1..]);
      InsertBelow(h, hits[1..], hits[0]);
    }
  }

  lemma {:induction false} RankedSorts(hits: seq<Hit>)
    ensures Descending(Ranked(hits))
    ensures multiset(Ranked(hits)) == multiset(hits)
  {
    if hits == [] {
    } else {
      RankedSorts(hits[1..]);
      InsertKeepsOrder(hits[0], Ranked(hits[1..]));
      InsertAdds(hits[0], Ranked(hits[1..]));
      assert hits == [hits[0]] + hits[1..];
    }
  }

  // ----- recall -------------------------------------------------------------------

  function Filtered(rows: seq<Memory>, keep: Memory -> bool): seq<Memory> {
    if rows == [] then []
    else (if keep(rows[0]) then [rows[0]] else []) + Filtered(rows[1..], keep)
  }

  function InScope(project: Option<string>): Memory -> bool {
    (m: Memory) => Selectable(project, m)
  }

  function InQuery(db: Dialect, q: set<string>, project: Option<string>): Memory -> bool {
    (m: Memory) => Selectable(project, m) && Matches(db, q, m)
  }

  function Candidates(db: Dialect, q: set<string>, project: Option<string>, rows: seq<Memory>): seq<Memory> {
    Filtered(rows, InQuery(db, q, project))
  }

  function Scored(q: set<string>, rows: seq<Memory>): seq<Hit> {
    if rows == [] then []
    else (if Overlap(q, rows[0]) > 0 then [Hit(rows[0], Score(q, rows[0]))] else []) + Scored(q, rows[1..])
  }

  function Take<T>(s: seq<T>, n: nat): seq<T> {
    if n <= |s| then s[..n] else s
  }

  /** `rows` is the table in the order of the query, newest first. */
  function Recalled(db: Dialect, q: set<string>, project: Option<string>, rows: seq<Memory>, limit: nat): seq<Hit> {
    Take(Ranked(Scored(q, Take(Candidates(db, q, project, rows), MAX_CANDIDATES))), limit)
  }

  /** The specification: score every row the caller may see, with no prefilter and no cap. */
  function FullScan(q: set<string>, project: Option<string>, rows: seq<Memory>, limit: nat): seq<Hit> {
    Take(Ranked(Scored(q, Filtered(rows, InScope(project)))), limit)
  }

  method RecallRows(db: Dialect, q: set<string>, project: Option<string>, rows: seq<Memory>, limit: nat)
    returns (hits: seq<Hit>)
    ensures hits == Recalled(db, q, project, rows, limit)
    ensures |Candidates(db, q, project, rows)| <= 2000 ==> hits == FullScan(q, project, rows, limit)
  {
    hide Overlap, Score, Selectable, Matches, Ranked, Filtered;
    if |Candidates(db, q, project, rows)| <= MAX_CANDIDATES {
      PrefilterAgrees(db, q, project, rows, limit);
    }
    var selected := Take(Candidates(db, q, project, rows), MAX_CANDIDATES);
    var scored := [];
    assert selected[0..] == selected && scored + Scored(q, selected) == Scored(q, selected);
    for i := 0 to |selected|
      invariant scored + Scored(q, selected[i..]) == Scored(q, selected)
    {
      var overlap := Overlap(q, selected[i]);
      ScoredStep(q, selected, i, scored);
      if overlap > 0 {
        scored := scored + [Hit(selected[i], Score(q, selected[i]))];
      }
    }
    assert scored + Scored(q, selected[|selected|..]) == scored;
    hits := Take(Ranked(scored), limit);
  }

  lemma ScoredStep(q: set<string>, rows: seq<Memory>, i: nat, done: seq<Hit>)
    requires i < |rows|
    ensures Overlap(q, rows[i]) > 0 ==>
      done + Scored(q, rows[i..]) == done + [Hit(rows[i], Score(q, rows[i]))] + Scored(q, rows[i + 1..])
    ensures Overlap(q, rows[i]) == 0 ==> done + Scored(q, rows[i..]) == done + Scored(q, rows[i + 1..])
  {
    assert rows[i..][1..] == rows[i + 1..];
    assert [] + Scored(q, rows[i + 1..]) == Scored(q, rows[i + 1..]);
  }

  lemma {:induction false} CandidatesScoreTheSame(
      db: Dialect, q: set<string>, project: Option<string>, rows: seq<Memory>)
    ensures Scored(q, Candidates(db, q, project, rows))
         == Scored(q, Filtered(rows, InScope(project)))
  {
    if rows == [] {
    } else {
      CandidatesScoreTheSame(db, q, project, rows[1..]);
      var m := rows[0];
      var rest, all := Candidates(db, q, project, rows[1..]), Filtered(rows[1..], InScope(project));
      assert ([m] + rest)[1..] == rest && ([m] + all)[1..] == all;
      assert [] + rest == rest && [] + all == all;
      if Overlap(q, m) > 0 {
        OverlapImpliesMatch(db, q, m);
      }
    }
  }

  /** As long as the candidate cap does not bite, the prefilter cannot be noticed. */
  lemma PrefilterAgrees(db: Dialect, q: set<string>, project: Option<string>, rows: seq<Memory>, limit: nat)
    requires |Candidates(db, q, project, rows)| <= MAX_CANDIDATES
    ensures Recalled(db, q, project, rows, limit) == FullScan(q, project, rows, limit)
  {
    var c := Candidates(db, q, project, rows);
    assert Take(c, MAX_CANDIDATES) == c;
    CandidatesScoreTheSame(db, q, project, rows);
  }

  /** The answer is the top of the ranking: hits come in order, and no visible row that shares
      a token and was left out ranks above one that was returned. */
  lemma TopOfRanking(db: Dialect, q: set<string>, project: Option<string>, rows: seq<Memory>, limit: nat)
    requires |Candidates(db, q, project, rows)| <= 2000
    ensures var hits := Recalled(db, q, project, rows, limit);
      && (forall i, j :: 0 <= i < j < |hits| ==>
            || hits[i].score > hits[j].score
            || (hits[i].score == hits[j].score && hits[i].row.id >= hits[j].row.id))
      && |hits| <= limit
      && (forall h :: h in hits ==> h.row in rows && Overlap(q, h.row) > 0 && Selectable(project, h.row))
      && (forall m :: m in rows && Selectable(project, m) && Overlap(q, m) > 0 ==>
            || Hit(m, Score(q, m)) in hits
            || (|hits| == limit && forall h :: h in hits ==>
                  h.score > Score(q, m) || (h.score == Score(q, m) && h.row.id >= m.id)))
  {
    PrefilterAgrees(db, q, project, rows, limit);
    var visible := Filtered(rows, InScope(project));
    RankedSorts(Scored(q, visible));
    var hits := Recalled(db, q, project, rows, limit);
    forall h | h in hits ensures h.row in rows && Overlap(q, h.row) > 0 && Selectable(project, h.row) {
      assert h in multiset(Ranked(Scored(q, visible)));
      ScoredIffOverlap(q, visible, h);
      FilteredIff(rows, InScope(project), h.row);
    }
    forall m | m in rows && Selectable(project, m) && Overlap(q, m) > 0
      ensures Hit(m, Score(q, m)) in hits
           || (|hits| == limit && forall h :: h in hits ==> Before(h, Hit(m, Score(q, m))))
    {
      FilteredIff(rows, InScope(project), m);
      ScoredIffOverlap(q, visible, Hit(m, Score(q, m)));
      LeftOutRanksLower(Scored(q, visible), limit, Hit(m, Score(q, m)));
    }
  }

  lemma LeftOutRanksLower(scored: seq<Hit>, limit: nat, hit: Hit)
    requires hit in scored
    ensures var hits := Take(Ranked(scored), limit);
      hit in hits || (|hits| == limit && forall h :: h in hits ==> Before(h, hit))
  {
    var ranked := Ranked(scored);
    RankedSorts(scored);
    assert hit in multiset(ranked);
    var j :| 0 <= j < |ranked| && ranked[j] == hit;
    if j < limit {
      assert Take(ranked, limit)[j] == hit;
    }
  }

  lemma {:induction false} FilteredIff(rows: seq<Memory>, keep: Memory -> bool, m: Memory)
    ensures m in Filtered(rows, keep) <==> m in rows && keep(m)
  {
    if rows == [] {
    } else {
      FilteredIff(rows[1..], keep, m);
      assert m in rows <==> m == rows[0] || m in rows[1..];
    }
  }

  lemma {:induction false} ScoredIffOverlap(q: set<string>, rows: seq<Memory>, h: Hit)
    ensures h in Scored(q, rows) <==> h.row in rows && Overlap(q, h.row) > 0 && h.score == Score(q, h.row)
  {
    if rows == [] {
    } else {
      ScoredIffOverlap(q, rows[1..], h);
      assert h.row in rows <==> h.row == rows[0] || h.row in rows[1..];
    }
  }

  // ----- when the cap on candidates does harm ---------------------------------------------

  predicate DistinctIds(rows: seq<Memory>) {
    forall i, j :: 0 <= i < j < |rows| ==> rows[i].id != rows[j].id
  }

  /** No hit twice, and no two hits of one row. */
  predicate Single(hits: seq<Hit>) {
    && (forall h :: h in hits ==> multiset(hits)[h] == 1)
    && (forall g, h :: g in hits && h in hits && g.row.id == h.row.id ==> g == h)
  }

  lemma {:induction false} FilteredDistinct(rows: seq<Memory>, keep: Memory -> bool)
    requires DistinctIds(rows)
    ensures DistinctIds(Filtered(rows, keep))
  {
    if rows == [] {
    } else {
      var rest := Filtered(rows[1..], keep);
      FilteredDistinct(rows[1..], keep);
      forall j | 0 <= j < |rest| ensures rest[j].id != rows[0].id {
        FilteredIff(rows[1..], keep, rest[j]);
      }
    }
  }

  lemma SingleCons(top: Hit, hits: seq<Hit>)
    requires Single(hits) && forall h :: h in hits ==> h.row.id != top.row.id
    ensures Single([top] + hits)
  {
    var all := [top] + hits;
    assert multiset(all) == multiset{top} + multiset(hits);
    forall h | h in all ensures multiset(all)[h] == 1 {
      assert h != top ==> h in hits;
      assert top !in hits && top !in multiset(hits);
    }
  }

  lemma {:induction false} ScoredSingle(q: set<string>, rows: seq<Memory>)
    requires DistinctIds(rows)
    ensures Single(Scored(q, rows))
  {
    hide Overlap, Score, Single;
    if rows == [] {
      assert Single([]) by { NothingSingle(); }
    } else {
      var rest := Scored(q, rows[1..]);
      ScoredSingle(q, rows[1..]);
      forall h | h in rest ensures h.row.id != rows[0].id {
        ScoredIffOverlap(q, rows[1..], h);
      }
      SingleCons(Hit(rows[0], Score(q, rows[0])), rest);
      assert [] + rest == rest;
    }
  }

  lemma NothingSingle()
    ensures Single([])
  {
  }

  lemma RankedSingle(hits: seq<Hit>)
    requires Single(hits)
    ensures Single(Ranked(hits)) && forall h :: h in Ranked(hits) <==> h in hits
  {
    RankedSorts(hits);
    forall h ensures h in Ranked(hits) <==> h in hits {
      assert h in multiset(Ranked(hits)) <==> h in multiset(hits);
    }
  }

  lemma SingleTail(hits: seq<Hit>)
    requires Single(hits) && hits != []
    ensures Single(hits[1..]) && hits[0] !in hits[1..]
    ensures forall h :: h in hits <==> h == hits[0] || h in hits[1..]
  {
    assert hits == [hits[0]] + hits[1..];
    assert multiset(hits) == multiset{hits[0]} + multiset(hits[1..]);
    assert hits[0] in hits;
    forall h | h in hits[1..] ensures multiset(hits[1..])[h] == 1 && h in hits && h != hits[0] {
      assert h in multiset(hits[1..]);
      assert multiset(hits)[h] == 1;
    }
  }

  lemma SameTop(some: seq<Hit>, all: seq<Hit>, i: nat, j: nat)
    requires some != [] && all != [] && Descending(some) && Descending(all) && Single(all)
    requires i < |all| && all[i] == some[0] && j < |some| && some[j] == all[0]
    ensures some[0] == all[0]
  {
    assert i > 0 ==> Before(all[0], all[i]);
    assert j > 0 ==> Before(some[0], some[j]);
    assert all[0] in all && all[i] in all;
  }

  predicate Among(some: seq<Hit>, all: seq<Hit>) {
    forall h :: h in some ==> h in all
  }

  lemma HeadsAgree(some: seq<Hit>, all: seq<Hit>)
    requires Descending(some) && Descending(all) && Single(all) && Among(some, all)
    requires all != [] && all[0] in some
    ensures some != [] && some[0] == all[0]
  {
    hide Descending, Single;
    assert some[0] in some;
    var j :| 0 <= j < |some| && some[j] == all[0];
    var i :| 0 <= i < |all| && all[i] == some[0];
    SameTop(some, all, i, j);
  }

  lemma TakeCons(hits: seq<Hit>, n: nat)
    requires hits != [] && n > 0
    ensures Take(hits, n) == [hits[0]] + Take(hits[1..], n - 1)
  {
  }

  lemma DescendingTail(hits: seq<Hit>)
    requires Descending(hits) && hits != []
    ensures Descending(hits[1..])
  {
    forall i, j | 0 <= i < j < |hits| - 1 ensures Before(hits[1..][i], hits[1..][j]) {
      assert hits[1..][i] == hits[i + 1] && hits[1..][j] == hits[j + 1];
    }
  }

  /** A ranking of some of the hits begins like the ranking of all of them if it has the top of it. */
  lemma {:induction false} TopAgrees(some: seq<Hit>, all: seq<Hit>, n: nat)
    requires Descending(some) && Descending(all) && Single(some) && Single(all)
    requires Among(some, all) && Among(Take(all, n), some)
    ensures Take(some, n) == Take(all, n)
    decreases n
  {
    hide Single, Descending;
    assert some != [] ==> some[0] in some;
    if n == 0 {
    } else if all == [] {
    } else {
      hide Take;
      TakeCons(all, n);
      assert all[0] in Take(all, n);
      HeadsAgree(some, all);
      TakeCons(some, n);
      SingleTail(some);
      SingleTail(all);
      DescendingTail(some);
      DescendingTail(all);
      TakeAmong(all[1..], n - 1);
      TopAgrees(some[1..], all[1..], n - 1);
    }
  }

  lemma TakeAmong(hits: seq<Hit>, n: nat)
    ensures Among(Take(hits, n), hits)
  {
  }

  lemma {:induction false} ScoredJoin(q: set<string>, a: seq<Memory>, b: seq<Memory>)
    ensures Scored(q, a + b) == Scored(q, a) + Scored(q, b)
  {
    hide Overlap, Score;
    if a == [] {
      assert a + b == b;
    } else {
      assert (a + b)[1..] == a[1..] + b;
      ScoredJoin(q, a[1..], b);
    }
  }

  lemma TakeJoins<T>(s: seq<T>, n: nat) returns (rest: seq<T>)
    ensures s == Take(s, n) + rest
  {
    rest := if n <= |s| then s[n..] else [];
  }

  /** With a primary key the answer is the full scan's exactly when the rows of the full scan's answer
      are among the 2000 newest matches. */
  lemma RecalledExactly(db: Dialect, q: set<string>, project: Option<string>, rows: seq<Memory>, limit: nat)
    requires DistinctIds(rows)
    ensures Recalled(db, q, project, rows, limit) == FullScan(q, project, rows, limit) <==>
      forall h :: h in FullScan(q, project, rows, limit) ==>
        h.row in Take(Candidates(db, q, project, rows), 2000)
  {
    hide Overlap, Score, Ranked, Filtered, Single, DistinctIds;
    var candidates := Candidates(db, q, project, rows);
    var taken := Take(candidates, MAX_CANDIDATES);
    var some, all := Scored(q, taken), Scored(q, candidates);
    CandidatesScoreTheSame(db, q, project, rows);
    assert FullScan(q, project, rows, limit) == Take(Ranked(all), limit);
    FilteredDistinct(rows, InQuery(db, q, project));
    var rest := TakeJoins(candidates, MAX_CANDIDATES);
    assert DistinctIds(taken) by { PrefixDistinct(taken, rest); }
    ScoredJoin(q, taken, rest);
    ScoredSingle(q, taken);
    ScoredSingle(q, candidates);
    RankedSingle(some);
    RankedSingle(all);
    RankedSorts(some);
    RankedSorts(all);
    forall h | h in Take(Ranked(all), limit) ensures h.row in taken <==> h in Ranked(some) {
      ScoredIffOverlap(q, taken, h);
      ScoredIffOverlap(q, candidates, h);
    }
    if forall h :: h in Take(Ranked(all), limit) ==> h.row in taken {
      TopAgrees(Ranked(some), Ranked(all), limit);
    }
    assert forall h :: h in Take(Ranked(some), limit) ==> h in Ranked(some);
  }

  lemma PrefixDistinct(a: seq<Memory>, b: seq<Memory>)
    requires DistinctIds(a + b)
    ensures DistinctIds(a)
  {
    forall i, j | 0 <= i < j < |a| ensures a[i].id != a[j].id {
      assert (a + b)[i] == a[i] && (a + b)[j] == a[j];
    }
  }

  /** The cap can hide a true hit: rows that match a token only inside a longer word fill all the
      places, score nothing, and an older row with the token itself is never looked at. */
  lemma FalseMatchesStarveAHit(db: Dialect, q: set<string>, fillers: seq<Memory>, best: Memory)
    requires |fillers| == 2000
    requires forall m :: m in fillers ==> !m.archived && Matches(db, q, m) && Overlap(q, m) == 0
    requires !best.archived && Overlap(q, best) > 0
    ensures var rows := fillers + [best];
      && Recalled(db, q, None, rows, 5) == []
      && FullScan(q, None, rows, 5) == [Hit(best, Score(q, best))]
  {
    hide Matches, Overlap, Score;
    OverlapImpliesMatch(db, q, best);
    FilterKeepsAll(fillers + [best], InQuery(db, q, None));
    FilterKeepsAll(fillers + [best], InScope(None));
    NothingScored(q, fillers, [best]);
    NothingScored(q, fillers, []);
    assert fillers + [] == fillers;
    assert Take(fillers + [best], MAX_CANDIDATES) == fillers;
    assert Scored(q, [best]) == [Hit(best, Score(q, best))];
    assert Ranked([Hit(best, Score(q, best))]) == [Hit(best, Score(q, best))];
  }

  function Chat(id: nat, content: string): Memory {
    Memory(id, "episodic", "GENERAL", "", content, None, 5, false, false)
  }

  /** LIKE finds "ai" in "aid", which is a different token. */
  lemma LikeMatchesInsideWord(db: Dialect)
    ensures Contains(db, "ai", "aid") && "ai" !in Tokens("aid")
  {
    hide Like;
    ContainsSlice(db, "ai", "", "d");
    assert "" + "ai" + "d" == "aid";
    assert "aid"[1..] == "id" && "id"[1..] == "d" && "d"[1..] == "";
    assert "" + ['a'] == "a" && "a" + ['i'] == "ai" && "ai" + ['d'] == "aid";
    assert Runs("aid", "") == {"aid"};
    assert Runs("ai", "d") == {"aid"};
    assert Runs("a", "id") == {"aid"};
  }

  lemma ContentTokens(m: Memory)
    requires m.title == "" && m.relatedModule == None
    ensures RowTokens(m) == Tokens(m.content)
  {
    TokensOfJoin("", "" + " " + m.content, "");
    TokensOfJoin("", "", m.content);
    assert m.title + " " + m.content + " " + ModuleText(m) == "" + " " + m.content + " " + "";
  }

  lemma AidIsNoHit(db: Dialect, m: Memory)
    requires m.title == "" && m.relatedModule == None && m.content == "aid"
    ensures Matches(db, {"ai"}, m) && Overlap({"ai"}, m) == 0
  {
    LikeMatchesInsideWord(db);
    ContentTokens(m);
    assert {"ai"} * RowTokens(m) == {};
  }

  lemma AiIsAHit(m: Memory)
    requires m.title == "" && m.relatedModule == None && m.content == "ai"
    ensures Overlap({"ai"}, m) > 0
  {
    ContentTokens(m);
    assert "ai"[1..] == "i" && "i"[1..] == "";
    assert "" + ['a'] == "a" && "a" + ['i'] == "ai";
    assert Runs("a", "i") == {"ai"};
    assert "ai" in {"ai"} * RowTokens(m);
  }

  /** Chat lines saying "aid", the newest first. */
  function Aids(): seq<Memory> {
    seq(MAX_CANDIDATES, i requires 0 <= i < MAX_CANDIDATES => Chat(MAX_CANDIDATES - i, "aid"))
  }

  /** Such tables exist: 2000 chat lines saying "aid", each with its own id, hide an older "ai". */
  lemma StarvedTable(db: Dialect)
    ensures var rows := Aids() + [Chat(0, "ai")];
      && (forall i, j :: 0 <= i < j < |rows| ==> rows[i].id != rows[j].id)
      && Recalled(db, {"ai"}, None, rows, 5) == []
      && FullScan({"ai"}, None, rows, 5) == [Hit(Chat(0, "ai"), Score({"ai"}, Chat(0, "ai")))]
  {
    hide Overlap, Score, Recalled, FullScan;
    var fillers := Aids();
    forall m | m in fillers ensures !m.archived && Matches(db, {"ai"}, m) && Overlap({"ai"}, m) == 0 {
      AidIsNoHit(db, m);
    }
    AiIsAHit(Chat(0, "ai"));
    FalseMatchesStarveAHit(db, {"ai"}, fillers, Chat(0, "ai"));
  }

  lemma {:induction false} FilterKeepsAll(rows: seq<Memory>, keep: Memory -> bool)
    requires forall m :: m in rows ==> keep(m)
    ensures Filtered(rows, keep) == rows
  {
    if rows == [] {
    } else {
      FilterKeepsAll(rows[1..], keep);
    }
  }

  lemma {:induction false} NothingScored(q: set<string>, f: seq<Memory>, rest: seq<Memory>)
    requires forall m :: m in f ==> Overlap(q, m) == 0
    ensures Scored(q, f + rest) == Scored(q, rest)
  {
    if f == [] {
      assert f + rest == rest;
    } else {
      assert (f + rest)[1..] == f[1..] + rest;
      NothingScored(q, f[1..], rest);
    }
  }
}
