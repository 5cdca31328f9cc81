/** Character classes and substring search, as Python's `str` and `re` see them.
    Case folding is ASCII only. */
module PyText {

  datatype Option<+T> = None | Some(value: T)

  /** `str.isspace`, which is also what `\s` matches and what `strip()` removes. */
  predicate IsSpace(c: char) {
    || '\t' <= c <= '\r'
    || '\U{1c}' <= c <= ' '
    || c == '\U{85}' || c == '\U{a0}' || c == '\U{1680}'
    || '\U{2000}' <= c <= '\U{200a}'
    || c == '\U{2028}' || c == '\U{2029}' || c == '\U{202f}' || c == '\U{205f}' || c == '\U{3000}'
  }

  predicate IsWord(c: char) {
    'a' <= c <= 'z' || 'A' <= c <= 'Z' || '0' <= c <= '9' || c == '_'
  }

  function LowerChar(c: char): (r: char)
    ensures !('A' <= r <= 'Z')
    ensures IsWord(r) == IsWord(c)
    ensures IsSpace(r) == IsSpace(c)
  {
    if 'A' <= c <= 'Z' then (c as int + 32) as char else c
  }

  function Lower(s: string): (r: string)
    ensures |r| == |s|
    ensures forall i :: 0 <= i < |s| ==> r[i] == LowerChar(s[i])
  {
    seq(|s|, i requires 0 <= i < |s| => LowerChar(s[i]))
  }

  /** `w` is a prefix of `s` when the case of `s` is ignored; `w` is already lower case. */
  predicate StartsFold(s: string, w: string) {
    |w| <= |s| && forall k :: 0 <= k < |w| ==> LowerChar(s[k]) == w[k]
  }

  /** `w in s.lower()`, by trying every position from the left. */
  predicate Occurs(w: string, s: string)
    decreases |s|
  {
    |w| <= |s| && (StartsFold(s, w) || (s != "" && Occurs(w, s[1..])))
  }

  /** `re.search(r"\bw\b", s.lower())`; `before` says whether a word character precedes `s`. */
  predicate HasWord(s: string, before: bool, w: string)
    decreases |s|
  {
    && s != ""
    && |w| <= |s|
    && (|| (!before && StartsFold(s, w) && (|s| == |w| || !IsWord(s[|w|])))
        || HasWord(s[1..], IsWord(s[0]), w))
  }

  /** The search finds `w` exactly when some slice of `s` equals it up to case. */
  lemma {:induction false} OccursIffSlice(w: string, s: string)
    ensures Occurs(w, s) <==> exists k :: 0 <= k <= |s| - |w| && StartsFold(s[k..], w)
    decreases |s|
  {
    if |w| <= |s| {
      assert s[0..] == s;
      if s != "" {
        OccursIffSlice(w, s[1..]);
        assert forall k :: 1 <= k <= |s| ==> s[1..][k - 1..] == s[k..];
        if k :| 0 <= k <= |s| - |w| && StartsFold(s[k..], w) {
          if k > 0 {
            assert StartsFold(s[1..][k - 1..], w);
          }
        }
        if Occurs(w, s[1..]) {
          var j :| 0 <= j <= |s[1..]| - |w| && StartsFold(s[1..][j..], w);
          assert StartsFold(s[j + 1..], w);
        }
      }
    }
  }

  lemma {:induction false} OccursInside(w: string, a: string, m: string, b: string)
    requires Occurs(w, m)
    ensures Occurs(w, a + m + b)
    decreases |a| + |m|
  {
    if a != "" {
      assert (a + m + b)[1..] == a[1..] + m + b;
      OccursInside(w, a[1..], m, b);
    } else if StartsFold(m, w) {
      assert StartsFold(a + m + b, w);
    } else {
      assert (a + m + b)[1..] == a + m[1..] + b;
      OccursInside(w, a, m[1..], b);
    }
  }

  lemma {:induction false} WordOccurs(s: string, before: bool, w: string)
    requires HasWord(s, before, w)
    ensures Occurs(w, s)
    decreases |s|
  {
    if !StartsFold(s, w) {
      WordOccurs(s[1..], IsWord(s[0]), w);
    }
  }

  lemma {:induction false} WordAfter(a: string, before: bool, s: string, w: string)
    requires a != "" && HasWord(s, IsWord(a[|a| - 1]), w)
    ensures HasWord(a + s, before, w)
    decreases |a|
  {
    assert (a + s)[1..] == a[1..] + s;
    if |a| == 1 {
      assert a[1..] + s == s;
    } else {
      WordAfter(a[1..], IsWord(a[0]), s, w);
    }
  }

  /** A word stands in the text exactly when some slice equals it up to case, with no word character
      before or after it. */
  lemma {:induction false} HasWordIff(s: string, before: bool, w: string)
    requires w != ""
    ensures HasWord(s, before, w) <==>
      exists k :: 0 <= k <= |s| - |w| && StandsAt(s, before, w, k)
    decreases |s|
  {
    if s == "" {
    } else {
      HasWordIff(s[1..], IsWord(s[0]), w);
      assert s[0..] == s;
      if k :| 0 <= k <= |s| - |w| && StandsAt(s, before, w, k) {
        if k > 0 {
          assert s[1..][k - 1..] == s[k..];
          assert StandsAt(s[1..], IsWord(s[0]), w, k - 1);
        }
      }
      if k :| 0 <= k <= |s[1..]| - |w| && StandsAt(s[1..], IsWord(s[0]), w, k) {
        assert s[1..][k..] == s[k + 1..];
        assert StandsAt(s, before, w, k + 1);
      }
      if HasWord(s, before, w) && !HasWord(s[1..], IsWord(s[0]), w) {
        assert StandsAt(s, before, w, 0);
      }
    }
  }

  predicate StandsAt(s: string, before: bool, w: string, k: int)
    requires 0 <= k <= |s| - |w|
  {
    && StartsFold(s[k..], w)
    && (if k == 0 then !before else !IsWord(s[k - 1]))
    && (k + |w| == |s| || !IsWord(s[k + |w|]))
  }

  // ----- strip ----------------------------------------------------------------

  function LStrip(s: string): string {
    if s != "" && IsSpace(s[0]) then LStrip(s[1..]) else s
  }

  function RStrip(s: string): string {
    if s != "" && IsSpace(s[|s| - 1]) then RStrip(s[..|s| - 1]) else s
  }

  /** `s.strip()` */
  function Strip(s: string): string {
    RStrip(LStrip(s))
  }
}
