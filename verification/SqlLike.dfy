/** The `LIKE '%query%'` filter behind app/memory/base_memory.py: '%' matches any run of
    characters, '_' any single one, letters match without regard to ASCII case. The filter names no
    escape character; SQLite then has none, and MySQL takes the backslash. */
module SqlLike {
  import opened PyText

  datatype Dialect = SQLite | MySQL

  predicate Like(db: Dialect, pattern: string, text: string)
    decreases |pattern| + |text|
  {
    if pattern == "" then text == ""
    else if pattern[0] == '%' then
      Like(db, pattern[1..], text) || (text != "" && Like(db, pattern, text[1..]))
    else if db.MySQL? && pattern[0] == '\\' && |pattern| > 1 then
      && text != ""
      && LowerChar(pattern[1]) == LowerChar(text[0])
      && Like(db, pattern[2..], text[1..])
    else
      && text != ""
      && (pattern[0] == '_' || LowerChar(pattern[0]) == LowerChar(text[0]))
      && Like(db, pattern[1..], text[1..])
  }

  /** `f"%{query}%"` */
  function Around(query: string): string {
    "%" + query + "%"
  }

  predicate Contains(db: Dialect, query: string, text: string) {
    Like(db, Around(query), text)
  }

  /** No character of the query is taken for an escape. */
  predicate NoEscape(db: Dialect, query: string) {
    db.MySQL? ==> '\\' !in query
  }

  predicate Plain(query: string) {
    forall k :: 0 <= k < |query| ==> query[k] != '%' && query[k] != '_' && query[k] != '\\'
  }

  lemma {:induction false} PercentMatchesAll(db: Dialect, text: string)
    ensures Like(db, "%", text)
    decreases |text|
  {
    if text != "" {
      PercentMatchesAll(db, text[1..]);
    } else {
      assert Like(db, "%"[1..], text);
    }
  }

  lemma {:induction false} LikeItself(db: Dialect, w: string, b: string)
    requires NoEscape(db, w)
    ensures Like(db, w + "%", w + b)
  {
    var p, t := w + "%", w + b;
    if w == "" {
      assert p == "%";
      PercentMatchesAll(db, t);
    } else {
      assert p[1..] == w[1..] + "%" && t[1..] == w[1..] + b;
      LikeItself(db, w[1..], b);
      if w[0] == '%' {
        assert Like(db, p, t[1..]);
      }
    }
  }

  lemma {:induction false} LikeLater(db: Dialect, p: string, a: string, t: string)
    requires Like(db, p, t)
    ensures Like(db, "%" + p, a + t)
    decreases |a|
  {
    assert ("%" + p)[1..] == p;
    if a == "" {
      assert a + t == t;
    } else {
      assert (a + t)[1..] == a[1..] + t;
      LikeLater(db, p, a[1..], t);
    }
  }

  /** No false negatives: a query without escapes, wildcards and all, is found wherever it stands
      verbatim. */
  lemma ContainsSlice(db: Dialect, w: string, a: string, b: string)
    requires NoEscape(db, w)
    ensures Contains(db, w, a + w + b)
  {
    LikeItself(db, w, b);
    LikeLater(db, w + "%", a, w + b);
    assert a + w + b == a + (w + b);
    assert Around(w) == "%" + (w + "%");
  }

  lemma {:induction false} PrefixMatches(db: Dialect, w: string, more: string, t: string)
    requires NoEscape(db, w) && Like(db, w + more, t)
    ensures Like(db, w + "%", t)
    decreases |w| + |t|
  {
    var p, q := w + more, w + "%";
    if w == "" {
      assert q == "%";
      PercentMatchesAll(db, t);
    } else {
      assert p[1..] == w[1..] + more && q[1..] == w[1..] + "%";
      if w[0] == '%' {
        if Like(db, p[1..], t) {
          PrefixMatches(db, w[1..], more, t);
        } else {
          PrefixMatches(db, w, more, t[1..]);
        }
      } else {
        PrefixMatches(db, w[1..], more, t[1..]);
      }
    }
  }

  /** Whatever a longer query finds, every beginning of it without escapes finds too. */
  lemma ContainsShorter(db: Dialect, w: string, more: string, t: string)
    requires NoEscape(db, w) && Contains(db, w + more, t)
    ensures Contains(db, w, t)
  {
    assert Around(w + more) == ("%" + w) + (more + "%") && Around(w) == ("%" + w) + "%";
    PrefixMatches(db, "%" + w, more + "%", t);
  }

  lemma {:induction false} PlainPrefix(db: Dialect, w: string, t: string)
    requires Plain(w)
    ensures Like(db, w + "%", t) <==> StartsFold(t, Lower(w))
  {
    var p := w + "%";
    if w == "" {
      assert p == "%";
      PercentMatchesAll(db, t);
    } else if t != "" && LowerChar(w[0]) == LowerChar(t[0]) {
      assert p[1..] == w[1..] + "%";
      PlainPrefix(db, w[1..], t[1..]);
      if StartsFold(t, Lower(w)) {
        forall k | 0 <= k < |w[1..]| ensures LowerChar(t[1..][k]) == Lower(w[1..])[k] {
          assert LowerChar(t[k + 1]) == Lower(w)[k + 1];
        }
      }
      if StartsFold(t[1..], Lower(w[1..])) {
        forall k | 0 <= k < |w| ensures LowerChar(t[k]) == Lower(w)[k] {
          if k > 0 {
            assert LowerChar(t[1..][k - 1]) == Lower(w[1..])[k - 1];
          }
        }
      }
    } else if t != "" {
      assert Lower(w)[0] != LowerChar(t[0]);
    }
  }

  /** Without wildcards and backslashes the filter is exactly case-insensitive substring search. */
  lemma {:induction false} PlainContains(db: Dialect, w: string, t: string)
    requires Plain(w)
    ensures Contains(db, w, t) <==> Occurs(Lower(w), t)
    decreases |t|
  {
    assert Around(w)[1..] == w + "%";
    PlainPrefix(db, w, t);
    if t == "" {
    } else {
      PlainContains(db, w, t[1..]);
      if Occurs(Lower(w), t[1..]) {
        OccursInside(Lower(w), t[..1], t[1..], "");
        assert t[..1] + t[1..] + "" == t;
      }
    }
  }

  lemma {:induction false} EscapeIsDropped(a: string, v: string, t: string)
    requires Plain(a) && Plain(v) && v != ""
    ensures Like(MySQL, a + "\\" + v + "%", t) <==> Like(MySQL, a + v + "%", t)
  {
    var p, q := a + "\\" + v + "%", a + v + "%";
    if a == "" {
      assert p[1] == v[0] == q[0] && p[2..] == v[1..] + "%" == q[1..];
    } else if t != "" {
      assert p[1..] == a[1..] + "\\" + v + "%" && q[1..] == a[1..] + v + "%";
      EscapeIsDropped(a[1..], v, t[1..]);
    }
  }

  /** On MySQL a query with a backslash finds what the query without it finds. */
  lemma {:induction false} BackslashIsDropped(a: string, v: string, t: string)
    requires Plain(a) && Plain(v) && v != ""
    ensures Contains(MySQL, a + "\\" + v, t) <==> Contains(MySQL, a + v, t)
    decreases |t|
  {
    assert Around(a + "\\" + v)[1..] == a + "\\" + v + "%" && Around(a + v)[1..] == a + v + "%";
    EscapeIsDropped(a, v, t);
    if t == "" {
    } else {
      BackslashIsDropped(a, v, t[1..]);
    }
  }

  lemma {:induction false} EscapedPercent(a: string, t: string)
    requires Plain(a)
    ensures Like(MySQL, a + "\\%", t) <==> |t| == |a| + 1 && StartsFold(t, Lower(a) + "%")
  {
    var p := a + "\\%";
    if a == "" {
      assert p == "\\%" && p[2..] == "";
      assert Lower(a) + "%" == "%";
    } else if t != "" {
      assert p[1..] == a[1..] + "\\%";
      EscapedPercent(a[1..], t[1..]);
      var w, v := Lower(a) + "%", Lower(a[1..]) + "%";
      assert w[0] == LowerChar(a[0]) && w[1..] == v;
      if StartsFold(t[1..], v) && w[0] == LowerChar(t[0]) {
        forall k | 0 <= k < |w| ensures LowerChar(t[k]) == w[k] {
          if k > 0 {
            assert LowerChar(t[1..][k - 1]) == v[k - 1];
          }
        }
      }
      if StartsFold(t, w) {
        forall k | 0 <= k < |v| ensures LowerChar(t[1..][k]) == v[k] {
          assert LowerChar(t[k + 1]) == w[k + 1];
        }
      }
    }
  }

  /** On MySQL a query that ends in a backslash takes the closing wildcard for a percent sign: it finds
      only texts that end in the query and that sign. */
  lemma {:induction false} BackslashAtEnd(a: string, t: string)
    requires Plain(a)
    ensures Contains(MySQL, a + "\\", t) <==>
      |t| > |a| && StartsFold(t[|t| - |a| - 1..], Lower(a) + "%")
    decreases |t|
  {
    assert Around(a + "\\")[1..] == a + "\\%";
    EscapedPercent(a, t);
    if t == "" {
    } else {
      BackslashAtEnd(a, t[1..]);
      assert |t| > |a| + 1 ==> t[1..][|t[1..]| - |a| - 1..] == t[|t| - |a| - 1..];
      assert t[0..] == t;
    }
  }
}
