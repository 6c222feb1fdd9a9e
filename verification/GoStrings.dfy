/** The parts of Go's `strings` package that composite ids and import lists rest on. */
module GoStrings {
  /** `strings.Split` for a one-character separator: the fields between separators. */
  function Split(s: string, sep: char): (fields: seq<string>)
    ensures |fields| >= 1
    ensures forall f :: f in fields ==> sep !in f
  {
    if s == "" then [""]
    else
      var rest := Split(s[1..], sep);
      if s[0] == sep then [""] + rest
      else [[s[0]] + rest[0]] + rest[1..]
  }

  /** The fields with a separator between neighbours. */
  function Join(fields: seq<string>, sep: char): string
    requires |fields| >= 1
  {
    if |fields| == 1 then fields[0]
    else fields[0] + [sep] + Join(fields[1..], sep)
  }

  function Count(s: string, c: char): nat {
    if s == "" then 0 else (if s[0] == c then 1 else 0) + Count(s[1..], c)
  }

  lemma {:induction false} SplitPrepend(field: string, s: string, sep: char)
    requires sep !in field
    ensures Split(field + [sep] + s, sep) == [field] + Split(s, sep)
  {
    var whole := field + [sep] + s;
    if field == "" {
      assert whole[1..] == s;
    } else {
      assert whole[1..] == field[1..] + [sep] + s;
      SplitPrepend(field[1..], s, sep);
      assert [field[0]] + field[1..] == field;
    }
  }

  lemma {:induction false} SplitWhole(field: string, sep: char)
    requires sep !in field
    ensures Split(field, sep) == [field]
  {
    if field != "" {
      SplitWhole(field[1..], sep);
      assert [field[0]] + field[1..] == field;
    }
  }

  /** Splitting recovers the joined fields exactly when no field holds the separator. */
  lemma {:induction false} SplitOfJoin(fields: seq<string>, sep: char)
    requires |fields| >= 1
    ensures Split(Join(fields, sep), sep) == fields <==> forall f :: f in fields ==> sep !in f
  {
    if forall f :: f in fields ==> sep !in f {
      if |fields| == 1 {
        SplitWhole(fields[0], sep);
      } else {
        SplitOfJoin(fields[1..], sep);
        SplitPrepend(fields[0], Join(fields[1..], sep), sep);
      }
    }
  }

  /** The case of two fields. */
  lemma SplitOfPair(a: string, b: string, sep: char)
    ensures Split(a + [sep] + b, sep) == [a, b] <==> sep !in a && sep !in b
  {
    assert Join([a, b][1..], sep) == b;
    assert Join([a, b], sep) == a + [sep] + b;
    SplitOfJoin([a, b], sep);
    assert [a, b][0] == a && [a, b][1] == b;
  }

  lemma {:induction false} JoinOfSplit(s: string, sep: char)
    ensures Join(Split(s, sep), sep) == s
  {
    if s != "" {
      JoinOfSplit(s[1..], sep);
    }
  }

  lemma {:induction false} SplitCounts(s: string, sep: char)
    ensures |Split(s, sep)| == Count(s, sep) + 1
  {
    if s != "" {
      SplitCounts(s[1..], sep);
    }
  }

  lemma {:induction false} CountAppend(s: string, t: string, c: char)
    ensures Count(s + t, c) == Count(s, c) + Count(t, c)
  {
    if s == "" {
      assert s + t == t;
    } else {
      assert (s + t)[1..] == s[1..] + t;
      CountAppend(s[1..], t, c);
    }
  }

  lemma CountPrepend(s: string, t: string)
    ensures Count(s + "/" + t, '/') == Count(s, '/') + 1 + Count(t, '/')
  {
    CountAppend(s + "/", t, '/');
    CountAppend(s, "/", '/');
    assert "/"[1..] == "";
  }

  lemma {:induction false} CountZero(s: string)
    ensures Count(s, '/') == 0 <==> '/' !in s
  {
    if s != "" { CountZero(s[1..]); }
  }

  // ---- strings.TrimSpace ----

  /** `unicode.IsSpace`. */
  predicate IsSpace(c: char) {
    || c in {' ', '\t', '\n', '\r', '\U{000B}', '\U{000C}', '\U{0085}', '\U{00A0}'}
    || c in {'\U{1680}', '\U{2028}', '\U{2029}', '\U{202F}', '\U{205F}', '\U{3000}'}
    || '\U{2000}' <= c <= '\U{200A}'
  }

  function TrimLeft(s: string): (t: string)
    ensures t == "" || !IsSpace(t[0])
    ensures forall c :: c in t ==> c in s
  {
    if s != "" && IsSpace(s[0]) then TrimLeft(s[1..]) else s
  }

  function TrimRight(s: string): (t: string)
    ensures t == "" || !IsSpace(t[|t| - 1])
    ensures t <= s
  {
    if s != "" && IsSpace(s[|s| - 1]) then TrimRight(s[..|s| - 1]) else s
  }

  function TrimSpace(s: string): string {
    TrimRight(TrimLeft(s))
  }

  /** A string with no space at either end. */
  predicate Trimmed(s: string) {
    s == "" || (!IsSpace(s[0]) && !IsSpace(s[|s| - 1]))
  }

  lemma TrimSpaceTrims(s: string)
    ensures Trimmed(TrimSpace(s))
    ensures Trimmed(s) ==> TrimSpace(s) == s
    ensures forall c :: c in TrimSpace(s) ==> c in s
  {
    var t := TrimSpace(s);
    assert t == TrimLeft(s)[..|t|];
  }

  /** Spaces around a string do not show in the result. */
  lemma {:induction false} TrimSpaceIgnoresPadding(left: string, s: string, right: string)
    requires forall c :: c in left + right ==> IsSpace(c)
    requires Trimmed(s)
    ensures TrimSpace(left + s + right) == s
  {
    if left != "" {
      assert (left + s + right)[1..] == left[1..] + s + right;
      TrimSpaceIgnoresPadding(left[1..], s, right);
    } else {
      assert left + s + right == s + right;
      TrimRightIgnoresPadding(s, right);
      if s == "" {
        TrimLeftOfSpaces(right);
      }
    }
  }

  lemma {:induction false} TrimRightIgnoresPadding(s: string, right: string)
    requires forall c :: c in right ==> IsSpace(c)
    requires Trimmed(s)
    ensures TrimRight(s + right) == s
  {
    if right == "" {
      assert s + right == s;
    } else {
      assert (s + right)[..|s + right| - 1] == s + right[..|right| - 1];
      TrimRightIgnoresPadding(s, right[..|right| - 1]);
    }
  }

  lemma {:induction false} TrimLeftOfSpaces(s: string)
    requires forall c :: c in s ==> IsSpace(c)
    ensures TrimLeft(s) == ""
  {
    if s != "" {
      TrimLeftOfSpaces(s[1..]);
    }
  }
}
