/** The Python `str` operations the service relies on: `split` and `join`
    with a one-character separator, the first and second segment of a
    delimited string, and the code-point ordering `sorted` uses on names. */
module PyStr {

  /** `s.split(sep)`: the pieces of `s` between separators, in order.
      An empty string gives one empty piece, never an empty list. */
  function Split(s: string, sep: char): (parts: seq<string>)
    ensures |parts| >= 1
    ensures forall i :: 0 <= i < |parts| ==> sep !in parts[i]
  {
    if s == [] then [""]
    else
      var rest := Split(s[1..], sep);
      if s[0] == sep then [""] + rest
      else [[s[0]] + rest[0]] + rest[1..]
  }

  /** `sep.join(parts)`: the pieces with one separator between neighbours;
      the empty list gives the empty string. */
  function Join(parts: seq<string>, sep: char): (r: string)
    ensures |parts| >= 1 ==> parts[0] <= r
    ensures |parts| >= 2 ==> |r| > |parts[0]| && r[|parts[0]|] == sep
    ensures (forall i :: 0 <= i < |parts| ==> sep !in parts[i]) ==> (sep in r <==> |parts| >= 2)
  {
    if |parts| == 0 then ""
    else if |parts| == 1 then parts[0]
    else parts[0] + [sep] + Join(parts[1..], sep)
  }

  /** The text of `s` before its first `c` (all of `s` when there is none). */
  function Before(s: string, c: char): (r: string)
    ensures r <= s && c !in r
    ensures |r| == |s| || s[|r|] == c
  {
    if s == [] || s[0] == c then [] else [s[0]] + Before(s[1..], c)
  }

  /** Appending text that starts with `c` to a `c`-free string leaves the
      text before the first `c` as that string. */
  lemma {:induction false} BeforePrefix(s: string, t: string, c: char)
    requires c !in s
    requires t == [] || t[0] == c
    ensures Before(s + t, c) == s
  {
    if s != [] {
      assert (s + t)[1..] == s[1..] + t;
      BeforePrefix(s[1..], t, c);
    }
  }

  /** The text of `s` after its first `c`. */
  function After(s: string, c: char): (r: string)
    requires c in s
    ensures s == Before(s, c) + [c] + r
  {
    var b := Before(s, c);
    assert |b| < |s|;
    assert s == b + [c] + s[|b| + 1..];
    s[|b| + 1..]
  }

  /** Joining the pieces of a split gives the string back. */
  lemma {:induction false} JoinSplit(s: string, sep: char)
    ensures Join(Split(s, sep), sep) == s
  {
    if s != [] {
      var rest := Split(s[1..], sep);
      JoinSplit(s[1..], sep);
      if s[0] == sep {
        assert ([""] + rest)[1..] == rest;
        assert s == [sep] + s[1..];
      } else {
        var parts := [[s[0]] + rest[0]] + rest[1..];
        assert Split(s, sep) == parts;
        if |rest| == 1 {
          assert Join(rest, sep) == rest[0];
        } else {
          assert parts[1..] == rest[1..];
          assert Join(rest, sep) == rest[0] + [sep] + Join(rest[1..], sep);
        }
        assert s == [s[0]] + s[1..];
      }
    }
  }

  /** Splitting a separator-free word followed by `t` glues the word onto
      the first piece of `t`. */
  lemma {:induction false} SplitPrefix(w: string, t: string, sep: char)
    requires sep !in w
    ensures Split(w + t, sep) == [w + Split(t, sep)[0]] + Split(t, sep)[1..]
  {
    if w == [] {
      assert w + t == t;
      assert w + Split(t, sep)[0] == Split(t, sep)[0];
      assert Split(t, sep) == [Split(t, sep)[0]] + Split(t, sep)[1..];
    } else {
      SplitPrefix(w[1..], t, sep);
      assert (w + t)[0] == w[0];
      assert (w + t)[1..] == w[1..] + t;
      assert [w[0]] + (w[1..] + Split(t, sep)[0]) == w + Split(t, sep)[0];
    }
  }

  /** Splitting a join gives the pieces back, when there is at least one
      piece and no piece holds the separator. */
  lemma {:induction false} SplitJoin(parts: seq<string>, sep: char)
    requires |parts| >= 1
    requires forall i :: 0 <= i < |parts| ==> sep !in parts[i]
    ensures Split(Join(parts, sep), sep) == parts
  {
    if |parts| == 1 {
      SplitPrefix(parts[0], "", sep);
      assert parts[0] + "" == parts[0];
    } else {
      var j := Join(parts[1..], sep);
      SplitJoin(parts[1..], sep);
      assert Join(parts, sep) == parts[0] + ([sep] + j);
      SplitPrefix(parts[0], [sep] + j, sep);
      assert ([sep] + j)[1..] == j;
      assert Split([sep] + j, sep) == [""] + parts[1..];
      assert parts[0] + "" == parts[0];
      assert [parts[0]] + parts[1..] == parts;
    }
  }

  /** The exact round trip: a list survives join-then-split if and only if
      it is non-empty and no piece holds the separator. */
  lemma RoundTripExactly(parts: seq<string>, sep: char)
    ensures Split(Join(parts, sep), sep) == parts
            <==> |parts| >= 1 && forall i :: 0 <= i < |parts| ==> sep !in parts[i]
  {
    if |parts| >= 1 && forall i :: 0 <= i < |parts| ==> sep !in parts[i] {
      SplitJoin(parts, sep);
    }
  }

  /** The empty list is written as the empty string, which reads back as one
      empty piece. */
  lemma EmptyListReadsBackBlank(sep: char)
    ensures Join([], sep) == "" && Split(Join([], sep), sep) == [""]
  {
  }

  /** The first piece of a split is the text before the first separator. */
  lemma {:induction false} SplitHead(s: string, sep: char)
    ensures Split(s, sep)[0] == Before(s, sep)
  {
    if s != [] && s[0] != sep {
      SplitHead(s[1..], sep);
    }
  }

  /** A separator-free string splits into itself alone, and only then. */
  lemma {:induction false} SplitWhole(s: string, sep: char)
    ensures Split(s, sep) == [s] <==> sep !in s
  {
    if sep !in s {
      SplitPrefix(s, "", sep);
      assert s + "" == s;
    } else if Split(s, sep) == [s] {
      assert Split(s, sep)[0] == s;
    }
  }

  /** The second piece of a split is the text between the first and the
      second separator. */
  lemma {:induction false} SplitSecond(s: string, sep: char)
    requires sep in s
    ensures |Split(s, sep)| >= 2
    ensures Split(s, sep)[1] == Before(After(s, sep), sep)
  {
    var rest := Split(s[1..], sep);
    if s[0] == sep {
      SplitHead(s[1..], sep);
      assert Before(s, sep) == [];
      assert After(s, sep) == s[1..];
    } else {
      assert sep in s[1..];
      SplitSecond(s[1..], sep);
      assert Before(s, sep) == [s[0]] + Before(s[1..], sep);
      assert After(s, sep) == After(s[1..], sep);
    }
  }

  /** `s` holds two separators side by side. */
  predicate Doubled(s: string, sep: char)
  {
    exists i :: 0 <= i < |s| - 1 && s[i] == sep && s[i + 1] == sep
  }

  /** The shapes of string whose split holds an empty piece: the empty
      string, a leading or a trailing separator, or a doubled one. */
  predicate HasBlankPiece(s: string, sep: char)
  {
    s == [] || s[0] == sep || s[|s| - 1] == sep || Doubled(s, sep)
  }

  lemma DoubledShift(s: string, sep: char)
    requires |s| >= 1
    ensures Doubled(s, sep) <==> (|s| >= 2 && s[0] == sep && s[1] == sep) || Doubled(s[1..], sep)
  {
    if Doubled(s, sep) {
      var i :| 0 <= i < |s| - 1 && s[i] == sep && s[i + 1] == sep;
      if i > 0 {
        assert s[1..][i - 1] == sep && s[1..][i] == sep;
      }
    }
    if Doubled(s[1..], sep) {
      var j :| 0 <= j < |s[1..]| - 1 && s[1..][j] == sep && s[1..][j + 1] == sep;
      assert s[j + 1] == sep && s[j + 2] == sep;
    }
  }

  /** The pieces after the first are blank somewhere exactly when the text
      ends in a separator or doubles one. */
  lemma {:induction false} TailBlank(t: string, sep: char)
    ensures "" in Split(t, sep)[1..] <==> t != [] && (t[|t| - 1] == sep || Doubled(t, sep))
  {
    if t != [] {
      var rest := Split(t[1..], sep);
      TailBlank(t[1..], sep);
      DoubledShift(t, sep);
      SplitHead(t[1..], sep);
      assert rest == [rest[0]] + rest[1..];
      assert rest[0] == "" <==> t[1..] == [] || t[1] == sep;
      if t[0] == sep {
        assert Split(t, sep)[1..] == rest;
      } else {
        assert Split(t, sep)[1..] == rest[1..];
      }
    }
  }

  /** A split yields an empty piece exactly for the shapes of HasBlankPiece. */
  lemma BlankPieceExactly(s: string, sep: char)
    ensures "" in Split(s, sep) <==> HasBlankPiece(s, sep)
  {
    var parts := Split(s, sep);
    TailBlank(s, sep);
    SplitHead(s, sep);
    assert parts == [parts[0]] + parts[1..];
  }

  /** Python's `<=` on `str`: code-point-wise lexicographic, a prefix first. */
  predicate LexLe(a: string, b: string)
    ensures a <= b ==> LexLe(a, b)
  {
    a == [] || (b != [] && (a[0] < b[0] || (a[0] == b[0] && LexLe(a[1..], b[1..]))))
  }

  lemma {:induction false} LexLeReflexive(a: string)
    ensures LexLe(a, a)
  {
    if a != [] {
      LexLeReflexive(a[1..]);
    }
  }

  lemma {:induction false} LexLeTotal(a: string, b: string)
    ensures LexLe(a, b) || LexLe(b, a)
  {
    if a != [] && b != [] && a[0] == b[0] {
      LexLeTotal(a[1..], b[1..]);
    }
  }

  lemma {:induction false} LexLeTransitive(a: string, b: string, c: string)
    requires LexLe(a, b) && LexLe(b, c)
    ensures LexLe(a, c)
  {
    if a != [] && b != [] && c != [] && a[0] == b[0] && b[0] == c[0] {
      LexLeTransitive(a[1..], b[1..], c[1..]);
    }
  }

  /** Two names each ordered before the other are equal. */
  lemma {:induction false} LexLeAntisymmetric(a: string, b: string)
    requires LexLe(a, b) && LexLe(b, a)
    ensures a == b
  {
    if a != [] && b != [] {
      LexLeAntisymmetric(a[1..], b[1..]);
      assert a == [a[0]] + a[1..] && b == [b[0]] + b[1..];
    }
  }
}
