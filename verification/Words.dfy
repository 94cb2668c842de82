/** Strings cut into words at a separator. */
module Words {

  function Split(s: string, sep: char): (ws: seq<string>)
    ensures |ws| >= 1
  {
    if s == "" then [""]
    else
      var rest := Split(s[1..], sep);
      if s[0] == sep then [""] + rest else [[s[0]] + rest[0]] + rest[1..]
  }

  function Join(ws: seq<string>, sep: char): string
    requires |ws| >= 1
  {
    if |ws| == 1 then ws[0] else ws[0] + [sep] + Join(ws[1..], sep)
  }

  /** Splitting loses nothing. */
  lemma {:induction false} JoinOfSplit(s: string, sep: char)
    ensures Join(Split(s, sep), sep) == s
  {
    if s != "" {
      var rest := Split(s[1..], sep);
      JoinOfSplit(s[1..], sep);
      if s[0] == sep {
        assert ([""] + rest)[1..] == rest;
        assert "" + [sep] + Join(rest, sep) == [s[0]] + s[1..];
      } else {
        var ws := [[s[0]] + rest[0]] + rest[1..];
        assert ws[1..] == rest[1..];
        assert Join(ws, sep) == [s[0]] + Join(rest, sep);
      }
    }
  }

  /** A separator in between separates the words. */
  lemma {:induction false} SplitOfConcat(a: string, b: string, sep: char)
    ensures Split(a + [sep] + b, sep) == Split(a, sep) + Split(b, sep)
  {
    var s := a + [sep] + b;
    if a == "" {
      assert s[1..] == b;
    } else {
      assert s[1..] == a[1..] + [sep] + b;
      SplitOfConcat(a[1..], b, sep);
    }
  }

  lemma {:induction false} SplitOfOneWord(s: string, sep: char)
    requires sep !in s
    ensures Split(s, sep) == [s]
  {
    if s != "" {
      assert s[0] in s;
      SplitOfOneWord(s[1..], sep);
      assert [s[0]] + s[1..] == s;
    }
  }

  lemma {:induction false} WordsHaveNoSeparator(s: string, sep: char)
    ensures forall i :: 0 <= i < |Split(s, sep)| ==> sep !in Split(s, sep)[i]
  {
    if s != "" {
      WordsHaveNoSeparator(s[1..], sep);
    }
  }

  lemma {:induction false} WordsAreNoLonger(s: string, sep: char)
    ensures forall i :: 0 <= i < |Split(s, sep)| ==> |Split(s, sep)[i]| <= |s|
  {
    if s != "" {
      WordsAreNoLonger(s[1..], sep);
    }
  }

  /** Words without separators come back as they were joined. */
  lemma {:induction false} SplitOfJoin(ws: seq<string>, sep: char)
    requires |ws| >= 1 && forall i :: 0 <= i < |ws| ==> sep !in ws[i]
    ensures Split(Join(ws, sep), sep) == ws
  {
    SplitOfOneWord(ws[0], sep);
    if |ws| > 1 {
      SplitOfJoin(ws[1..], sep);
      SplitOfConcat(ws[0], Join(ws[1..], sep), sep);
      assert [ws[0]] + ws[1..] == ws;
    }
  }

  // ---------- two parts and a separator ----------

  /** A part m, with its separator, has moved from the end of the first part to the front of the
      second one. */
  ghost predicate PartMoved(sep: char, i: string, c: string, j: string, d: string) {
    exists m: string :: i == j + [sep] + m && d == m + [sep] + c
  }

  lemma MovedIsSame(sep: char, i: string, c: string, j: string, d: string)
    requires PartMoved(sep, i, c, j, d)
    ensures i + [sep] + c == j + [sep] + d
  {
    var m :| i == j + [sep] + m && d == m + [sep] + c;
    assert (j + [sep] + m) + [sep] + c == j + [sep] + (m + [sep] + c);
  }

  lemma LongerFront(sep: char, i: string, c: string, j: string, d: string)
    requires |j| < |i| && i + [sep] + c == j + [sep] + d
    ensures PartMoved(sep, i, c, j, d)
  {
    var whole, m := i + [sep] + c, i[|j| + 1..];
    assert whole[..|j|] == j && whole[..|i|] == i;
    assert i[..|j|] == j && i[|j|] == whole[|j|] == sep;
    assert i == i[..|j|] + [i[|j|]] + m;
    assert whole[|j| + 1..] == d && whole[|j| + 1..] == m + [sep] + c;
    assert i == j + [sep] + m && d == m + [sep] + c;
  }

  lemma SameLengthFront(sep: char, i: string, c: string, j: string, d: string)
    requires |j| == |i| && i + [sep] + c == j + [sep] + d
    ensures i == j && c == d
  {
    var whole := i + [sep] + c;
    assert whole[..|i|] == i && whole[..|j|] == j && whole[|i| + 1..] == c && whole[|j| + 1..] == d;
  }

  /** Two joined pairs are the same string exactly if they are the same pair, or a part has moved
      across the separator, either way round. */
  lemma SameJoinIff(sep: char, i: string, c: string, j: string, d: string)
    ensures i + [sep] + c == j + [sep] + d
            <==> (i == j && c == d) || PartMoved(sep, i, c, j, d) || PartMoved(sep, j, d, i, c)
  {
    if PartMoved(sep, i, c, j, d) {
      MovedIsSame(sep, i, c, j, d);
    }
    if PartMoved(sep, j, d, i, c) {
      MovedIsSame(sep, j, d, i, c);
    }
    if i + [sep] + c == j + [sep] + d {
      if |i| > |j| {
        LongerFront(sep, i, c, j, d);
      } else if |i| < |j| {
        LongerFront(sep, j, d, i, c);
      } else {
        SameLengthFront(sep, i, c, j, d);
      }
    }
  }
}
