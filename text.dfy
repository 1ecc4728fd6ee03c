/** The handful of Python string operations the record store is built from:
    `startswith`, `in`, `split`, `join`, `str(int)` and `int(str)`.
    Strings are sequences of Unicode scalar values, so `|s|` is Python's `len(s)`. */
module Text {
  import opened Wrappers

  /** Python's `s.startswith(p)`. */
  predicate StartsWith(s: string, p: string) {
    |p| <= |s| && s[..|p|] == p
  }

  /** Python's `sub in s`. */
  predicate Contains(s: string, sub: string)
    decreases |s|
  {
    StartsWith(s, sub) || (|s| > 0 && Contains(s[1..], sub))
  }

  /** Python's `s.split(c)` for a one-character separator: every piece is
      free of `c`, and there is always at least one piece. */
  function Split(s: string, c: char): (r: seq<string>)
    decreases |s|
    ensures |r| >= 1
    ensures forall k :: 0 <= k < |r| ==> c !in r[k]
  {
    if |s| == 0 then [""]
    else
      var rest := Split(s[1..], c);
      if s[0] == c then [""] + rest
      else [[s[0]] + rest[0]] + rest[1..]
  }

  /** Python's `c.join(lines)`. */
  function Join(lines: seq<string>, c: char): string
    decreases |lines|
  {
    if |lines| == 0 then ""
    else if |lines| == 1 then lines[0]
    else lines[0] + [c] + Join(lines[1..], c)
  }

  /** Python's `s.split(c)[k]`, or `None` where Python raises `IndexError`. */
  function Field(s: string, c: char, k: nat): Option<string> {
    var parts := Split(s, c);
    if k < |parts| then Some(parts[k]) else None
  }

  predicate IsDigit(ch: char) {
    '0' <= ch <= '9'
  }

  predicate AllDigits(s: string) {
    forall i :: 0 <= i < |s| ==> IsDigit(s[i])
  }

  function DigitChar(d: nat): (ch: char)
    requires d < 10
    ensures IsDigit(ch) && ch as int - '0' as int == d
  {
    (('0' as int) + d) as char
  }

  /** The value of a run of decimal digits, most significant first. */
  function DigitsValue(s: string): nat
    requires AllDigits(s)
    decreases |s|
  {
    if |s| == 0 then 0
    else 10 * DigitsValue(s[..|s| - 1]) + (s[|s| - 1] as int - '0' as int)
  }

  /** Python's `str(n)` for a natural number. */
  function NatToString(n: nat): (r: string)
    ensures |r| > 0 && AllDigits(r) && DigitsValue(r) == n
    ensures n > 0 ==> r[0] != '0'
  {
    if n < 10 then [DigitChar(n)]
    else
      var r := NatToString(n / 10) + [DigitChar(n % 10)];
      assert r[..|r| - 1] == NatToString(n / 10);
      r
  }

  /** Python's `str(n)` (and an f-string `{n}`) for an integer. */
  function IntToString(n: int): (r: string)
    ensures forall i :: 0 <= i < |r| ==> IsDigit(r[i]) || r[i] == '-'
  {
    if n < 0 then "-" + NatToString(-n) else NatToString(n)
  }

  /** Python's `int(s)` restricted to an optional sign and ASCII digits;
      `None` where Python raises `ValueError`. */
  function ParseInt(s: string): Option<int> {
    if |s| > 0 && (s[0] == '-' || s[0] == '+') then
      if |s| > 1 && AllDigits(s[1..]) then
        var v: int := DigitsValue(s[1..]);
        Some(if s[0] == '-' then -v else v)
      else None
    else if |s| > 0 && AllDigits(s) then Some(DigitsValue(s))
    else None
  }

  // ---------------------------------------------------------------------------
  // Lemmas

  /** `int(str(n)) == n`. */
  lemma ParseIntOfIntToString(n: int)
    ensures ParseInt(IntToString(n)) == Some(n)
  {
    if n < 0 {
      var d := NatToString(-n);
      assert IntToString(n)[1..] == d;
    }
  }

  /** A prefix is found at any offset where it starts. */
  lemma {:induction false} ContainsAt(s: string, i: nat, sub: string)
    requires i <= |s| && StartsWith(s[i..], sub)
    ensures Contains(s, sub)
    decreases i
  {
    if i > 0 {
      assert s[1..][i - 1..] == s[i..];
      ContainsAt(s[1..], i - 1, sub);
    } else {
      assert s[0..] == s;
    }
  }

  /** A text contains its own prefix. */
  lemma ContainsPrefix(a: string, b: string)
    ensures Contains(a + b, a)
  {
    StartsWithConcat(a, b);
    assert (a + b)[0..] == a + b;
    ContainsAt(a + b, 0, a);
  }

  lemma StartsWithPrefixOfPrefix(s: string, a: string, b: string)
    requires StartsWith(s, a + b)
    ensures StartsWith(s, a)
  {
    assert s[..|a|] == (a + b)[..|a|];
  }

  lemma StartsWithConcat(a: string, b: string)
    ensures StartsWith(a + b, a)
  {
    assert (a + b)[..|a|] == a;
  }

  /** Splitting text with no separator yields the text itself. */
  lemma {:induction false} SplitNoSeparator(s: string, c: char)
    requires c !in s
    ensures Split(s, c) == [s]
    decreases |s|
  {
    if |s| > 0 {
      assert c !in s[1..] && s[0] != c;
      SplitNoSeparator(s[1..], c);
      assert [s[0]] + s[1..] == s;
    }
  }

  /** A separator-free prefix followed by a separator splits off as one piece. */
  lemma {:induction false} SplitAfterPiece(a: string, c: char, t: string)
    requires c !in a
    ensures Split(a + [c] + t, c) == [a] + Split(t, c)
    decreases |a|
  {
    var s := a + [c] + t;
    if |a| == 0 {
      assert s[0] == c && s[1..] == t;
    } else {
      assert s[0] == a[0] && s[1..] == a[1..] + [c] + t;
      assert c !in a[1..];
      SplitAfterPiece(a[1..], c, t);
      assert [a[0]] + a[1..] == a;
    }
  }

  /** Three separator-free pieces joined by the separator split back into
      those three pieces. */
  lemma SplitThree(a: string, b: string, d: string, c: char)
    requires c !in a && c !in b && c !in d
    ensures Split(a + ([c] + (b + ([c] + d))), c) == [a, b, d]
  {
    var t := b + ([c] + d);
    assert t == b + [c] + d;
    assert a + ([c] + t) == a + [c] + t;
    SplitAfterPiece(a, c, t);
    SplitAfterPiece(b, c, d);
    SplitNoSeparator(d, c);
  }

  lemma JoinCons(lines: seq<string>, c: char)
    requires |lines| >= 2
    ensures Join(lines, c) == lines[0] + [c] + Join(lines[1..], c)
  {
  }

  /** `c.join(s.split(c)) == s`. */
  lemma {:induction false} JoinOfSplit(s: string, c: char)
    ensures Join(Split(s, c), c) == s
    decreases |s|
  {
    if |s| > 0 {
      var rest := Split(s[1..], c);
      JoinOfSplit(s[1..], c);
      if s[0] == c {
        assert Join([""] + rest, c) == "" + [c] + Join(rest, c) by {
          assert ([""] + rest)[1..] == rest;
        }
      } else {
        var r := [[s[0]] + rest[0]] + rest[1..];
        if |rest| == 1 {
          assert Join(r, c) == [s[0]] + rest[0];
        } else {
          assert r[1..] == rest[1..];
          JoinCons(rest, c);
          assert Join(r, c) == [s[0]] + rest[0] + [c] + Join(rest[1..], c);
        }
      }
    }
  }

  /** `c.join(lines).split(c) == lines` when no line contains `c`. */
  lemma {:induction false} SplitOfJoin(lines: seq<string>, c: char)
    requires |lines| >= 1
    requires forall k :: 0 <= k < |lines| ==> c !in lines[k]
    ensures Split(Join(lines, c), c) == lines
    decreases |lines|
  {
    if |lines| == 1 {
      SplitNoSeparator(lines[0], c);
    } else {
      SplitOfJoin(lines[1..], c);
      SplitAfterPiece(lines[0], c, Join(lines[1..], c));
      assert [lines[0]] + lines[1..] == lines;
    }
  }

  /** The second colon-separated field of `tag + v`, where `tag` ends in its only colon. */
  lemma FieldAfterTag(tag: string, v: string)
    requires |tag| > 0 && tag[|tag| - 1] == ':' && ':' !in tag[..|tag| - 1]
    requires ':' !in v
    ensures Field(tag + v, ':', 1) == Some(v)
  {
    var w := tag[..|tag| - 1];
    assert tag + v == w + [':'] + v;
    SplitAfterPiece(w, ':', v);
    SplitNoSeparator(v, ':');
  }

  /** The decimal rendering of an integer holds no separator the grammar uses. */
  lemma IntToStringHasNo(n: int, c: char)
    requires !IsDigit(c) && c != '-'
    ensures c !in IntToString(n)
  {
  }

  /** A text holding the separator splits into at least two pieces. */
  lemma {:induction false} SplitHasTwo(s: string, c: char)
    requires c in s
    ensures |Split(s, c)| >= 2
    decreases |s|
  {
    if s[0] != c {
      assert c in s[1..];
      SplitHasTwo(s[1..], c);
    }
  }

  /** The first piece of a split keeps a separator-free prefix of the text. */
  lemma {:induction false} SplitKeepsPrefix(s: string, p: string, c: char)
    requires StartsWith(s, p) && c !in p
    ensures StartsWith(Split(s, c)[0], p)
    decreases |p|
  {
    if |p| > 0 {
      assert s[0] == p[0] && StartsWith(s[1..], p[1..]) by {
        assert s[1..][..|p| - 1] == s[..|p|][1..];
      }
      SplitKeepsPrefix(s[1..], p[1..], c);
      var rest := Split(s[1..], c);
      assert Split(s, c)[0] == [s[0]] + rest[0];
      assert ([s[0]] + rest[0])[..|p|] == [p[0]] + rest[0][..|p| - 1];
      assert [p[0]] + p[1..] == p;
    }
  }

  /** Joining two non-empty runs of lines puts one separator between them. */
  lemma {:induction false} JoinAppend(a: seq<string>, b: seq<string>, c: char)
    requires |a| >= 1 && |b| >= 1
    ensures Join(a + b, c) == Join(a, c) + [c] + Join(b, c)
    decreases |a|
  {
    if |a| == 1 {
      assert (a + b)[1..] == b;
    } else {
      assert (a + b)[1..] == a[1..] + b;
      JoinAppend(a[1..], b, c);
    }
  }

  /** Inserting one element that itself holds several joined lines is the
      same, once joined, as inserting those lines. */
  lemma JoinSplice(a: seq<string>, b: seq<string>, rest: seq<string>, c: char)
    requires |b| >= 1
    ensures Join(a + [Join(b, c)] + rest, c) == Join(a + b + rest, c)
  {
    if |a| == 0 {
      assert a + [Join(b, c)] + rest == [Join(b, c)] + rest;
      assert a + b + rest == b + rest;
      if |rest| > 0 {
        JoinAppend([Join(b, c)], rest, c);
        JoinAppend(b, rest, c);
      } else {
        assert [Join(b, c)] + rest == [Join(b, c)];
        assert b + rest == b;
      }
    } else {
      if |rest| == 0 {
        assert a + [Join(b, c)] + rest == a + [Join(b, c)];
        assert a + b + rest == a + b;
        JoinAppend(a, [Join(b, c)], c);
        JoinAppend(a, b, c);
      } else {
        assert a + [Join(b, c)] + rest == a + ([Join(b, c)] + rest);
        assert a + b + rest == a + (b + rest);
        JoinAppend(a, [Join(b, c)] + rest, c);
        JoinAppend([Join(b, c)], rest, c);
        JoinAppend(a, b + rest, c);
        JoinAppend(b, rest, c);
      }
    }
  }

  /** A line that starts with `p` makes the joined text contain `p`. */
  lemma ContainsLine(lines: seq<string>, k: nat, p: string, c: char)
    requires k < |lines| && StartsWith(lines[k], p)
    ensures Contains(Join(lines, c), p)
  {
    var tail := lines[k..];
    assert StartsWith(Join(tail, c), p) by {
      if |tail| >= 2 {
        JoinCons(tail, c);
        assert Join(tail, c)[..|p|] == lines[k][..|p|];
      }
    }
    if k == 0 {
      assert tail == lines;
      ContainsAt(Join(lines, c), 0, p);
    } else {
      assert lines == lines[..k] + tail;
      JoinAppend(lines[..k], tail, c);
      var pre := Join(lines[..k], c) + [c];
      assert Join(lines, c)[|pre|..] == Join(tail, c);
      ContainsAt(Join(lines, c), |pre|, p);
    }
  }
}
