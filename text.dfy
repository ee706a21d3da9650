/**
 * The string operations the program relies on, restricted to ASCII:
 * `str.lower`, `str.strip`, `in` on strings, `str.split`, and the
 * code-point order that `sorted` uses on strings.
 */
module Text {

  /** `str.isspace()` on the ASCII code points: tab, line feed, vertical tab,
      form feed, carriage return, the four separators 0x1C-0x1F and space. */
  predicate IsSpace(c: char) {
    ('\t' <= c <= '\r') || ('\U{1C}' <= c <= ' ')
  }

  predicate IsUpper(c: char) {
    'A' <= c <= 'Z'
  }

  function LowerChar(c: char): (d: char)
    ensures !IsUpper(d)
    ensures IsSpace(d) <==> IsSpace(c)
    ensures !IsUpper(c) ==> d == c
  {
    if IsUpper(c) then (c as int + 32) as char else c
  }

  /** `s.lower()` for ASCII letters. */
  function Lower(s: string): (r: string)
    ensures |r| == |s|
    ensures forall i :: 0 <= i < |s| ==> r[i] == LowerChar(s[i])
  {
    if s == [] then [] else [LowerChar(s[0])] + Lower(s[1..])
  }

  lemma LowerAppend(a: string, b: string)
    ensures Lower(a + b) == Lower(a) + Lower(b)
  {
  }

  predicate NoUpper(s: string) {
    forall i :: 0 <= i < |s| ==> !IsUpper(s[i])
  }

  lemma LowerHasNoUpper(s: string)
    ensures NoUpper(Lower(s))
  {
  }

  lemma LowerOfNoUpper(s: string)
    requires NoUpper(s)
    ensures Lower(s) == s
  {
  }

  // ---------------------------------------------------------------------------
  // Substrings: Python's `p in s`

  predicate OccursAt(s: string, p: string, i: int) {
    0 <= i && i + |p| <= |s| && s[i..i + |p|] == p
  }

  /** `p in s` for strings. */
  predicate Contains(s: string, p: string)
    decreases |s|
  {
    p <= s || (s != [] && Contains(s[1..], p))
  }

  /** `Contains` finds exactly the positions where `p` occurs. */
  lemma {:induction false} ContainsIff(s: string, p: string)
    ensures Contains(s, p) <==> exists i :: OccursAt(s, p, i)
    decreases |s|
  {
    if Contains(s, p) {
      if p <= s {
        assert OccursAt(s, p, 0);
      } else {
        ContainsIff(s[1..], p);
        var j :| OccursAt(s[1..], p, j);
        assert s[1..][j..j + |p|] == s[j + 1..j + 1 + |p|];
        assert OccursAt(s, p, j + 1);
      }
    }
    if exists i :: OccursAt(s, p, i) {
      var i :| OccursAt(s, p, i);
      if i == 0 {
        assert s[..|p|] == p;
      } else {
        ContainsIff(s[1..], p);
        assert s[1..][i - 1..i - 1 + |p|] == s[i..i + |p|];
        assert OccursAt(s[1..], p, i - 1);
      }
    }
  }

  lemma ContainsWitness(s: string, p: string, i: int)
    requires OccursAt(s, p, i)
    ensures Contains(s, p)
  {
    ContainsIff(s, p);
  }

  /** An occurrence survives extending the string on either side. */
  lemma ContainsExtend(a: string, s: string, b: string, p: string)
    requires Contains(s, p)
    ensures Contains(a + s + b, p)
  {
    ContainsIff(s, p);
    var i :| OccursAt(s, p, i);
    assert (a + s + b)[|a| + i..|a| + i + |p|] == s[i..i + |p|];
    ContainsWitness(a + s + b, p, |a| + i);
  }

  /** A non-empty pattern can only occur in a string that holds its first character. */
  lemma ContainsFirstChar(s: string, p: string)
    requires p != [] && Contains(s, p)
    ensures p[0] in s
  {
    ContainsIff(s, p);
    var i :| OccursAt(s, p, i);
    assert s[i] == s[i..i + |p|][0];
  }

  // ---------------------------------------------------------------------------
  // `str.split(sep)` with a one-character separator, and its inverse `sep.join`

  /** `s.split(sep)`: the pieces between the separators, always at least one. */
  function Split(s: string, sep: char): (pieces: seq<string>)
    ensures |pieces| >= 1
    ensures forall k :: 0 <= k < |pieces| ==> sep !in pieces[k]
    decreases |s|
  {
    if s == [] then [""]
    else
      var rest := Split(s[1..], sep);
      if s[0] == sep then [""] + rest
      else [[s[0]] + rest[0]] + rest[1..]
  }

  /** `sep.join(pieces)`. */
  function Join(pieces: seq<string>, sep: char): string
    decreases |pieces|
  {
    if |pieces| == 0 then ""
    else if |pieces| == 1 then pieces[0]
    else pieces[0] + [sep] + Join(pieces[1..], sep)
  }

  /** Splitting loses nothing: joining the pieces gives the string back. */
  lemma {:induction false} JoinSplit(s: string, sep: char)
    ensures Join(Split(s, sep), sep) == s
    decreases |s|
  {
    if s != [] {
      var rest := Split(s[1..], sep);
      JoinSplit(s[1..], sep);
      if s[0] == sep {
        assert Split(s, sep) == [""] + rest;
        assert Join([""] + rest, sep) == "" + [sep] + Join(rest, sep);
      } else {
        var pieces := [[s[0]] + rest[0]] + rest[1..];
        if |rest| == 1 {
          assert Join(pieces, sep) == [s[0]] + rest[0];
        } else {
          assert pieces[1..] == rest[1..];
          assert Join(rest, sep) == rest[0] + [sep] + Join(rest[1..], sep);
          assert Join(pieces, sep) == [s[0]] + rest[0] + [sep] + Join(rest[1..], sep);
        }
      }
    }
  }

  /** A string without the separator splits into itself. */
  lemma {:induction false} SplitNoSep(a: string, sep: char)
    requires sep !in a
    ensures Split(a, sep) == [a]
    decreases |a|
  {
    if a != [] {
      SplitNoSep(a[1..], sep);
      assert [a[0]] + a[1..] == a;
    }
  }

  /** The first separator ends the first piece. */
  lemma {:induction false} SplitAtSep(a: string, sep: char, b: string)
    requires sep !in a
    ensures Split(a + [sep] + b, sep) == [a] + Split(b, sep)
    decreases |a|
  {
    if a == [] {
      assert a + [sep] + b == [sep] + b;
      assert ([sep] + b)[1..] == b;
    } else {
      SplitAtSep(a[1..], sep, b);
      assert (a + [sep] + b)[1..] == a[1..] + [sep] + b;
      assert [a[0]] + a[1..] == a;
    }
  }

  /** Splitting undoes joining pieces that do not hold the separator. */
  lemma {:induction false} SplitJoin(pieces: seq<string>, sep: char)
    requires |pieces| >= 1
    requires forall k :: 0 <= k < |pieces| ==> sep !in pieces[k]
    ensures Split(Join(pieces, sep), sep) == pieces
    decreases |pieces|
  {
    if |pieces| == 1 {
      SplitNoSep(pieces[0], sep);
    } else {
      SplitJoin(pieces[1..], sep);
      SplitAtSep(pieces[0], sep, Join(pieces[1..], sep));
      assert [pieces[0]] + pieces[1..] == pieces;
    }
  }

  /** The first piece of `s.split(sep)` is the prefix of `s` before its first separator. */
  lemma SplitFirstPiece(s: string, sep: char)
    ensures Split(s, sep)[0] <= s
    ensures sep !in Split(s, sep)[0]
    ensures |Split(s, sep)[0]| < |s| ==> s[|Split(s, sep)[0]|] == sep
  {
    var pieces := Split(s, sep);
    JoinSplit(s, sep);
    if |pieces| > 1 {
      assert s == pieces[0] + [sep] + Join(pieces[1..], sep);
    }
  }

  // ---------------------------------------------------------------------------
  // `str.strip()`

  predicate Stripped(s: string) {
    s == [] || (!IsSpace(s[0]) && !IsSpace(s[|s| - 1]))
  }

  /** `r` is the infix of `s` at `i` and everything around it is whitespace. */
  predicate StripsTo(s: string, r: string, i: int) {
    0 <= i && i + |r| <= |s| && r == s[i..i + |r|]
    && (forall k :: 0 <= k < i ==> IsSpace(s[k]))
    && (forall k :: i + |r| <= k < |s| ==> IsSpace(s[k]))
  }

  /** `s.strip()`: drop whitespace at both ends. */
  function Strip(s: string): (r: string)
    ensures Stripped(r)
    ensures |r| <= |s|
    decreases |s|
  {
    if s != [] && IsSpace(s[0]) then Strip(s[1..])
    else if s != [] && IsSpace(s[|s| - 1]) then Strip(s[..|s| - 1])
    else s
  }

  lemma StripsToFront(s: string, r: string, i: int)
    requires s != [] && IsSpace(s[0]) && StripsTo(s[1..], r, i)
    ensures StripsTo(s, r, i + 1)
  {
    assert s[i + 1..i + 1 + |r|] == s[1..][i..i + |r|];
    forall k | 0 <= k < i + 1 ensures IsSpace(s[k]) {
      if k > 0 {
        assert s[k] == s[1..][k - 1];
      }
    }
    forall k | i + 1 + |r| <= k < |s| ensures IsSpace(s[k]) {
      assert s[k] == s[1..][k - 1];
    }
  }

  lemma StripsToBack(s: string, r: string, i: int)
    requires s != [] && IsSpace(s[|s| - 1]) && StripsTo(s[..|s| - 1], r, i)
    ensures StripsTo(s, r, i)
  {
    var t := s[..|s| - 1];
    assert s[i..i + |r|] == t[i..i + |r|];
    forall k | 0 <= k < i ensures IsSpace(s[k]) {
      assert s[k] == t[k];
    }
    forall k | i + |r| <= k < |s| ensures IsSpace(s[k]) {
      if k < |t| {
        assert s[k] == t[k];
      }
    }
  }

  /** What `Strip` leaves is the infix of `s` with only whitespace around it. */
  lemma {:induction false} StripIsInfix(s: string)
    ensures exists i :: StripsTo(s, Strip(s), i)
    decreases |s|
  {
    var r := Strip(s);
    if s != [] && IsSpace(s[0]) {
      var t := s[1..];
      assert r == Strip(t);
      StripIsInfix(t);
      var i :| StripsTo(t, r, i);
      StripsToFront(s, r, i);
    } else if s != [] && IsSpace(s[|s| - 1]) {
      var t := s[..|s| - 1];
      assert r == Strip(t);
      StripIsInfix(t);
      var i :| StripsTo(t, r, i);
      StripsToBack(s, r, i);
    } else {
      assert StripsTo(s, s, 0);
    }
  }

  lemma StripOfStripped(s: string)
    requires Stripped(s)
    ensures Strip(s) == s
  {
  }

  lemma LowerKeepsStripped(s: string)
    requires Stripped(s)
    ensures Stripped(Lower(s))
  {
  }

  // ---------------------------------------------------------------------------
  // The order Python's `sorted` puts strings in: code point by code point,
  // a proper prefix first.

  predicate Below(a: string, b: string)
    decreases |a|
  {
    b != [] && (a == [] || a[0] < b[0] || (a[0] == b[0] && Below(a[1..], b[1..])))
  }

  lemma {:induction false} BelowAsymmetric(a: string, b: string)
    ensures !(Below(a, b) && Below(b, a))
    decreases |a|
  {
    if a != [] && b != [] && a[0] == b[0] {
      BelowAsymmetric(a[1..], b[1..]);
    }
  }

  lemma BelowIrreflexive(a: string)
    ensures !Below(a, a)
  {
    BelowAsymmetric(a, a);
  }

  lemma {:induction false} BelowTotal(a: string, b: string)
    ensures a == b || Below(a, b) || Below(b, a)
    decreases |a|
  {
    if a != [] && b != [] && a[0] == b[0] {
      BelowTotal(a[1..], b[1..]);
      if a[1..] == b[1..] {
        assert a == [a[0]] + a[1..] && b == [b[0]] + b[1..];
      }
    }
  }

  lemma {:induction false} BelowTransitive(a: string, b: string, c: string)
    requires Below(a, b) && Below(b, c)
    ensures Below(a, c)
    decreases |a|
  {
    if a != [] && a[0] == b[0] && b[0] == c[0] {
      BelowTransitive(a[1..], b[1..], c[1..]);
    }
  }

  /** Strictly increasing in that order: sorted, and so without duplicates. */
  predicate Increasing(s: seq<string>) {
    forall i, j :: 0 <= i < j < |s| ==> Below(s[i], s[j])
  }

  /** Inserts `x` into an increasing sequence unless it is already there. */
  function InsertSorted(x: string, s: seq<string>): (r: seq<string>)
    requires Increasing(s)
    ensures Increasing(r)
    ensures forall y :: y in r <==> y == x || y in s
    decreases |s|
  {
    if s == [] then [x]
    else if x == s[0] then s
    else if Below(x, s[0]) then
      assert forall j :: 0 < j < |s| ==> Below(x, s[j]) by {
        forall j | 0 < j < |s| { BelowTransitive(x, s[0], s[j]); }
      }
      [x] + s
    else
      BelowTotal(x, s[0]);
      var t := InsertSorted(x, s[1..]);
      assert forall y :: y in t ==> Below(s[0], y);
      [s[0]] + t
  }

  lemma HeadIsElement(b: seq<string>)
    ensures b == [] || b[0] in b
  {
  }

  /** An increasing sequence is determined by its elements: it is `sorted(set(...))`. */
  lemma {:induction false} IncreasingUnique(a: seq<string>, b: seq<string>)
    requires Increasing(a) && Increasing(b)
    requires forall y :: y in a <==> y in b
    ensures a == b
    decreases |a|
  {
    if a != [] {
      assert b != [] by { assert a[0] in b; }
      if a[0] != b[0] {
        assert b[0] in a;
        assert a[0] in b;
        var i :| 0 <= i < |a| && a[i] == b[0];
        var j :| 0 <= j < |b| && b[j] == a[0];
        assert i > 0 && j > 0;
        BelowAsymmetric(a[0], b[0]);
        assert false;
      }
      forall y ensures y in a[1..] <==> y in b[1..] {
        if y in a[1..] {
          var i :| 1 <= i < |a| && a[i] == y;
          BelowIrreflexive(y);
          assert y != a[0];
          assert y in b;
        }
        if y in b[1..] {
          var j :| 1 <= j < |b| && b[j] == y;
          BelowIrreflexive(y);
          assert y != b[0];
          assert y in a;
        }
      }
      IncreasingUnique(a[1..], b[1..]);
      assert a == [a[0]] + a[1..] && b == [b[0]] + b[1..];
    } else {
      HeadIsElement(b);
    }
  }
}
