/**
 * The string primitives both the server and the dashboard rely on:
 * `trim`, `toLowerCase`, `startsWith`, `includes` and `replace(/\s+/g, ...)`.
 * Characters are restricted to ASCII: whitespace is the six ASCII
 * whitespace characters, and only 'A'..'Z' change case.
 */
module Text {

  /** A character that `String.prototype.trim` strips and `\s` matches (ASCII part). */
  predicate IsSpace(c: char) {
    c == ' ' || c == '\t' || c == '\n' || c == '\r' || c == '\U{0B}' || c == '\U{0C}'
  }

  predicate IsUpper(c: char) {
    'A' <= c <= 'Z'
  }

  function LowerChar(c: char): (r: char)
    ensures !IsUpper(r)
    ensures IsUpper(c) ==> r as int == c as int + 32
    ensures !IsUpper(c) ==> r == c
    ensures IsSpace(r) == IsSpace(c)
  {
    if IsUpper(c) then (c as int + 32) as char else c
  }

  /** `s.toLowerCase()`: every upper-case letter mapped to lower case, nothing else touched. */
  function ToLower(s: string): (r: string)
    ensures |r| == |s|
    ensures forall k :: 0 <= k < |r| ==> !IsUpper(r[k])
    ensures forall k :: 0 <= k < |s| ==>
      (IsUpper(s[k]) ==> r[k] as int == s[k] as int + 32) && (!IsUpper(s[k]) ==> r[k] == s[k])
  {
    seq(|s|, k requires 0 <= k < |s| => LowerChar(s[k]))
  }

  /** Drops the leading run of whitespace: what is left is a suffix of `s`. */
  function TrimStart(s: string): (r: string)
    ensures |r| <= |s| && r == s[|s| - |r|..]
    ensures forall k :: 0 <= k < |s| - |r| ==> IsSpace(s[k])
    ensures r != [] ==> !IsSpace(r[0])
    decreases |s|
  {
    if s != [] && IsSpace(s[0]) then TrimStart(s[1..]) else s
  }

  /** Drops the trailing run of whitespace: what is left is a prefix of `s`. */
  function TrimEnd(s: string): (r: string)
    ensures |r| <= |s| && r == s[..|r|]
    ensures forall k :: |r| <= k < |s| ==> IsSpace(s[k])
    ensures r != [] ==> !IsSpace(r[|r| - 1])
    decreases |s|
  {
    if s != [] && IsSpace(s[|s| - 1]) then TrimEnd(s[..|s| - 1]) else s
  }

  /** `r` is the slice `s[i..j]`, and everything cut off in front of it and
      behind it is whitespace. */
  predicate SpaceCut(s: string, r: string, i: int, j: int) {
    && 0 <= i <= j <= |s| && r == s[i..j]
    && (forall k :: 0 <= k < i ==> IsSpace(s[k]))
    && (forall k :: j <= k < |s| ==> IsSpace(s[k]))
  }

  /** `s.trim()`: a slice of `s` with only whitespace cut off either end. */
  function Trim(s: string): (r: string)
    ensures |r| <= |s|
    ensures r != [] ==> !IsSpace(r[0]) && !IsSpace(r[|r| - 1])
    ensures exists i, j :: SpaceCut(s, r, i, j)
  {
    SuffixThenPrefix(s, TrimStart(s), TrimEnd(TrimStart(s)));
    TrimEnd(TrimStart(s))
  }

  /** A whitespace-cut suffix of `s`, then a whitespace-cut prefix of that,
      is one slice of `s` with only whitespace cut off either end. */
  lemma SuffixThenPrefix(s: string, t: string, r: string)
    requires |t| <= |s| && t == s[|s| - |t|..]
    requires forall k :: 0 <= k < |s| - |t| ==> IsSpace(s[k])
    requires |r| <= |t| && r == t[..|r|]
    requires forall k :: |r| <= k < |t| ==> IsSpace(t[k])
    ensures SpaceCut(s, r, |s| - |t|, |s| - |t| + |r|)
  {
    var i := |s| - |t|;
    forall k | i + |r| <= k < |s| ensures IsSpace(s[k]) {
      assert s[k] == t[k - i];
    }
  }

  /** A string of whitespace only trims to the empty string. */
  lemma TrimBlank(s: string)
    requires forall k :: 0 <= k < |s| ==> IsSpace(s[k])
    ensures Trim(s) == ""
  {
  }

  /** No upper-case letter anywhere and no whitespace at either end: the
      form both normalisations produce. */
  predicate Canonical(s: string) {
    && (forall k :: 0 <= k < |s| ==> !IsUpper(s[k]))
    && (s != [] ==> !IsSpace(s[0]) && !IsSpace(s[|s| - 1]))
  }

  /** `s.startsWith(prefix)`. */
  predicate StartsWith(s: string, prefix: string) {
    |prefix| <= |s| && s[..|prefix|] == prefix
  }

  /** `s.includes(sub)`, scanning the start positions left to right. */
  predicate Includes(s: string, sub: string)
    ensures sub == [] ==> Includes(s, sub)
    ensures Includes(s, sub) ==> |sub| <= |s|
    decreases |s|
  {
    StartsWith(s, sub) || (s != [] && Includes(s[1..], sub))
  }

  /** `s.replace(/\s+/g, "-")`: every maximal run of whitespace becomes one dash. */
  function DashSpaceRuns(s: string): (r: string)
    ensures |r| <= |s|
    decreases |s|
  {
    if s == [] then []
    else if IsSpace(s[0]) then "-" + DashSpaceRuns(TrimStart(s))
    else [s[0]] + DashSpaceRuns(s[1..])
  }

  // ---------------------------------------------------------------------
  // Properties
  // ---------------------------------------------------------------------

  lemma ToLowerIdempotent(s: string)
    ensures ToLower(ToLower(s)) == ToLower(s)
  {
  }

  /** A string without upper-case letters is its own lower case. */
  lemma ToLowerNoUpper(s: string)
    requires forall k :: 0 <= k < |s| ==> !IsUpper(s[k])
    ensures ToLower(s) == s
  {
  }

  /** Lower-casing a prefix is taking the prefix of the lower-cased string. */
  lemma ToLowerTake(s: string, n: int)
    requires 0 <= n <= |s|
    ensures ToLower(s)[..n] == ToLower(s[..n])
  {
  }

  /** Lower-casing a suffix is dropping the front of the lower-cased string. */
  lemma ToLowerDrop(s: string, n: int)
    requires 0 <= n <= |s|
    ensures ToLower(s)[n..] == ToLower(s[n..])
  {
  }

  /** A slice of a string without upper-case letters has none. */
  lemma SliceKeepsNoUpper(s: string, i: int, j: int)
    requires 0 <= i <= j <= |s|
    requires forall k :: 0 <= k < |s| ==> !IsUpper(s[k])
    ensures forall k :: 0 <= k < j - i ==> !IsUpper(s[i..j][k])
  {
    forall k | 0 <= k < j - i ensures !IsUpper(s[i..j][k]) {
      assert s[i..j][k] == s[i + k];
    }
  }

  /** Trimming a string without upper-case letters leaves none. */
  lemma TrimKeepsNoUpper(s: string)
    requires forall k :: 0 <= k < |s| ==> !IsUpper(s[k])
    ensures forall k :: 0 <= k < |Trim(s)| ==> !IsUpper(Trim(s)[k])
  {
    var t := TrimStart(s);
    SliceKeepsNoUpper(s, |s| - |t|, |s|);
    SliceKeepsNoUpper(t, 0, |TrimEnd(t)|);
  }

  /** Trimming a string with no whitespace at either end gives it back. */
  lemma {:induction false} TrimFixedPoint(s: string)
    requires s != [] ==> !IsSpace(s[0]) && !IsSpace(s[|s| - 1])
    ensures Trim(s) == s
  {
  }

  lemma TrimIdempotent(s: string)
    ensures Trim(Trim(s)) == Trim(s)
  {
    TrimFixedPoint(Trim(s));
  }

  lemma {:induction false} TrimStartLower(s: string)
    ensures TrimStart(ToLower(s)) == ToLower(TrimStart(s))
    decreases |s|
  {
    if s != [] && IsSpace(s[0]) {
      ToLowerDrop(s, 1);
      TrimStartLower(s[1..]);
    }
  }

  lemma {:induction false} TrimEndLower(s: string)
    ensures TrimEnd(ToLower(s)) == ToLower(TrimEnd(s))
    decreases |s|
  {
    if s != [] && IsSpace(s[|s| - 1]) {
      ToLowerTake(s, |s| - 1);
      TrimEndLower(s[..|s| - 1]);
    }
  }

  /** Trimming and lower-casing commute, so `trim().toLowerCase()` and
      `toLowerCase().trim()` are the same normalisation. */
  lemma TrimLowerCommute(s: string)
    ensures ToLower(Trim(s)) == Trim(ToLower(s))
  {
    TrimStartLower(s);
    TrimEndLower(TrimStart(s));
  }

  /** `sub` occurs in `s` starting at position `i`. */
  predicate OccursAt(s: string, sub: string, i: int) {
    0 <= i <= |s| - |sub| && s[i..i + |sub|] == sub
  }

  /** `includes` holds exactly when `sub` occurs at some position of `s`. */
  lemma {:induction false} IncludesIff(s: string, sub: string)
    ensures Includes(s, sub) <==> exists i :: OccursAt(s, sub, i)
    decreases |s|
  {
    if StartsWith(s, sub) {
      assert OccursAt(s, sub, 0);
    } else if s != [] {
      IncludesIff(s[1..], sub);
      if Includes(s[1..], sub) {
        var i :| OccursAt(s[1..], sub, i);
        assert OccursAt(s, sub, i + 1);
      }
      if exists i :: OccursAt(s, sub, i) {
        var i :| OccursAt(s, sub, i);
        assert i != 0;
        assert OccursAt(s[1..], sub, i - 1);
      }
    }
  }


  /** A string without whitespace passes through the dash replacement unchanged. */
  lemma {:induction false} DashSpaceRunsNoSpace(s: string)
    requires forall k :: 0 <= k < |s| ==> !IsSpace(s[k])
    ensures DashSpaceRuns(s) == s
    decreases |s|
  {
    if s != [] {
      DashSpaceRunsNoSpace(s[1..]);
    }
  }

  /** A whitespace run is all `TrimStart` removes in front of a string that
      starts with a non-space. */
  lemma {:induction false} TrimStartRun(w: string, b: string)
    requires forall k :: 0 <= k < |w| ==> IsSpace(w[k])
    requires b == [] || !IsSpace(b[0])
    ensures TrimStart(w + b) == b
    decreases |w|
  {
    if w == [] {
      assert w + b == b;
    } else {
      assert (w + b)[0] == w[0];
      assert (w + b)[1..] == w[1..] + b;
      TrimStartRun(w[1..], b);
    }
  }

  /** The dash replacement leaves no whitespace. */
  lemma {:induction false} DashSpaceRunsLeavesNoSpace(s: string)
    ensures forall k :: 0 <= k < |DashSpaceRuns(s)| ==> !IsSpace(DashSpaceRuns(s)[k])
    decreases |s|
  {
    if s == [] {
    } else if IsSpace(s[0]) {
      DashSpaceRunsLeavesNoSpace(TrimStart(s));
    } else {
      DashSpaceRunsLeavesNoSpace(s[1..]);
    }
  }

  /** Concatenation is associative. */
  lemma AppendAssoc(a: string, b: string, c: string)
    ensures a + (b + c) == a + b + c
  {
  }

  /** A whitespace-free word in front passes through the dash replacement unchanged. */
  lemma {:induction false} DashSpaceRunsWord(a: string, t: string)
    requires forall k :: 0 <= k < |a| ==> !IsSpace(a[k])
    ensures DashSpaceRuns(a + t) == a + DashSpaceRuns(t)
    decreases |a|
  {
    if a == [] {
      assert a + t == t;
    } else {
      assert DashSpaceRuns(a + t) == [a[0]] + DashSpaceRuns(a[1..] + t) by {
        assert (a + t)[0] == a[0];
        assert (a + t)[1..] == a[1..] + t;
      }
      DashSpaceRunsWord(a[1..], t);
      AppendAssoc([a[0]], a[1..], DashSpaceRuns(t));
      assert [a[0]] + a[1..] == a;
    }
  }

  /** A leading whitespace run, however long, becomes one dash. */
  lemma DashSpaceRunsLeading(w: string, b: string)
    requires w != [] && forall k :: 0 <= k < |w| ==> IsSpace(w[k])
    requires b == [] || !IsSpace(b[0])
    ensures DashSpaceRuns(w + b) == "-" + DashSpaceRuns(b)
  {
    assert (w + b)[0] == w[0];
    TrimStartRun(w, b);
  }

  /** A run of whitespace, however long, becomes one dash, and the word in
      front of it is kept as it is. */
  lemma DashSpaceRunsRun(a: string, w: string, b: string)
    requires forall k :: 0 <= k < |a| ==> !IsSpace(a[k])
    requires w != [] && forall k :: 0 <= k < |w| ==> IsSpace(w[k])
    requires b == [] || !IsSpace(b[0])
    ensures DashSpaceRuns(a + w + b) == a + "-" + DashSpaceRuns(b)
  {
    DashSpaceRunsLeading(w, b);
    DashSpaceRunsWord(a, w + b);
    AppendAssoc(a, w, b);
    AppendAssoc(a, "-", DashSpaceRuns(b));
  }

  /** Trimming and dashing two words around a whitespace run joins them with one dash. */
  lemma DashTrimRun(a: string, w: string, b: string)
    requires a != [] && forall k :: 0 <= k < |a| ==> !IsSpace(a[k])
    requires w != [] && forall k :: 0 <= k < |w| ==> IsSpace(w[k])
    requires b != [] && forall k :: 0 <= k < |b| ==> !IsSpace(b[k])
    ensures DashSpaceRuns(Trim(a + w + b)) == a + "-" + b
  {
    var s := a + w + b;
    assert s[0] == a[0] && s[|s| - 1] == b[|b| - 1];
    TrimFixedPoint(s);
    DashSpaceRunsRun(a, w, b);
    DashSpaceRunsNoSpace(b);
  }

  /** Lower-casing two words around a whitespace run keeps the three parts
      apart: the words stay free of whitespace and the run stays whitespace. */
  lemma LowerRun(x: string, w: string, y: string)
    requires x != [] && forall k :: 0 <= k < |x| ==> !IsSpace(x[k])
    requires w != [] && forall k :: 0 <= k < |w| ==> IsSpace(w[k])
    requires y != [] && forall k :: 0 <= k < |y| ==> !IsSpace(y[k])
    ensures ToLower(x + w + y) == ToLower(x) + ToLower(w) + ToLower(y)
    ensures forall k :: 0 <= k < |x| ==> !IsSpace(ToLower(x)[k])
    ensures forall k :: 0 <= k < |w| ==> IsSpace(ToLower(w)[k])
    ensures forall k :: 0 <= k < |y| ==> !IsSpace(ToLower(y)[k])
  {
    ToLowerAppend(x, w);
    ToLowerAppend(x + w, y);
  }

  /** Lower-casing works character by character, so it distributes over concatenation. */
  lemma ToLowerAppend(x: string, y: string)
    ensures ToLower(x + y) == ToLower(x) + ToLower(y)
  {
  }

  /** Lower-casing never introduces or removes whitespace. */
  lemma ToLowerKeepsSpaces(s: string, k: int)
    requires 0 <= k < |s|
    ensures IsSpace(ToLower(s)[k]) == IsSpace(s[k])
  {
  }
}
