/** String operations that the back-ends apply to generated code and model output:
    Python's str.strip, substring search, str.replace, str.startswith, splitlines and join. */
module TextOps {

  datatype Option<T> = None | Some(value: T)

  /** The ASCII characters that Python's str.strip() removes (str.isspace() is true of them). */
  predicate IsSpace(c: char) {
    c == ' ' || c == '\t' || c == '\n' || c == '\r' || c == '\U{000B}' || c == '\U{000C}'
    || c == '\U{001C}' || c == '\U{001D}' || c == '\U{001E}' || c == '\U{001F}'
  }

  ghost predicate AllSpace(s: string) {
    forall i :: 0 <= i < |s| ==> IsSpace(s[i])
  }

  lemma SpaceAt(s: string, k: int)
    requires AllSpace(s) && 0 <= k < |s|
    ensures IsSpace(s[k])
  {
  }

  function TrimStart(s: string): string {
    if |s| > 0 && IsSpace(s[0]) then TrimStart(s[1..]) else s
  }

  function TrimEnd(s: string): string {
    if |s| > 0 && IsSpace(s[|s| - 1]) then TrimEnd(s[..|s| - 1]) else s
  }

  /** Python's s.strip(): drop leading and trailing whitespace. */
  function Strip(s: string): string {
    TrimEnd(TrimStart(s))
  }

  lemma {:induction false} TrimStartShape(s: string)
    ensures var r := TrimStart(s);
      |r| <= |s| && r == s[|s| - |r|..] && AllSpace(s[..|s| - |r|]) && (r == [] || !IsSpace(r[0]))
  {
    if |s| > 0 && IsSpace(s[0]) {
      TrimStartShape(s[1..]);
      var r := TrimStart(s[1..]);
      assert s[1..][..|s| - 1 - |r|] == s[1..|s| - |r|];
      assert forall i :: 1 <= i < |s| - |r| ==> s[i] == s[1..][..|s| - 1 - |r|][i - 1];
    }
  }

  lemma {:induction false} TrimEndShape(s: string)
    ensures var r := TrimEnd(s);
      |r| <= |s| && r == s[..|r|] && AllSpace(s[|r|..]) && (r == [] || !IsSpace(r[|r| - 1]))
  {
    if |s| > 0 && IsSpace(s[|s| - 1]) {
      TrimEndShape(s[..|s| - 1]);
      var r := TrimEnd(s[..|s| - 1]);
      assert forall i :: |r| <= i < |s| - 1 ==> s[i] == s[..|s| - 1][|r|..][i - |r|];
    }
  }

  /** Strip removes exactly a run of whitespace from each end: what remains is a slice of
      the input that is empty or starts and ends with a non-space character. */
  lemma StripShape(s: string) returns (i: nat)
    ensures var r := Strip(s);
      i + |r| <= |s| && s[i..i + |r|] == r && AllSpace(s[..i]) && AllSpace(s[i + |r|..])
      && (r == [] || (!IsSpace(r[0]) && !IsSpace(r[|r| - 1])))
  {
    var t := TrimStart(s);
    TrimStartShape(s);
    TrimEndShape(t);
    var r := TrimEnd(t);
    i := |s| - |t|;
    assert s[i..i + |r|] == t[..|r|];
    assert forall k :: i + |r| <= k < |s| ==> s[k] == t[|r|..][k - i - |r|];
  }

  /** Strip yields "" exactly on whitespace-only text. */
  lemma StripEmptyIff(s: string)
    ensures Strip(s) == [] <==> AllSpace(s)
  {
    var i := StripShape(s);
    if Strip(s) == [] {
      assert s == s[..i] + s[i..];
    }
  }

  /** Text that begins and ends with a non-space character keeps that beginning, however
      much whitespace or text follows. */
  lemma {:induction false} StripKeepsPrefix(u: string, v: string)
    requires |u| > 0 && !IsSpace(u[0]) && !IsSpace(u[|u| - 1])
    ensures StartsWith(Strip(u + v), u)
  {
    var s := u + v;
    var i := StripShape(s);
    var r := Strip(s);
    assert !IsSpace(s[0]);
    assert i == 0;
    if |r| < |u| {
      SpaceAt(s[|r|..], |u| - 1 - |r|);
      assert false;
    }
    assert r == s[..|r|];
    assert r[..|u|] == s[..|u|] == u;
  }

  predicate StartsWith(s: string, p: string) {
    |p| <= |s| && s[..|p|] == p
  }

  lemma StartsWithShorter(s: string, p: string, q: string)
    requires StartsWith(s, p + q)
    ensures StartsWith(s, p)
  {
    assert (p + q)[..|p|] == p;
    assert s[..|p|] == s[..|p + q|][..|p|];
  }

  ghost predicate OccursAt(s: string, p: string, i: int) {
    0 <= i && i + |p| <= |s| && s[i..i + |p|] == p
  }

  /** The first position at or after `from` where `p` occurs in `s`. */
  function FindFrom(s: string, p: string, from: nat): (r: Option<nat>)
    decreases |s| - from
    ensures r.Some? ==> from <= r.value && OccursAt(s, p, r.value)
    ensures r.Some? ==> forall j :: from <= j < r.value ==> !OccursAt(s, p, j)
    ensures r.None? ==> forall j :: from <= j ==> !OccursAt(s, p, j)
  {
    if from + |p| > |s| then None
    else if s[from..from + |p|] == p then Some(from)
    else FindFrom(s, p, from + 1)
  }

  /** Python's `p in s`. */
  predicate Contains(s: string, p: string) {
    FindFrom(s, p, 0).Some?
  }

  lemma ContainsIff(s: string, p: string)
    ensures Contains(s, p) <==> exists i :: OccursAt(s, p, i)
  {
    if !Contains(s, p) {
      forall i ensures !OccursAt(s, p, i) {
        if i >= 0 { assert 0 <= i; }
      }
    }
  }

  lemma ContainsAt(s: string, p: string, i: int)
    requires OccursAt(s, p, i)
    ensures Contains(s, p)
  {
    ContainsIff(s, p);
  }

  /** The middle of a concatenation occurs in it. */
  lemma ContainsInfix(a: string, b: string, c: string)
    ensures Contains(a + b + c, b)
  {
    assert (a + b + c)[|a|..|a| + |b|] == b;
    ContainsAt(a + b + c, b, |a|);
  }

  /** A text lacking one of a pattern's characters does not contain the pattern. */
  lemma MissingCharNotContained(s: string, p: string, k: nat)
    requires k < |p| && p[k] !in s
    ensures !Contains(s, p)
  {
    forall j ensures !OccursAt(s, p, j) {
      if 0 <= j && j + |p| <= |s| {
        assert s[j..j + |p|][k] == s[j + k];
      }
    }
    ContainsIff(s, p);
  }

  /** A substring of a substring is a substring. */
  lemma ContainsTrans(s: string, t: string, u: string)
    requires Contains(s, t) && Contains(t, u)
    ensures Contains(s, u)
  {
    var i := FindFrom(s, t, 0).value;
    var j := FindFrom(t, u, 0).value;
    assert s[i..i + |t|][j..j + |u|] == s[i + j..i + j + |u|];
    ContainsAt(s, u, i + j);
  }

  /** Python's s.replace(p, q): every leftmost non-overlapping occurrence of `p`, scanning
      left to right, is replaced by `q`. */
  function ReplaceAll(s: string, p: string, q: string): string
    requires |p| > 0
  {
    if |s| < |p| then s
    else if s[..|p|] == p then q + ReplaceAll(s[|p|..], p, q)
    else [s[0]] + ReplaceAll(s[1..], p, q)
  }

  /** With no occurrence of the pattern, replacing changes nothing. */
  lemma {:induction false} ReplaceAbsent(s: string, p: string, q: string)
    requires |p| > 0
    requires !Contains(s, p)
    ensures ReplaceAll(s, p, q) == s
  {
    if |s| >= |p| {
      assert !OccursAt(s, p, 0);
      forall j ensures !OccursAt(s[1..], p, j) {
        if OccursAt(s[1..], p, j) {
          assert s[j + 1..j + 1 + |p|] == s[1..][j..j + |p|];
          assert OccursAt(s, p, j + 1);
        }
      }
      ContainsIff(s[1..], p);
      ReplaceAbsent(s[1..], p, q);
    }
  }

  /** Replacing a pattern by itself changes nothing. */
  lemma {:induction false} ReplaceSelf(s: string, p: string)
    requires |p| > 0
    ensures ReplaceAll(s, p, p) == s
  {
    if |s| >= |p| {
      if s[..|p|] == p {
        ReplaceSelf(s[|p|..], p);
        assert s == s[..|p|] + s[|p|..];
      } else {
        ReplaceSelf(s[1..], p);
      }
    }
  }

  /** No occurrence of `p` starts before position `m`. */
  ghost predicate NoneBefore(s: string, p: string, m: int) {
    forall j :: 0 <= j < m ==> !OccursAt(s, p, j)
  }

  lemma ReplaceSkip(s: string, p: string, q: string)
    requires |p| > 0 && |s| >= |p| && !OccursAt(s, p, 0)
    ensures ReplaceAll(s, p, q) == [s[0]] + ReplaceAll(s[1..], p, q)
  {
  }

  lemma ReplaceHit(s: string, p: string, q: string)
    requires |p| > 0 && OccursAt(s, p, 0)
    ensures ReplaceAll(s, p, q) == q + ReplaceAll(s[|p|..], p, q)
  {
  }

  lemma NoneBeforeShift(s: string, p: string, m: int)
    requires |s| > 0 && NoneBefore(s, p, m)
    ensures NoneBefore(s[1..], p, m - 1)
  {
    forall j | 0 <= j < m - 1 ensures !OccursAt(s[1..], p, j) {
      if OccursAt(s[1..], p, j) {
        assert s[1..][j..j + |p|] == s[j + 1..j + 1 + |p|];
        assert OccursAt(s, p, j + 1);
      }
    }
  }

  lemma OccursShift(s: string, p: string, m: int)
    requires m >= 1 && OccursAt(s, p, m)
    ensures OccursAt(s[1..], p, m - 1)
  {
    assert s[1..][m - 1..m - 1 + |p|] == s[m..m + |p|];
  }

  lemma ConsConcat(s: string, m: nat, q: string, y: string)
    requires m + 1 <= |s|
    ensures [s[0]] + (s[1..][..m] + q + y) == s[..m + 1] + q + y
  {
    assert [s[0]] + s[1..][..m] == s[..m + 1];
  }

  /** Before the first occurrence, replacing copies the head and carries on with the tail,
      where the occurrence sits one position earlier. */
  lemma ReplaceBeforeFirst(s: string, p: string, q: string, m: nat)
    requires |p| > 0 && m > 0 && OccursAt(s, p, m) && NoneBefore(s, p, m)
    ensures ReplaceAll(s, p, q) == [s[0]] + ReplaceAll(s[1..], p, q)
    ensures OccursAt(s[1..], p, m - 1) && NoneBefore(s[1..], p, m - 1)
    ensures s[1..][m - 1 + |p|..] == s[m + |p|..]
  {
    assert !OccursAt(s, p, 0);
    ReplaceSkip(s, p, q);
    OccursShift(s, p, m);
    NoneBeforeShift(s, p, m);
  }

  /** Up to its first occurrence `m` the text is copied; then `q` stands in for `p`. */
  lemma {:induction false} ReplaceFirst(s: string, p: string, q: string, m: nat)
    requires |p| > 0 && OccursAt(s, p, m) && NoneBefore(s, p, m)
    ensures ReplaceAll(s, p, q) == s[..m] + q + ReplaceAll(s[m + |p|..], p, q)
  {
    var y := ReplaceAll(s[m + |p|..], p, q);
    if m == 0 {
      ReplaceHit(s, p, q);
      assert s[..m] == [];
      assert s[..m] + q == q;
    } else {
      var t := s[1..];
      calc {
        ReplaceAll(s, p, q);
      == { ReplaceBeforeFirst(s, p, q, m); }
        [s[0]] + ReplaceAll(t, p, q);
      == { ReplaceBeforeFirst(s, p, q, m); ReplaceFirst(t, p, q, m - 1); }
        [s[0]] + (t[..m - 1] + q + y);
      == { ConsConcat(s, m - 1, q, y); }
        s[..m] + q + y;
      }
    }
  }

  /** Whenever the pattern occurs, its replacement occurs in the result. */
  lemma ReplaceIntroduces(s: string, p: string, q: string)
    requires |p| > 0 && Contains(s, p)
    ensures Contains(ReplaceAll(s, p, q), q)
  {
    var m := FindFrom(s, p, 0).value;
    ReplaceFirst(s, p, q, m);
    var r := ReplaceAll(s, p, q);
    assert r[m..m + |q|] == q;
    ContainsAt(r, q, m);
  }

  predicate PrefixComparable(a: string, b: string) {
    StartsWith(a, b) || StartsWith(b, a)
  }

  /** `r` can neither occur inside `q` nor straddle either end of a `q`. */
  predicate Separated(r: string, q: string) {
    && |r| > 0
    && (forall k :: 0 <= k < |q| ==> !PrefixComparable(q[k..], r))
    && (forall j :: 1 <= j < |r| ==> !PrefixComparable(r[j..], q))
  }

  /** An occurrence inside a suffix is an occurrence in the whole text. */
  lemma ContainsInSuffix(s: string, k: nat, r: string)
    requires k <= |s| && Contains(s[k..], r)
    ensures Contains(s, r)
  {
    var i := FindFrom(s[k..], r, 0).value;
    assert s[k + i..k + i + |r|] == s[k..][i..i + |r|];
    ContainsAt(s, r, k + i);
  }

  /** A text whose first character the prefix lacks occurs in `a + b` only where it occurs in `b`. */
  lemma NoneAfterPrefix(a: string, b: string, r: string)
    requires |r| > 0 && r[0] !in a && !Contains(b, r)
    ensures !Contains(a + b, r)
  {
    var s := a + b;
    forall i ensures !OccursAt(s, r, i) {
      if OccursAt(s, r, i) {
        assert s[i..i + |r|][0] == s[i];
        if i >= |a| {
          assert s[i..i + |r|] == b[i - |a|..i - |a| + |r|];
          ContainsAt(b, r, i - |a|);
        }
      }
    }
    ContainsIff(s, r);
  }

  /** A text separated from `q` does not occur in `q` followed by text free of it. */
  lemma NoneAfterReplacement(q: string, tail: string, r: string)
    requires Separated(r, q) && !Contains(tail, r)
    ensures !Contains(q + tail, r)
  {
    var res := q + tail;
    forall i | 0 <= i ensures !OccursAt(res, r, i) {
      if i + |r| <= |res| {
        if i >= |q| {
          assert res[i..i + |r|] == tail[i - |q|..i - |q| + |r|];
          assert !OccursAt(tail, r, i - |q|);
        } else if i + |r| <= |q| {
          assert res[i..i + |r|] == q[i..][..|r|];
          assert !StartsWith(q[i..], r);
        } else {
          assert !StartsWith(r, q[i..]);
          assert r[..|q| - i] != q[i..];
          assert res[i..|q|] == q[i..];
          assert res[i..i + |r|][..|q| - i] == res[i..|q|];
        }
      }
    }
    ContainsIff(res, r);
  }

  /** One copied character followed by text free of `r` contains `r` only at the front. */
  lemma NoneAfterCopied(x: char, tail: string, r: string)
    requires !Contains(tail, r) && !OccursAt([x] + tail, r, 0)
    ensures !Contains([x] + tail, r)
  {
    var res := [x] + tail;
    forall i | 1 <= i ensures !OccursAt(res, r, i) {
      if i + |r| <= |res| {
        assert res[i..i + |r|] == tail[i - 1..i - 1 + |r|];
        assert !OccursAt(tail, r, i - 1);
      }
    }
    ContainsIff(res, r);
  }

  /** `r` cannot start at a copied first character of a replace-all result: the text it
      would cover was in the input, or it would straddle the start of a `q`. */
  lemma NotAtCopiedHead(s: string, p: string, q: string, r: string)
    requires |p| > 0 && Separated(r, q) && |s| >= |p| && !OccursAt(s, p, 0)
    requires r == p || !Contains(s, r)
    ensures !OccursAt([s[0]] + ReplaceAll(s[1..], p, q), r, 0)
  {
    assert !OccursAt(s, r, 0);
    match FindFrom(s[1..], p, 0)
    case None =>
      ReplaceAbsent(s[1..], p, q);
      assert [s[0]] + s[1..] == s;
    case Some(m) =>
      CopiedHeadBeforeMatch(s, p, q, r, m);
  }

  lemma CopiedHeadBeforeMatch(s: string, p: string, q: string, r: string, m: nat)
    requires |s| > 0 && |p| > 0 && Separated(r, q) && !OccursAt(s, r, 0)
    requires OccursAt(s[1..], p, m) && NoneBefore(s[1..], p, m)
    ensures !OccursAt([s[0]] + ReplaceAll(s[1..], p, q), r, 0)
  {
    var t := s[1..];
    ReplaceFirst(t, p, q, m);
    var y := ReplaceAll(t[m + |p|..], p, q);
    ConsConcat(s, m, q, y);
    CopiedThenReplacement(s, m + 1, q, y, r);
  }

  lemma CopiedThenReplacement(s: string, k: nat, q: string, y: string, r: string)
    requires 1 <= k <= |s| && Separated(r, q) && !OccursAt(s, r, 0)
    ensures !OccursAt(s[..k] + q + y, r, 0)
  {
    var res := s[..k] + q + y;
    if k >= |r| {
      if |r| <= |res| {
        assert res[..|r|] == s[..|r|];
      }
    } else {
      assert res[k..k + |q|] == q;
      StraddleMismatch(res, r, q, k);
    }
  }

  lemma StraddleMismatch(res: string, r: string, q: string, j: nat)
    requires 1 <= j < |r| && j + |q| <= |res| && res[j..j + |q|] == q
    requires !PrefixComparable(r[j..], q)
    ensures !OccursAt(res, r, 0)
  {
    if |r| <= |res| {
      if |r| - j <= |q| {
        assert res[j..|r|] == q[..|r| - j];
        assert r[j..] != q[..|r| - j];
        assert res[..|r|][j..] == res[j..|r|];
      } else {
        assert r[j..][..|q|] == r[j..j + |q|];
        assert r[j..j + |q|] != q;
        assert res[..|r|][j..j + |q|] == q;
      }
    }
  }

  /** Replace-all creates no occurrence of a text `r` that is separated from the replacement
      `q`: if `r` was absent it stays absent, and if `r` is the pattern itself, none is left. */
  lemma {:induction false} ReplaceCreatesNone(s: string, p: string, q: string, r: string)
    requires |p| > 0 && Separated(r, q)
    requires r == p || !Contains(s, r)
    ensures !Contains(ReplaceAll(s, p, q), r)
    decreases |s|
  {
    if |s| < |p| {
      assert ReplaceAll(s, p, q) == s;
    } else if OccursAt(s, p, 0) {
      ReplaceHit(s, p, q);
      var rest := s[|p|..];
      if r != p && Contains(rest, r) {
        ContainsInSuffix(s, |p|, r);
      }
      ReplaceCreatesNone(rest, p, q, r);
      NoneAfterReplacement(q, ReplaceAll(rest, p, q), r);
    } else {
      ReplaceSkip(s, p, q);
      var t := s[1..];
      if r != p && Contains(t, r) {
        ContainsInSuffix(s, 1, r);
      }
      ReplaceCreatesNone(t, p, q, r);
      NotAtCopiedHead(s, p, q, r);
      NoneAfterCopied(s[0], ReplaceAll(t, p, q), r);
    }
  }

  /** Python's sep.join(parts). */
  function Join(parts: seq<string>, sep: string): string {
    if |parts| == 0 then ""
    else if |parts| == 1 then parts[0]
    else parts[0] + sep + Join(parts[1..], sep)
  }

  /** Python's s.splitlines() for text whose only line break is '\n': the pieces between
      breaks, without a trailing empty piece. */
  function SplitLines(s: string): (lines: seq<string>)
    decreases |s|
  {
    if |s| == 0 then []
    else match FindFrom(s, "\n", 0)
      case None => [s]
      case Some(i) => [s[..i]] + SplitLines(s[i + 1..])
  }

  /** A join opens with its first part. */
  lemma JoinFirst(parts: seq<string>, sep: string) returns (rest: string)
    requires |parts| > 0
    ensures Join(parts, sep) == parts[0] + rest
  {
    rest := if |parts| == 1 then "" else sep + Join(parts[1..], sep);
  }

  lemma JoinCons(a: string, rest: seq<string>, sep: string)
    requires |rest| > 0
    ensures Join([a] + rest, sep) == a + sep + Join(rest, sep)
  {
    assert ([a] + rest)[1..] == rest;
  }

  /** The text before the first line break holds none, and the break separates it from the rest. */
  lemma FirstBreak(s: string, i: nat)
    requires FindFrom(s, "\n", 0) == Some(i)
    ensures !Contains(s[..i], "\n") && s == s[..i] + "\n" + s[i + 1..]
  {
    forall j ensures !OccursAt(s[..i], "\n", j) {
      if 0 <= j && j + 1 <= i {
        assert s[..i][j..j + 1] == s[j..j + 1];
        assert !OccursAt(s, "\n", j);
      }
    }
    ContainsIff(s[..i], "\n");
    assert s[i..i + 1] == "\n";
    assert s == s[..i] + s[i..i + 1] + s[i + 1..];
  }

  /** Joining the lines with '\n' gives the text back, unless it ended in a line break;
      no line holds a line break. */
  lemma {:induction false} SplitLinesJoin(s: string)
    requires |s| == 0 || s[|s| - 1] != '\n'
    ensures Join(SplitLines(s), "\n") == s
    ensures forall k :: 0 <= k < |SplitLines(s)| ==> !Contains(SplitLines(s)[k], "\n")
    decreases |s|
  {
    if |s| > 0 {
      match FindFrom(s, "\n", 0)
      case None =>
        ContainsIff(s, "\n");
      case Some(i) =>
        FirstBreak(s, i);
        var rest := s[i + 1..];
        assert |rest| > 0;
        SplitLinesJoin(rest);
        assert SplitLines(rest) != [] by {
          match FindFrom(rest, "\n", 0) { case None => case Some(_) => }
        }
        JoinCons(s[..i], SplitLines(rest), "\n");
    }
  }

  /** Splits at every ", " (used to read back a comma-joined column list). */
  function SplitOnSeparator(s: string, sep: string): seq<string>
    requires |sep| > 0
    decreases |s|
  {
    match FindFrom(s, sep, 0)
    case None => [s]
    case Some(i) => [s[..i]] + SplitOnSeparator(s[i + |sep|..], sep)
  }

  /** A ", "-joined list of comma-free names reads back as exactly that list, in order. */
  lemma {:induction false} JoinSplitRoundTrip(names: seq<string>)
    requires |names| > 0
    requires forall k :: 0 <= k < |names| ==> ',' !in names[k]
    ensures SplitOnSeparator(Join(names, ", "), ", ") == names
  {
    var s := Join(names, ", ");
    var n := names[0];
    if |names| == 1 {
      forall j ensures !OccursAt(s, ", ", j) {
        if 0 <= j && j + 2 <= |s| {
          assert s[j..j + 2][0] == s[j];
        }
      }
      ContainsIff(s, ", ");
    } else {
      JoinSplitRoundTrip(names[1..]);
      var rest := Join(names[1..], ", ");
      assert s == n + ", " + rest;
      assert OccursAt(s, ", ", |n|) by { assert s[|n|..|n| + 2] == ", "; }
      forall j | 0 <= j < |n| ensures !OccursAt(s, ", ", j) {
        assert s[j] == n[j];
      }
      var f := FindFrom(s, ", ", 0);
      assert f == Some(|n|);
      assert s[|n| + 2..] == rest;
      assert s[..|n|] == n;
      assert names == [n] + names[1..];
    }
  }
}
