/** Turning a model reply into code (`extract_code_from_llm_response`, identical in both
    back-ends): the stripped group of the first match of the DOTALL pattern
    ```` ```(?:python)?(.*?)``` ````, and when nothing matches, the lines of the stripped reply
    that do not read as narration. */
module Extraction {
  import opened TextOps

  const Fence := "```"
  const PythonTag := "python"

  /** A match of the pattern: where it starts, and where its group starts and ends. */
  datatype Span = Span(start: nat, groupStart: nat, groupEnd: nat)

  /** The pattern matches at `s` with group `text[g0..g1]`: a fence, an optional `python`
      tag, any text, a fence. */
  ghost predicate RegexMatch(text: string, s: int, g0: int, g1: int) {
    && OccursAt(text, Fence, s)
    && (g0 == s + 3 || (g0 == s + 9 && OccursAt(text, PythonTag, s + 3)))
    && g0 <= g1
    && OccursAt(text, Fence, g1)
  }

  /** The order in which a backtracking search prefers matches: an earlier start first, then
      the tagged branch of the optional group, then the shortest lazy group. */
  ghost predicate PreferredTo(m: Span, s: int, g0: int, g1: int) {
    m.start < s || (m.start == s && (m.groupStart > g0 || (m.groupStart == g0 && m.groupEnd <= g1)))
  }

  lemma OccursAtIsStartsWith(text: string, p: string, k: nat)
    requires k <= |text|
    ensures OccursAt(text, p, k) <==> StartsWith(text[k..], p)
  {
    if |p| <= |text| - k {
      assert text[k..][..|p|] == text[k..k + |p|];
    }
  }

  /** The match `re.search` reports: at the first fence, the tagged branch if a closing fence
      follows the tag, otherwise the untagged one up to the next fence. */
  function FencedSpan(text: string): (r: Option<Span>)
    ensures r.Some? ==> RegexMatch(text, r.value.start, r.value.groupStart, r.value.groupEnd)
  {
    match FindFrom(text, Fence, 0)
    case None => None
    case Some(i) =>
      OccursAtIsStartsWith(text, PythonTag, i + 3);
      var tagged := if StartsWith(text[i + 3..], PythonTag) then FindFrom(text, Fence, i + 9) else None;
      if tagged.Some? then Some(Span(i, i + 9, tagged.value))
      else
        match FindFrom(text, Fence, i + 3)
        case None => None
        case Some(j) => Some(Span(i, i + 3, j))
  }

  /** `FencedSpan` finds a match exactly when the pattern matches somewhere, and the match it
      finds is preferred to every other one, as Python's backtracking search chooses. */
  lemma FencedSpanIsSearch(text: string)
    ensures FencedSpan(text).None? <==> forall s, g0, g1 :: !RegexMatch(text, s, g0, g1)
    ensures FencedSpan(text).Some? ==>
      forall s, g0, g1 :: RegexMatch(text, s, g0, g1) ==> PreferredTo(FencedSpan(text).value, s, g0, g1)
  {
    match FindFrom(text, Fence, 0)
    case None =>
    case Some(i) =>
      OccursAtIsStartsWith(text, PythonTag, i + 3);
      var tagged := if StartsWith(text[i + 3..], PythonTag) then FindFrom(text, Fence, i + 9) else None;
      if tagged.None? {
        forall g1 ensures !OccursAt(text, PythonTag, i + 3) || g1 < i + 9 || !OccursAt(text, Fence, g1) {
          if OccursAt(text, PythonTag, i + 3) && i + 9 <= g1 {
            assert FindFrom(text, Fence, i + 9).None?;
          }
        }
      }
  }

  /** Python's `line.strip().startswith(("Here's", "This", "#", "Output"))`. */
  predicate IsNarration(line: string) {
    var t := Strip(line);
    StartsWith(t, "Here's") || StartsWith(t, "This") || StartsWith(t, "#") || StartsWith(t, "Output")
  }

  /** A list comprehension keeping the lines that `drop` does not flag. */
  function Filter(lines: seq<string>, drop: string -> bool): seq<string> {
    if lines == [] then []
    else (if drop(lines[0]) then [] else [lines[0]]) + Filter(lines[1..], drop)
  }

  /** The comprehension keeping the lines that are not narration. */
  function KeepCode(lines: seq<string>): seq<string> {
    Filter(lines, IsNarration)
  }

  /** `kept` is the lines at the increasing positions `idx`, and those positions are exactly
      the lines that `drop` does not flag. */
  ghost predicate SelectedBy(lines: seq<string>, kept: seq<string>, idx: seq<int>, drop: string -> bool) {
    && |idx| == |kept|
    && (forall k :: 0 <= k < |idx| ==> 0 <= idx[k] < |lines| && kept[k] == lines[idx[k]])
    && (forall k, l :: 0 <= k < l < |idx| ==> idx[k] < idx[l])
    && (forall i :: 0 <= i < |lines| ==> (!drop(lines[i]) <==> i in idx))
  }

  /** Positions moved one along. */
  function Shift(idx: seq<int>): (r: seq<int>)
    ensures |r| == |idx| && forall k :: 0 <= k < |idx| ==> r[k] == idx[k] + 1
  {
    seq(|idx|, k requires 0 <= k < |idx| => idx[k] + 1)
  }

  lemma ShiftMember(idx: seq<int>, i: int)
    ensures i in Shift(idx) <==> i - 1 in idx
  {
    var r := Shift(idx);
    if i - 1 in idx {
      var k :| 0 <= k < |idx| && idx[k] == i - 1;
      assert r[k] == i;
    }
    if i in r {
      var k :| 0 <= k < |r| && r[k] == i;
      assert idx[k] == i - 1;
    }
  }

  /** The positions selecting the filtered tail, moved one along, pick the same lines from
      the whole. */
  lemma ShiftedPicks(lines: seq<string>, kept: seq<string>, tail: seq<int>, drop: string -> bool)
    requires |lines| > 0 && SelectedBy(lines[1..], kept, tail, drop)
    ensures forall k :: 0 <= k < |tail| ==> 1 <= Shift(tail)[k] < |lines| && kept[k] == lines[Shift(tail)[k]]
  {
    forall k | 0 <= k < |tail| ensures 1 <= Shift(tail)[k] < |lines| && kept[k] == lines[Shift(tail)[k]] {
      assert lines[1..][tail[k]] == lines[tail[k] + 1];
    }
  }

  /** ... and they are exactly the positions after the first whose lines `drop` does not flag. */
  lemma ShiftedMembers(lines: seq<string>, kept: seq<string>, tail: seq<int>, drop: string -> bool)
    requires |lines| > 0 && SelectedBy(lines[1..], kept, tail, drop)
    ensures 0 !in Shift(tail)
    ensures forall i :: 1 <= i < |lines| ==> (!drop(lines[i]) <==> i in Shift(tail))
  {
    ShiftMember(tail, 0);
    forall i | 1 <= i < |lines| ensures !drop(lines[i]) <==> i in Shift(tail) {
      assert lines[1..][i - 1] == lines[i];
      ShiftMember(tail, i);
    }
  }

  /** The filter keeps every line `drop` does not flag, drops every flagged one and preserves
      order. */
  lemma {:induction false} FilterSelects(lines: seq<string>, drop: string -> bool) returns (idx: seq<int>)
    ensures SelectedBy(lines, Filter(lines, drop), idx, drop)
  {
    if lines == [] {
      idx := [];
    } else {
      var kept := Filter(lines[1..], drop);
      var tail := FilterSelects(lines[1..], drop);
      idx := ExtendSelection(lines, kept, tail, drop);
      assert Filter(lines, drop) == (if drop(lines[0]) then [] else [lines[0]]) + kept;
    }
  }

  /** A selection of the filtered tail extends to the whole: the first line goes in front when
      it is kept. */
  lemma ExtendSelection(lines: seq<string>, kept: seq<string>, tail: seq<int>, drop: string -> bool)
    returns (idx: seq<int>)
    requires |lines| > 0 && SelectedBy(lines[1..], kept, tail, drop)
    ensures SelectedBy(lines, (if drop(lines[0]) then [] else [lines[0]]) + kept, idx, drop)
  {
    var shifted := Shift(tail);
    ShiftedPicks(lines, kept, tail, drop);
    ShiftedMembers(lines, kept, tail, drop);
    if drop(lines[0]) {
      idx := shifted;
      assert [] + kept == kept;
    } else {
      idx := [0] + shifted;
      PrependFirst(lines, kept, shifted, drop);
    }
  }

  /** A kept first line goes in front of the selection of the rest. */
  lemma PrependFirst(lines: seq<string>, kept: seq<string>, shifted: seq<int>, drop: string -> bool)
    requires |lines| > 0 && !drop(lines[0]) && |shifted| == |kept| && 0 !in shifted
    requires forall k :: 0 <= k < |shifted| ==> 1 <= shifted[k] < |lines| && kept[k] == lines[shifted[k]]
    requires forall k, l :: 0 <= k < l < |shifted| ==> shifted[k] < shifted[l]
    requires forall i :: 1 <= i < |lines| ==> (!drop(lines[i]) <==> i in shifted)
    ensures SelectedBy(lines, [lines[0]] + kept, [0] + shifted, drop)
  {
    var idx := [0] + shifted;
    forall i | 0 <= i < |lines| ensures !drop(lines[i]) <==> i in idx {
      if i > 0 {
        assert i in idx <==> i in shifted;
      }
    }
  }

  /** The code the back-ends execute: the stripped group of the match, or else the kept lines
      of the stripped reply joined by line breaks. */
  function ExtractCode(text: string): string {
    match FencedSpan(text)
    case Some(m) => Strip(text[m.groupStart..m.groupEnd])
    case None => Join(KeepCode(SplitLines(Strip(text))), "\n")
  }

  /** Whitespace-only text (the empty reply included) extracts to "". */
  lemma ExtractBlank(text: string)
    requires AllSpace(text)
    ensures ExtractCode(text) == ""
  {
    forall s, g0, g1 ensures !RegexMatch(text, s, g0, g1) {
      if 0 <= s < |text| {
        SpaceAt(text, s);
        assert s + 3 <= |text| ==> text[s..s + 3][0] == text[s];
      }
    }
    FencedSpanIsSearch(text);
    StripEmptyIff(text);
  }

  /** Without a match, the result is the non-narration lines of the stripped reply, in order;
      those lines rejoined give the stripped reply back and none holds a line break. */
  lemma UnfencedExtraction(text: string) returns (lines: seq<string>, idx: seq<int>)
    requires forall s, g0, g1 :: !RegexMatch(text, s, g0, g1)
    ensures lines == SplitLines(Strip(text)) && Join(lines, "\n") == Strip(text)
    ensures forall k :: 0 <= k < |lines| ==> !Contains(lines[k], "\n")
    ensures SelectedBy(lines, KeepCode(lines), idx, IsNarration)
    ensures ExtractCode(text) == Join(KeepCode(lines), "\n")
  {
    FencedSpanIsSearch(text);
    var stripped := Strip(text);
    var i := StripShape(text);
    SplitLinesJoin(stripped);
    lines := SplitLines(stripped);
    idx := FilterSelects(lines, IsNarration);
  }

  /** A comprehension that flags every line keeps none. */
  lemma {:induction false} FilterDropsAll(lines: seq<string>, drop: string -> bool)
    requires forall k :: 0 <= k < |lines| ==> drop(lines[k])
    ensures Filter(lines, drop) == []
  {
    if lines != [] {
      FilterDropsAll(lines[1..], drop);
    }
  }

  /** A reply without a fenced block whose every line is narration extracts to "": the code
      executed then binds nothing. */
  lemma NarrationOnlyExtractsEmpty(text: string)
    requires forall s, g0, g1 :: !RegexMatch(text, s, g0, g1)
    requires forall k :: 0 <= k < |SplitLines(Strip(text))| ==> IsNarration(SplitLines(Strip(text))[k])
    ensures ExtractCode(text) == ""
  {
    var lines, idx := UnfencedExtraction(text);
    FilterDropsAll(lines, IsNarration);
  }

  /** A one-line reply without a fenced block that is not narration (prose such as "Sure, the
      plot is below." included) is executed as it stands, stripped. */
  lemma ProseLineKept(text: string)
    requires forall s, g0, g1 :: !RegexMatch(text, s, g0, g1)
    requires !Contains(Strip(text), "\n") && !IsNarration(Strip(text))
    ensures ExtractCode(text) == Strip(text)
  {
    var lines, idx := UnfencedExtraction(text);
    var t := Strip(text);
    if t != [] {
      assert lines == [t];
      assert KeepCode(lines) == [t] + Filter(lines[1..], IsNarration);
    }
  }

  /** The chosen match of a text with a match at (`a`, `g0`, `g1`), no fence before `a`,
      and none inside the group, is that match (when `g0` is the untagged position, provided
      no tag follows the fence). */
  lemma ChosenSpan(text: string, a: nat, g0: nat, g1: nat)
    requires RegexMatch(text, a, g0, g1)
    requires forall g :: 0 <= g < a ==> !OccursAt(text, Fence, g)
    requires forall g :: g0 <= g < g1 ==> !OccursAt(text, Fence, g)
    requires g0 == a + 3 ==> !OccursAt(text, PythonTag, a + 3)
    ensures FencedSpan(text) == Some(Span(a, g0, g1))
  {
    FencedSpanIsSearch(text);
  }

  /** No fence starts in `text[lo..hi]` when a fence follows it at `hi` and that stretch,
      followed by two backticks, holds none: a fence starting there would either lie inside it
      or run on into the fence at `hi`. */
  lemma NoFenceBeforeFence(text: string, lo: nat, hi: nat)
    requires lo <= hi && hi + 3 <= |text| && text[hi..hi + 3] == Fence
    requires !Contains(text[lo..hi] + "``", Fence)
    ensures forall g :: lo <= g < hi ==> !OccursAt(text, Fence, g)
  {
    var t := text[lo..hi] + "``";
    forall g | lo <= g < hi ensures !OccursAt(text, Fence, g) {
      if OccursAt(text, Fence, g) {
        assert text[hi..hi + 3][0] == text[hi] && text[hi..hi + 3][1] == text[hi + 1];
        var j := g - lo;
        assert text[g..g + 3][0] == text[g] && text[g..g + 3][1] == text[g + 1] && text[g..g + 3][2] == text[g + 2];
        assert t[j] == text[g];
        assert t[j + 1] == text[g + 1];
        assert t[j + 2] == text[g + 2];
        assert t[j..j + 3] == text[g..g + 3];
        ContainsAt(t, Fence, g - lo);
      }
    }
  }

  /** A reply with prose around one tagged fenced block yields the stripped block, provided no
      fence lies in the prose or in the block, and neither ends in a backtick that would run
      on into the fence after it. */
  lemma ExtractTaggedBlock(pre: string, body: string, post: string)
    requires !Contains(pre + "``", Fence) && !Contains(body + "``", Fence)
    ensures ExtractCode(pre + Fence + PythonTag + body + Fence + post) == Strip(body)
  {
    var text := pre + Fence + PythonTag + body + Fence + post;
    var a := |pre|;
    var e := a + 9 + |body|;
    assert text[..a] == pre;
    assert text[a..a + 3] == Fence;
    assert text[a + 3..a + 9] == PythonTag;
    assert text[a + 9..e] == body;
    assert text[e..e + 3] == Fence;
    assert text[0..a] == pre;
    NoFenceBeforeFence(text, 0, a);
    NoFenceBeforeFence(text, a + 9, e);
    ChosenSpan(text, a, a + 9, e);
  }

  /** A reply with prose around one untagged fenced block yields the stripped block, under the
      same conditions, provided the block does not open with `python` (which would make it a
      tagged one). */
  lemma ExtractUntaggedBlock(pre: string, body: string, post: string)
    requires !Contains(pre + "``", Fence) && !Contains(body + "``", Fence)
    requires !StartsWith(body, PythonTag)
    ensures ExtractCode(pre + Fence + body + Fence + post) == Strip(body)
  {
    var text := pre + Fence + body + Fence + post;
    var a := |pre|;
    var e := a + 3 + |body|;
    assert text[..a] == pre;
    assert text[0..a] == pre;
    assert text[a..a + 3] == Fence;
    assert text[a + 3..e] == body;
    assert text[e..e + 3] == Fence;
    assert text[e] == '`' by {
      assert text[e..e + 3][0] == text[e];
    }
    assert !OccursAt(text, PythonTag, a + 3) by {
      if |body| >= 6 {
        assert text[a + 3..a + 9] == body[..6];
      } else if a + 9 <= |text| {
        assert text[a + 3..a + 9][|body|] == text[e];
        assert PythonTag[|body|] != '`';
      }
    }
    NoFenceBeforeFence(text, 0, a);
    NoFenceBeforeFence(text, a + 3, e);
    ChosenSpan(text, a, a + 3, e);
  }
}
