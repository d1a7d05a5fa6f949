/** The textual repairs both back-ends apply to generated code before running it: a guarded
    find/replace-all per wrong column reference, and the rule that appends `.reset_index()`
    after a grouped sum. */
module Repairs {
  import opened TextOps

  const DeathsSingle := "y='Deaths'"
  const DailyDeathsSingle := "y='Daily_Deaths'"
  const DeathsDouble := "y=\"Deaths\""
  const DailyDeathsDouble := "y=\"Daily_Deaths\""
  const CasesSingle := "y='Cases'"
  const DailyCasesSingle := "y='Daily_Cases'"
  const CasesDouble := "y=\"Cases\""
  const DailyCasesDouble := "y=\"Daily_Cases\""

  const GroupbyCall := "groupby("
  const GroupbyMethod := ".groupby("
  const ResetIndex := "reset_index"
  const GroupedSum := ").sum()"
  const GroupedSumReset := ").sum().reset_index()"

  /** One guarded rule: when it is enabled and the code mentions `p`, every `p` becomes `q`. */
  function Rewrite(code: string, enabled: bool, p: string, q: string): string
    requires |p| > 0
  {
    if enabled && Contains(code, p) then ReplaceAll(code, p, q) else code
  }

  /** An enabled rule whose replacement is separated from its pattern leaves no pattern behind,
      and each pattern that was there is now a replacement. */
  lemma RewriteClears(code: string, p: string, q: string)
    requires |p| > 0 && Separated(p, q)
    ensures !Contains(Rewrite(code, true, p, q), p)
    ensures Contains(code, p) ==> Contains(Rewrite(code, true, p, q), q)
    ensures Contains(code, p) ==> var m := FindFrom(code, p, 0).value;
      Rewrite(code, true, p, q) == code[..m] + q + Rewrite(code[m + |p|..], true, p, q)
  {
    if Contains(code, p) {
      ReplaceCreatesNone(code, p, q, p);
      ReplaceIntroduces(code, p, q);
      RewriteAtFirst(code, p, q);
    }
  }

  /** The text before the first occurrence is kept, the replacement stands where that
      occurrence was, and the rest of the text is rewritten by the same rule. */
  lemma RewriteAtFirst(code: string, p: string, q: string)
    requires |p| > 0 && Contains(code, p)
    ensures var m := FindFrom(code, p, 0).value;
      Rewrite(code, true, p, q) == code[..m] + q + Rewrite(code[m + |p|..], true, p, q)
  {
    var m := FindFrom(code, p, 0).value;
    ReplaceFirst(code, p, q, m);
    var rest := code[m + |p|..];
    if !Contains(rest, p) {
      ReplaceAbsent(rest, p, q);
    }
  }

  /** A rule never creates a text separated from its replacement. */
  lemma RewriteKeepsAbsent(code: string, enabled: bool, p: string, q: string, r: string)
    requires |p| > 0 && Separated(r, q) && !Contains(code, r)
    ensures !Contains(Rewrite(code, enabled, p, q), r)
  {
    if enabled && Contains(code, p) {
      ReplaceCreatesNone(code, p, q, r);
    }
  }

  /** The grouped-sum rule: with `groupby(` present and `reset_index` absent, the identity
      replacement of `.groupby(` and then `).sum()` -> `).sum().reset_index()`. */
  function GroupbyRule(code: string): string {
    if Contains(code, GroupbyCall) && !Contains(code, ResetIndex)
    then ReplaceAll(ReplaceAll(code, GroupbyMethod, GroupbyMethod), GroupedSum, GroupedSumReset)
    else code
  }

  /** The rule fires exactly when `groupby(` is present and `reset_index` is not; then every
      `).sum()` gains `.reset_index()`, otherwise the code is untouched. */
  lemma GroupbyRuleSpec(code: string)
    ensures Contains(code, GroupbyCall) && !Contains(code, ResetIndex) ==>
      GroupbyRule(code) == ReplaceAll(code, GroupedSum, GroupedSumReset)
    ensures !(Contains(code, GroupbyCall) && !Contains(code, ResetIndex)) ==> GroupbyRule(code) == code
  {
    ReplaceSelf(code, GroupbyMethod);
  }

  lemma ResetInReplacement()
    ensures Contains(GroupedSumReset, ResetIndex)
  {
    assert GroupedSumReset[8..19] == ResetIndex;
    ContainsAt(GroupedSumReset, ResetIndex, 8);
  }

  /** After the rule has fired on code holding `).sum()`, the code holds `reset_index`. */
  lemma GroupbyRuleResets(code: string)
    requires Contains(code, GroupbyCall) && !Contains(code, ResetIndex) && Contains(code, GroupedSum)
    ensures Contains(GroupbyRule(code), GroupedSumReset) && Contains(GroupbyRule(code), ResetIndex)
  {
    GroupbyRuleSpec(code);
    ReplaceIntroduces(code, GroupedSum, GroupedSumReset);
    ResetInReplacement();
    ContainsTrans(GroupbyRule(code), GroupedSumReset, ResetIndex);
  }

  /** Applying the grouped-sum rule twice is applying it once. */
  lemma GroupbyRuleIdempotent(code: string)
    ensures GroupbyRule(GroupbyRule(code)) == GroupbyRule(code)
  {
    GroupbyRuleSpec(code);
    var once := GroupbyRule(code);
    GroupbyRuleSpec(once);
    if Contains(code, GroupbyCall) && !Contains(code, ResetIndex) {
      if Contains(code, GroupedSum) {
        GroupbyRuleResets(code);
      } else {
        ReplaceAbsent(code, GroupedSum, GroupedSumReset);
        ReplaceAbsent(once, GroupedSum, GroupedSumReset);
      }
    }
  }

  /** The grouped-sum rule never creates a text separated from `).sum().reset_index()`. */
  lemma GroupbyKeepsAbsent(code: string, r: string)
    requires Separated(r, GroupedSumReset) && !Contains(code, r)
    ensures !Contains(GroupbyRule(code), r)
  {
    GroupbyRuleSpec(code);
    if Contains(code, GroupbyCall) && !Contains(code, ResetIndex) {
      ReplaceCreatesNone(code, GroupedSum, GroupedSumReset, r);
    }
  }

  lemma DiffersAt(a: string, b: string, d: nat)
    requires d < |a| && d < |b| && a[d] != b[d]
    ensures !PrefixComparable(a, b)
  {
    if |b| <= |a| { assert a[..|b|][d] == a[d]; }
    if |a| <= |b| { assert b[..|a|][d] == b[d]; }
  }

  /** A pattern `y=…` against a `y=…Daily_…` replacement: the replacement holds `y` only at
      0 and 7, and differs from the pattern at `d` and right after its second `y`. */
  lemma SeparatedFromDaily(r: string, q: string, d: nat)
    requires 1 < |r| && 8 < |q|
    requires forall j :: 1 <= j < |r| ==> r[j] != q[0]
    requires forall k :: 0 <= k < |q| && k != 0 && k != 7 ==> q[k] != r[0]
    requires d < |r| && d < |q| && q[d] != r[d] && q[8] != r[1]
    ensures Separated(r, q)
  {
    forall k | 0 <= k < |q| ensures !PrefixComparable(q[k..], r) {
      if k == 0 {
        DiffersAt(q[k..], r, d);
      } else if k == 7 {
        DiffersAt(q[k..], r, 1);
      } else {
        DiffersAt(q[k..], r, 0);
      }
    }
    forall j | 1 <= j < |r| ensures !PrefixComparable(r[j..], q) {
      DiffersAt(r[j..], q, 0);
    }
  }

  /** Texts whose first characters appear nowhere in the other are separated. */
  lemma SeparatedByHeads(r: string, q: string)
    requires 0 < |r| && 0 < |q|
    requires forall j :: 1 <= j < |r| ==> r[j] != q[0]
    requires forall k :: 0 <= k < |q| ==> q[k] != r[0]
    ensures Separated(r, q)
  {
    forall k | 0 <= k < |q| ensures !PrefixComparable(q[k..], r) {
      DiffersAt(q[k..], r, 0);
    }
    forall j | 1 <= j < |r| ensures !PrefixComparable(r[j..], q) {
      DiffersAt(r[j..], q, 0);
    }
  }

  /** No column rule's pattern can be created by a later (or its own) replacement. */
  lemma ColumnPatternsSeparated()
    ensures Separated(DeathsSingle, DailyDeathsSingle) && Separated(DeathsSingle, DailyDeathsDouble)
    ensures Separated(DeathsSingle, DailyCasesSingle) && Separated(DeathsSingle, DailyCasesDouble)
    ensures Separated(DeathsDouble, DailyDeathsDouble)
    ensures Separated(DeathsDouble, DailyCasesSingle) && Separated(DeathsDouble, DailyCasesDouble)
    ensures Separated(CasesSingle, DailyCasesSingle) && Separated(CasesSingle, DailyCasesDouble)
    ensures Separated(CasesDouble, DailyCasesDouble)
    ensures Separated(DeathsSingle, GroupedSumReset) && Separated(DeathsDouble, GroupedSumReset)
    ensures Separated(CasesSingle, GroupedSumReset) && Separated(CasesDouble, GroupedSumReset)
  {
    SeparatedFromDaily(DeathsSingle, DailyDeathsSingle, 4);
    SeparatedFromDaily(DeathsSingle, DailyDeathsDouble, 2);
    SeparatedFromDaily(DeathsSingle, DailyCasesSingle, 4);
    SeparatedFromDaily(DeathsSingle, DailyCasesDouble, 2);
    SeparatedFromDaily(DeathsDouble, DailyDeathsDouble, 4);
    SeparatedFromDaily(DeathsDouble, DailyCasesSingle, 2);
    SeparatedFromDaily(DeathsDouble, DailyCasesDouble, 4);
    SeparatedFromDaily(CasesSingle, DailyCasesSingle, 3);
    SeparatedFromDaily(CasesSingle, DailyCasesDouble, 2);
    SeparatedFromDaily(CasesDouble, DailyCasesDouble, 3);
    SeparatedByHeads(DeathsSingle, GroupedSumReset);
    SeparatedByHeads(DeathsDouble, GroupedSumReset);
    SeparatedByHeads(CasesSingle, GroupedSumReset);
    SeparatedByHeads(CasesDouble, GroupedSumReset);
  }
}
