/**
 * Scenario labels and the keyword tests that select a computation branch.
 * The calculator never looks at a scenario's structure directly: it asks
 * whether the label contains "ZZP", "BV", "€60k" or "Dividend", exactly as
 * Python's `keyword in label` does.
 */
module Labels {

  /** `k` occurs in `s` starting at index `i`. */
  predicate OccursAt(s: string, k: string, i: int) {
    0 <= i && i + |k| <= |s| && s[i..i + |k|] == k
  }

  /** Python's substring test `k in s`: some index of `s` starts an occurrence of `k`. */
  function Contains(s: string, k: string): (c: bool)
    ensures c ==> |k| <= |s|
    ensures |k| == 0 ==> c
  {
    assert |k| == 0 ==> s[0..0] == k && OccursAt(s, k, 0);
    exists i | 0 <= i <= |s| - |k| :: OccursAt(s, k, i)
  }

  /**
   * The recursive reading of `k in s`: `k` is a prefix of `s`, or it occurs
   * in the tail of `s`.
   */
  lemma PrefixOrTail(s: string, k: string)
    ensures Contains(s, k) <==> (|k| <= |s| && s[..|k|] == k) || (|s| > 0 && Contains(s[1..], k))
  {
    if Contains(s, k) {
      var i :| 0 <= i <= |s| - |k| && OccursAt(s, k, i);
      if i > 0 {
        assert s[1..][i - 1..i - 1 + |k|] == s[i..i + |k|];
        assert OccursAt(s[1..], k, i - 1);
      } else {
        assert s[..|k|] == s[0..0 + |k|];
      }
    }
    if |k| <= |s| && s[..|k|] == k {
      assert OccursAt(s, k, 0);
    }
    if |s| > 0 && Contains(s[1..], k) {
      var j :| 0 <= j <= |s[1..]| - |k| && OccursAt(s[1..], k, j);
      assert s[1..][j..j + |k|] == s[j + 1..j + 1 + |k|];
      assert OccursAt(s, k, j + 1);
    }
  }

  /** An occurrence at any index makes `Contains` true. */
  lemma Found(s: string, k: string, i: int)
    requires OccursAt(s, k, i)
    ensures Contains(s, k)
  {
  }

  /** A keyword whose first character never appears in `s` is not contained in it. */
  lemma Absent(s: string, k: string)
    requires |k| > 0 && k[0] !in s
    ensures !Contains(s, k)
  {
    forall i | 0 <= i <= |s| - |k|
      ensures !OccursAt(s, k, i)
    {
      assert s[i..i + |k|][0] == s[i];
    }
  }

  /** The three computation branches of the calculator. */
  datatype Branch = SelfEmployed | Company | Salaried

  /** Branch selection by keyword, first match wins: "ZZP", then "BV", then the default. */
  function BranchOf(name: string): (b: Branch)
    ensures b == SelfEmployed <==> Contains(name, "ZZP")
    ensures b == Company <==> !Contains(name, "ZZP") && Contains(name, "BV")
    ensures b == Salaried <==> !Contains(name, "ZZP") && !Contains(name, "BV")
  {
    if Contains(name, "ZZP") then SelfEmployed
    else if Contains(name, "BV") then Company
    else Salaried
  }

  /** The six fixed employment structures of the comparison. */
  datatype Family = RegularSalary | Zzp | BvFullSalary | Bv60k | Bv60kDividend | Payrolling

  /** The label each structure carries in the base scenario table. */
  function LabelOf(f: Family): string {
    match f
    case RegularSalary => "Regular Salary"
    case Zzp => "ZZP (Self-employed)"
    case BvFullSalary => "BV with Full Salary"
    case Bv60k => "BV with €60k Salary"
    case Bv60kDividend => "BV with €60k + Dividend"
    case Payrolling => "Payrolling[No BV]"
  }

  /**
   * The branch each structure is meant to take: employees (regular salary
   * and payrolling, which has no company) are taxed as salaried, the
   * self-employed through the ZZP rules and the three company variants
   * through the BV rules.
   */
  function IntendedBranch(f: Family): Branch {
    match f
    case RegularSalary => Salaried
    case Zzp => SelfEmployed
    case BvFullSalary => Company
    case Bv60k => Company
    case Bv60kDividend => Company
    case Payrolling => Salaried
  }

  /**
   * Evidence about keyword `k` in `s`: `k` occurs at index `at`, or, for a
   * negative `at`, the first character of `k` appears nowhere in `s`.
   */
  ghost predicate Witness(s: string, k: string, at: int) {
    if at < 0 then |k| > 0 && k[0] !in s else OccursAt(s, k, at)
  }

  /** The evidence decides the substring test. */
  lemma Decide(s: string, k: string, at: int)
    requires Witness(s, k, at)
    ensures Contains(s, k) == (at >= 0)
  {
    if at < 0 {
      Absent(s, k);
    } else {
      Found(s, k, at);
    }
  }

  /** Index of "ZZP", "BV", "€60k" and "Dividend" in each label, -1 when absent. */
  function ZzpAt(f: Family): int {
    if f == Zzp then 0 else -1
  }

  function BvAt(f: Family): int {
    match f
    case RegularSalary => -1
    case Zzp => -1
    case Payrolling => 14
    case _ => 0
  }

  function CapAt(f: Family): int {
    if f == Bv60k || f == Bv60kDividend then 8 else -1
  }

  function DividendAt(f: Family): int {
    if f == Bv60kDividend then 15 else -1
  }

  lemma RegularSalaryWitnesses()
    ensures Witness(LabelOf(RegularSalary), "ZZP", -1)
    ensures Witness(LabelOf(RegularSalary), "BV", -1)
    ensures Witness(LabelOf(RegularSalary), "€60k", -1)
    ensures Witness(LabelOf(RegularSalary), "Dividend", -1)
  {
  }

  lemma ZzpWitnesses()
    ensures Witness(LabelOf(Zzp), "ZZP", 0)
    ensures Witness(LabelOf(Zzp), "BV", -1)
    ensures Witness(LabelOf(Zzp), "€60k", -1)
    ensures Witness(LabelOf(Zzp), "Dividend", -1)
  {
  }

  lemma BvFullSalaryWitnesses()
    ensures Witness(LabelOf(BvFullSalary), "ZZP", -1)
    ensures Witness(LabelOf(BvFullSalary), "BV", 0)
    ensures Witness(LabelOf(BvFullSalary), "€60k", -1)
    ensures Witness(LabelOf(BvFullSalary), "Dividend", -1)
  {
  }

  lemma Bv60kWitnesses()
    ensures Witness(LabelOf(Bv60k), "ZZP", -1)
    ensures Witness(LabelOf(Bv60k), "BV", 0)
    ensures Witness(LabelOf(Bv60k), "€60k", 8)
    ensures Witness(LabelOf(Bv60k), "Dividend", -1)
  {
  }

  lemma Bv60kDividendWitnesses()
    ensures Witness(LabelOf(Bv60kDividend), "ZZP", -1)
    ensures Witness(LabelOf(Bv60kDividend), "BV", 0)
    ensures Witness(LabelOf(Bv60kDividend), "€60k", 8)
    ensures Witness(LabelOf(Bv60kDividend), "Dividend", 15)
  {
  }

  lemma PayrollingWitnesses()
    ensures Witness(LabelOf(Payrolling), "ZZP", -1)
    ensures Witness(LabelOf(Payrolling), "BV", 14)
    ensures Witness(LabelOf(Payrolling), "€60k", -1)
    ensures Witness(LabelOf(Payrolling), "Dividend", -1)
  {
  }

  /** The keyword positions above are right for every label. */
  lemma LabelWitnesses(f: Family)
    ensures Witness(LabelOf(f), "ZZP", ZzpAt(f)) && Witness(LabelOf(f), "BV", BvAt(f))
    ensures Witness(LabelOf(f), "€60k", CapAt(f)) && Witness(LabelOf(f), "Dividend", DividendAt(f))
  {
    match f
    case RegularSalary => RegularSalaryWitnesses();
    case Zzp => ZzpWitnesses();
    case BvFullSalary => BvFullSalaryWitnesses();
    case Bv60k => Bv60kWitnesses();
    case Bv60kDividend => Bv60kDividendWitnesses();
    case Payrolling => PayrollingWitnesses();
  }

  /**
   * Which keywords each label contains. Note that "Payrolling[No BV]"
   * contains "BV".
   */
  lemma LabelKeywords(f: Family)
    ensures Contains(LabelOf(f), "ZZP") <==> f == Zzp
    ensures Contains(LabelOf(f), "BV") <==> f in {BvFullSalary, Bv60k, Bv60kDividend, Payrolling}
    ensures Contains(LabelOf(f), "€60k") <==> f in {Bv60k, Bv60kDividend}
    ensures Contains(LabelOf(f), "Dividend") <==> f == Bv60kDividend
  {
    var s := LabelOf(f);
    LabelWitnesses(f);
    Decide(s, "ZZP", ZzpAt(f));
    Decide(s, "BV", BvAt(f));
    Decide(s, "€60k", CapAt(f));
    Decide(s, "Dividend", DividendAt(f));
  }

  /** Every label except Payrolling's selects the branch its structure is meant to take. */
  lemma LabelSelectsIntendedBranch(f: Family)
    requires f != Payrolling
    ensures BranchOf(LabelOf(f)) == IntendedBranch(f)
  {
    LabelKeywords(f);
  }

  /** The Payrolling label reaches the company branch, because "[No BV]" contains "BV". */
  lemma PayrollingLabelSelectsCompany()
    ensures BranchOf(LabelOf(Payrolling)) == Company
    ensures IntendedBranch(Payrolling) == Salaried
  {
    LabelKeywords(Payrolling);
  }
}
