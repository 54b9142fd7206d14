/**
 * The base scenario table and the assembly of complete scenarios from the
 * per-column inputs. Money and rates are real numbers.
 */
module Scenarios {
  import opened Wrappers
  import opened Labels

  /** Working weeks per year assumed when deriving an annual income from an hourly rate. */
  const WeeksPerYear: real := 48.0

  /**
   * One entry of the base table: the label, the rates that apply and the
   * optional keys, absent (`None`) where the table leaves them out.
   * `retainedIncomeRatio` and `needsHourly` never enter the tax computation.
   */
  datatype BaseScenario = BaseScenario(
    name: string,
    incomeTaxRate: real,
    socialSecurityRate: Option<real>,
    selfEmploymentDeduction: Option<real>,
    corporateTaxRate: Option<real>,
    dividendTaxRate: Option<real>,
    retainedIncomeRatio: Option<real>,
    needsHourly: bool)

  /** A base entry completed with the gross income and the company expenses. */
  datatype Scenario = Scenario(base: BaseScenario, grossIncome: real, companyExpenses: real)

  /** The values of one column's income widgets; only those its structure shows are read. */
  datatype IncomeEntry = IncomeEntry(hourlyRate: real, hoursPerWeek: real, annualGross: real)

  /**
   * The base table entry of each structure: its label, income tax at
   * 0.3961 (0.4665 for payrolling), social security at 0.0669 for all but
   * ZZP, and the optional keys only where the table lists them.
   */
  function Base(f: Family): (b: BaseScenario)
    ensures b.name == LabelOf(f)
    ensures b.incomeTaxRate == if f == Payrolling then 0.4665 else 0.3961
    ensures b.socialSecurityRate == if f == Zzp then None else Some(0.0669)
    ensures b.selfEmploymentDeduction.Some? <==> f == Zzp
    ensures b.corporateTaxRate.Some? <==> f == Bv60k || f == Bv60kDividend
    ensures b.dividendTaxRate.Some? <==> f == Bv60kDividend
    ensures b.retainedIncomeRatio.Some? <==> f == Bv60k || f == Bv60kDividend
    ensures b.needsHourly <==> f != RegularSalary
  {
    match f
    case RegularSalary =>
      BaseScenario(LabelOf(f), 0.3961, Some(0.0669), None, None, None, None, false)
    case Zzp =>
      BaseScenario(LabelOf(f), 0.3961, None, Some(2470.0), None, None, None, true)
    case BvFullSalary =>
      BaseScenario(LabelOf(f), 0.3961, Some(0.0669), None, None, None, None, true)
    case Bv60k =>
      BaseScenario(LabelOf(f), 0.3961, Some(0.0669), None, Some(0.25), None, Some(0.6), true)
    case Bv60kDividend =>
      BaseScenario(LabelOf(f), 0.3961, Some(0.0669), None, Some(0.25), Some(0.25), Some(0.6), true)
    case Payrolling =>
      BaseScenario(LabelOf(f), 0.4665, Some(0.0669), None, None, None, None, true)
  }

  /** The six structures in the order of the columns. */
  const Families: seq<Family> := [RegularSalary, Zzp, BvFullSalary, Bv60k, Bv60kDividend, Payrolling]

  /** The base table, one entry per column. */
  const BaseTable: seq<BaseScenario> := [
    Base(RegularSalary), Base(Zzp), Base(BvFullSalary),
    Base(Bv60k), Base(Bv60kDividend), Base(Payrolling)]

  /** The table has one entry per structure, in column order, and lists each structure once. */
  lemma BaseTableFollowsFamilies()
    ensures |BaseTable| == |Families| == 6
    ensures forall i :: 0 <= i < |Families| ==> BaseTable[i] == Base(Families[i])
    ensures forall f: Family :: f in Families
    ensures forall i, j :: 0 <= i < j < |Families| ==> Families[i] != Families[j]
  {
    forall f: Family
      ensures f in Families
    {
      match f
      case RegularSalary => assert Families[0] == f;
      case Zzp => assert Families[1] == f;
      case BvFullSalary => assert Families[2] == f;
      case Bv60k => assert Families[3] == f;
      case Bv60kDividend => assert Families[4] == f;
      case Payrolling => assert Families[5] == f;
    }
  }

  /**
   * The gross income a column's inputs stand for: an hourly column earns
   * its rate for every hour of 48 full working weeks, the other columns
   * enter their annual gross income directly.
   */
  function ColumnGross(b: BaseScenario, e: IncomeEntry): (g: real)
    ensures b.needsHourly ==> g == e.hourlyRate * e.hoursPerWeek * 48.0
    ensures b.needsHourly && e.hourlyRate >= 0.0 && e.hoursPerWeek >= 0.0 ==> g >= 0.0
    ensures !b.needsHourly ==> g == e.annualGross
  {
    if b.needsHourly then e.hourlyRate * e.hoursPerWeek * WeeksPerYear else e.annualGross
  }

  /** The gross income of the last column, which the first loop leaves behind. */
  function LastColumnGross(bases: seq<BaseScenario>, entries: seq<IncomeEntry>): real
    requires |bases| > 0 && |entries| == |bases|
  {
    ColumnGross(bases[|bases| - 1], entries[|bases| - 1])
  }

  /**
   * The income loop: each column overwrites the one `gross_income`
   * variable, so after the loop it holds the last column's value (nothing
   * when there are no columns).
   */
  method LeftoverGross(bases: seq<BaseScenario>, entries: seq<IncomeEntry>) returns (gross: Option<real>)
    requires |entries| == |bases|
    ensures |bases| == 0 ==> gross == None
    ensures |bases| > 0 ==> gross == Some(LastColumnGross(bases, entries))
  {
    gross := None;
    for i := 0 to |bases|
      invariant i == 0 ==> gross == None
      invariant i > 0 ==> gross == Some(ColumnGross(bases[i - 1], entries[i - 1]))
    {
      gross := Some(ColumnGross(bases[i], entries[i]));
    }
  }

  /**
   * The expenses loop: copy each base entry and set its gross income and
   * expenses, appending the copies in column order. Every scenario gets
   * the same `gross`.
   */
  method BuildScenarios(bases: seq<BaseScenario>, expenses: seq<real>, gross: real)
    returns (scenarios: seq<Scenario>)
    requires |expenses| == |bases|
    ensures |scenarios| == |bases|
    ensures forall i :: 0 <= i < |bases| ==>
      scenarios[i].base == bases[i] && scenarios[i].companyExpenses == expenses[i]
    ensures forall i :: 0 <= i < |scenarios| ==> scenarios[i].grossIncome == gross
  {
    scenarios := [];
    for i := 0 to |bases|
      invariant |scenarios| == i
      invariant forall j :: 0 <= j < i ==> scenarios[j] == Scenario(bases[j], gross, expenses[j])
    {
      scenarios := scenarios + [Scenario(bases[i], gross, expenses[i])];
    }
  }

  /** Both loops together, as the page runs them. */
  method Assemble(bases: seq<BaseScenario>, entries: seq<IncomeEntry>, expenses: seq<real>)
    returns (scenarios: seq<Scenario>)
    requires |entries| == |bases| && |expenses| == |bases|
    ensures |scenarios| == |bases|
    ensures forall i :: 0 <= i < |bases| ==>
      scenarios[i] == Scenario(bases[i], LastColumnGross(bases, entries), expenses[i])
  {
    var gross := LeftoverGross(bases, entries);
    if gross.None? {
      scenarios := [];
    } else {
      scenarios := BuildScenarios(bases, expenses, gross.value);
    }
  }

  /**
   * A column's own gross income is replaced by the last column's: with
   * every widget at its initial value (100 per hour, 36 hours, 150000
   * annual), the regular-salary column stands for 150000, but all scenarios
   * are built with the payrolling column's 172800.
   */
  lemma LastColumnGrossOverridesFirst()
    ensures var e := IncomeEntry(100.0, 36.0, 150000.0);
            var entries := [e, e, e, e, e, e];
            ColumnGross(BaseTable[0], entries[0]) == 150000.0
            && LastColumnGross(BaseTable, entries) == 172800.0
  {
  }

  /** The evidently intended assembly: each scenario carries its own column's gross income. */
  method BuildScenariosPerColumn(bases: seq<BaseScenario>, entries: seq<IncomeEntry>, expenses: seq<real>)
    returns (scenarios: seq<Scenario>)
    requires |entries| == |bases| && |expenses| == |bases|
    ensures |scenarios| == |bases|
    ensures forall i :: 0 <= i < |bases| ==>
      scenarios[i] == Scenario(bases[i], ColumnGross(bases[i], entries[i]), expenses[i])
  {
    scenarios := [];
    for i := 0 to |bases|
      invariant |scenarios| == i
      invariant forall j :: 0 <= j < i ==>
        scenarios[j] == Scenario(bases[j], ColumnGross(bases[j], entries[j]), expenses[j])
    {
      var gross := ColumnGross(bases[i], entries[i]);
      scenarios := scenarios + [Scenario(bases[i], gross, expenses[i])];
    }
  }
}
