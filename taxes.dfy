/**
 * The per-scenario tax breakdown and the loop that computes one result row
 * per scenario. Money and rates are real numbers, so every accounting
 * identity below holds exactly.
 */
module TaxCalculator {
  import opened Wrappers
  import opened Labels
  import opened Scenarios

  /** Why a scenario's computation stops: a missing dictionary key or a zero gross income. */
  datatype Error = MissingKey(key: string) | DivisionByZero

  /** How one scenario's income splits into what is kept and what is paid. */
  datatype Components = Components(
    netIncome: real,
    personalTax: real,
    corporateTax: real,
    dividendTax: real,
    socialSecurity: real)

  /** One line of the results table. */
  datatype Row = Row(
    name: string,
    grossIncome: real,
    companyExpenses: real,
    parts: Components,
    retentionPct: real)

  /** The salary cap and the salary share of gross income in the "€60k" structures. */
  const SalaryCap: real := 60000.0
  const SalaryShare: real := 0.4

  /** `scenario.get("social_security_rate", 0)`. */
  function SocialSecurityRate(b: BaseScenario): (rate: real)
    ensures b.socialSecurityRate.Some? ==> rate == b.socialSecurityRate.value
    ensures b.socialSecurityRate.None? ==> rate == 0.0
  {
    if b.socialSecurityRate.Some? then b.socialSecurityRate.value else 0.0
  }

  /**
   * The salary a company pays its owner: the smaller of the cap and the
   * share of gross income when the label says "€60k", all of it otherwise.
   */
  function Salary(name: string, gross: real): (salary: real)
    ensures Contains(name, "€60k") ==>
      salary <= SalaryCap && salary <= SalaryShare * gross
      && (salary == SalaryCap || salary == SalaryShare * gross)
    ensures !Contains(name, "€60k") ==> salary == gross
  {
    if Contains(name, "€60k") then
      (if SalaryCap <= gross * SalaryShare then SalaryCap else gross * SalaryShare)
    else gross
  }

  /**
   * What a company keeps after paying the salary and the expenses: nothing
   * but the negated expenses when the salary is the whole gross income, and
   * under "€60k" the larger of 60 percent of gross and gross beyond the cap,
   * less the expenses.
   */
  function CorporateIncome(s: Scenario): (ci: real)
    ensures !Contains(s.base.name, "€60k") ==> ci == -s.companyExpenses
    ensures Contains(s.base.name, "€60k") ==>
      var g := s.grossIncome;
      ci >= (1.0 - SalaryShare) * g - s.companyExpenses && ci >= g - SalaryCap - s.companyExpenses
      && (ci == (1.0 - SalaryShare) * g - s.companyExpenses || ci == g - SalaryCap - s.companyExpenses)
  {
    s.grossIncome - Salary(s.base.name, s.grossIncome) - s.companyExpenses
  }

  /**
   * The ZZP branch: the self-employment deduction and the expenses come off
   * gross income before income tax; there is no floor at zero, so a
   * negative taxable income still flows through.
   */
  function SelfEmployedBreakdown(s: Scenario): (r: Result<Components, Error>)
    ensures r.Err? <==> s.base.selfEmploymentDeduction.None?
    ensures r.Err? ==> r.error == MissingKey("self_employment_deduction")
    ensures r.Ok? ==>
      var taxable := s.grossIncome - s.base.selfEmploymentDeduction.value - s.companyExpenses;
      && r.value.personalTax == taxable * s.base.incomeTaxRate
      && r.value.netIncome + r.value.personalTax == taxable
      && r.value.corporateTax == 0.0 && r.value.dividendTax == 0.0 && r.value.socialSecurity == 0.0
  {
    match s.base.selfEmploymentDeduction
    case None => Err(MissingKey("self_employment_deduction"))
    case Some(deduction) =>
      var taxable := s.grossIncome - deduction - s.companyExpenses;
      var personalTax := taxable * s.base.incomeTaxRate;
      Ok(Components(taxable - personalTax, personalTax, 0.0, 0.0, 0.0))
  }

  /**
   * The BV branch. The owner's salary bears income tax and social
   * security; a positive corporate income bears corporate tax and, in the
   * "Dividend" structure, dividend tax on what is paid out. Everything is
   * accounted for: when the corporate income is positive the parts and the
   * expenses add up to gross income; otherwise the parts add up to the salary.
   */
  function CompanyBreakdown(s: Scenario): (r: Result<Components, Error>)
    ensures var ci := CorporateIncome(s);
      r.Err? <==> ci > 0.0 && (s.base.corporateTaxRate.None?
                               || (Contains(s.base.name, "Dividend") && s.base.dividendTaxRate.None?))
    ensures r.Err? ==>
      r.error == MissingKey(if s.base.corporateTaxRate.None? then "corporate_tax_rate" else "dividend_tax_rate")
    ensures r.Ok? ==>
      var salary := Salary(s.base.name, s.grossIncome);
      var c := r.value;
      && c.personalTax == salary * s.base.incomeTaxRate
      && c.socialSecurity == salary * SocialSecurityRate(s.base)
      && (CorporateIncome(s) <= 0.0 ==>
            c.corporateTax == 0.0 && c.dividendTax == 0.0
            && c.netIncome == salary - c.personalTax - c.socialSecurity)
      && (CorporateIncome(s) > 0.0 ==>
            c.corporateTax == CorporateIncome(s) * s.base.corporateTaxRate.value
            && c.netIncome + c.personalTax + c.corporateTax + c.dividendTax + c.socialSecurity
               + s.companyExpenses == s.grossIncome)
      && (CorporateIncome(s) > 0.0 && !Contains(s.base.name, "Dividend") ==> c.dividendTax == 0.0)
      && (CorporateIncome(s) > 0.0 && Contains(s.base.name, "Dividend") ==>
            c.dividendTax == (CorporateIncome(s) - c.corporateTax) * s.base.dividendTaxRate.value)
  {
    var salary := Salary(s.base.name, s.grossIncome);
    var personalTax := salary * s.base.incomeTaxRate;
    var corporateIncome := s.grossIncome - salary - s.companyExpenses;
    var socialSecurity := salary * SocialSecurityRate(s.base);
    if corporateIncome <= 0.0 then
      Ok(Components(salary - personalTax - socialSecurity, personalTax, 0.0, 0.0, socialSecurity))
    else if s.base.corporateTaxRate.None? then
      Err(MissingKey("corporate_tax_rate"))
    else
      var corporateTax := corporateIncome * s.base.corporateTaxRate.value;
      if !Contains(s.base.name, "Dividend") then
        var net := (salary - personalTax) + (corporateIncome - corporateTax);
        Ok(Components(net - socialSecurity, personalTax, corporateTax, 0.0, socialSecurity))
      else if s.base.dividendTaxRate.None? then
        Err(MissingKey("dividend_tax_rate"))
      else
        var dividendAmount := corporateIncome - corporateTax;
        var dividendTax := dividendAmount * s.base.dividendTaxRate.value;
        var net := (salary - personalTax) + (dividendAmount - dividendTax);
        Ok(Components(net - socialSecurity, personalTax, corporateTax, dividendTax, socialSecurity))
  }

  /**
   * The default branch: income tax and social security on gross income
   * minus expenses, which the two and the net income add up to exactly.
   */
  function SalariedBreakdown(s: Scenario): (c: Components)
    ensures var taxable := s.grossIncome - s.companyExpenses;
      && c.personalTax == taxable * s.base.incomeTaxRate
      && c.socialSecurity == taxable * SocialSecurityRate(s.base)
      && c.netIncome + c.personalTax + c.socialSecurity == taxable
      && c.corporateTax == 0.0 && c.dividendTax == 0.0
  {
    var taxable := s.grossIncome - s.companyExpenses;
    var personalTax := taxable * s.base.incomeTaxRate;
    var socialSecurity := taxable * SocialSecurityRate(s.base);
    Components(taxable - personalTax - socialSecurity, personalTax, 0.0, 0.0, socialSecurity)
  }

  /** The breakdown a branch computes. */
  function BreakdownIn(branch: Branch, s: Scenario): Result<Components, Error> {
    match branch
    case SelfEmployed => SelfEmployedBreakdown(s)
    case Company => CompanyBreakdown(s)
    case Salaried => Ok(SalariedBreakdown(s))
  }

  /** Net income as a percentage of gross income. */
  function Retention(net: real, gross: real): (pct: real)
    requires gross != 0.0
    ensures pct * gross == 100.0 * net
    ensures (pct == 100.0) <==> (net == gross)
  {
    net / gross * 100.0
  }

  /** The results row for a breakdown; dividing by a zero gross income raises. */
  function RowOf(s: Scenario, parts: Result<Components, Error>): (r: Result<Row, Error>)
    ensures parts.Err? ==> r == Err(parts.error)
    ensures parts.Ok? && s.grossIncome == 0.0 ==> r == Err(DivisionByZero)
    ensures r.Ok? <==> parts.Ok? && s.grossIncome != 0.0
    ensures r.Ok? ==>
      && parts == Ok(r.value.parts)
      && r.value.name == s.base.name
      && r.value.grossIncome == s.grossIncome
      && r.value.companyExpenses == s.companyExpenses
      && r.value.retentionPct * s.grossIncome == 100.0 * r.value.parts.netIncome
  {
    if parts.Err? then Err(parts.error)
    else if s.grossIncome == 0.0 then Err(DivisionByZero)
    else
      Ok(Row(s.base.name, s.grossIncome, s.companyExpenses, parts.value,
             Retention(parts.value.netIncome, s.grossIncome)))
  }

  /**
   * One scenario, as the results loop computes it: the label selects the
   * branch, "ZZP" before "BV" before the default, and the row carries the
   * label, gross income and expenses through unchanged.
   */
  function Compute(s: Scenario): (r: Result<Row, Error>)
    ensures Contains(s.base.name, "ZZP") ==> r == RowOf(s, SelfEmployedBreakdown(s))
    ensures !Contains(s.base.name, "ZZP") && Contains(s.base.name, "BV") ==>
      r == RowOf(s, CompanyBreakdown(s))
    ensures !Contains(s.base.name, "ZZP") && !Contains(s.base.name, "BV") ==>
      r == RowOf(s, Ok(SalariedBreakdown(s)))
  {
    RowOf(s, BreakdownIn(BranchOf(s.base.name), s))
  }

  /**
   * The results loop: one row per scenario, in scenario order. The first
   * scenario that raises ends the loop, and its error is the outcome.
   */
  method ComputeResults(scenarios: seq<Scenario>) returns (results: Result<seq<Row>, Error>)
    ensures results.Ok? <==> forall i :: 0 <= i < |scenarios| ==> Compute(scenarios[i]).Ok?
    ensures results.Ok? ==>
      |results.value| == |scenarios|
      && forall i :: 0 <= i < |scenarios| ==> Ok(results.value[i]) == Compute(scenarios[i])
    ensures results.Err? ==>
      exists k :: 0 <= k < |scenarios| && Compute(scenarios[k]) == Err(results.error)
                  && forall i :: 0 <= i < k ==> Compute(scenarios[i]).Ok?
  {
    var rows: seq<Row> := [];
    for i := 0 to |scenarios|
      invariant |rows| == i
      invariant forall j :: 0 <= j < i ==> Ok(rows[j]) == Compute(scenarios[j])
    {
      var r := Compute(scenarios[i]);
      if r.Err? {
        return Err(r.error);
      }
      rows := rows + [r.value];
    }
    return Ok(rows);
  }

  /**
   * A structure computed the way it is meant to be: through the branch its
   * structure names rather than the one its label selects.
   */
  function ComputeIntended(f: Family, gross: real, expenses: real): (r: Result<Row, Error>)
    ensures f != Payrolling ==> r == Compute(Scenario(Base(f), gross, expenses))
    ensures f == Payrolling ==>
      var s := Scenario(Base(f), gross, expenses);
      r == RowOf(s, Ok(SalariedBreakdown(s)))
    ensures f == Payrolling && r.Ok? ==>
      var c := r.value.parts;
      c.netIncome + c.personalTax + c.socialSecurity + expenses == gross
  {
    LabelKeywords(f);
    var s := Scenario(Base(f), gross, expenses);
    RowOf(s, BreakdownIn(IntendedBranch(f), s))
  }

  /**
   * As written, Payrolling takes the company branch with the whole gross
   * income as salary: the expenses are neither deducted nor accounted for,
   * so the parts add up to gross income and, with the expenses, to more.
   */
  lemma PayrollingIgnoresExpenses(gross: real, expenses: real)
    requires gross != 0.0 && expenses >= 0.0
    ensures var r := Compute(Scenario(Base(Payrolling), gross, expenses));
      && r.Ok?
      && r.value.parts.netIncome + r.value.parts.personalTax + r.value.parts.socialSecurity == gross
      && (expenses > 0.0 ==>
            r.value.parts.netIncome + r.value.parts.personalTax + r.value.parts.socialSecurity
            + expenses != gross)
  {
    LabelKeywords(Payrolling);
  }

  /**
   * "BV with Full Salary" drops the expenses in the same way: the salary is
   * the whole gross income, so corporate income is never positive and the
   * parts add up to gross income without the expenses.
   */
  lemma BvFullSalaryIgnoresExpenses(gross: real, expenses: real)
    requires gross != 0.0 && expenses >= 0.0
    ensures var r := Compute(Scenario(Base(BvFullSalary), gross, expenses));
      && r.Ok?
      && r.value.parts.netIncome + r.value.parts.personalTax + r.value.parts.socialSecurity == gross
      && (expenses > 0.0 ==>
            r.value.parts.netIncome + r.value.parts.personalTax + r.value.parts.socialSecurity
            + expenses != gross)
  {
    LabelKeywords(BvFullSalary);
  }

  /**
   * In every BV structure, expenses beyond what is left after the salary
   * are deducted nowhere: the parts add up to the salary, and with the
   * expenses to more than gross income.
   */
  lemma CompanyExcessExpensesUnaccounted(s: Scenario)
    requires CorporateIncome(s) < 0.0
    ensures var r := CompanyBreakdown(s);
      && r.Ok?
      && r.value.netIncome + r.value.personalTax + r.value.socialSecurity == Salary(s.base.name, s.grossIncome)
      && r.value.netIncome + r.value.personalTax + r.value.corporateTax + r.value.dividendTax
         + r.value.socialSecurity + s.companyExpenses > s.grossIncome
  {
  }

  /** "BV with €60k Salary" at 100000 gross with 70000 expenses: the parts add up to the 40000 salary. */
  lemma Bv60kExcessExpenses()
    ensures var r := Compute(Scenario(Base(Bv60k), 100000.0, 70000.0));
      && r.Ok?
      && r.value.parts.netIncome + r.value.parts.personalTax + r.value.parts.socialSecurity == 40000.0
  {
    LabelKeywords(Bv60k);
    CompanyExcessExpensesUnaccounted(Scenario(Base(Bv60k), 100000.0, 70000.0));
  }

  /**
   * With 150000 gross and 10000 expenses, Payrolling as written keeps
   * 69990, where the salaried rules it is meant to follow keep 65324.
   */
  lemma PayrollingCounterexample()
    ensures Compute(Scenario(Base(Payrolling), 150000.0, 10000.0)).Ok?
    ensures Compute(Scenario(Base(Payrolling), 150000.0, 10000.0)).value.parts.netIncome == 69990.0
    ensures ComputeIntended(Payrolling, 150000.0, 10000.0).Ok?
    ensures ComputeIntended(Payrolling, 150000.0, 10000.0).value.parts.netIncome == 65324.0
  {
    LabelKeywords(Payrolling);
  }

  /**
   * On the fixed table no key is missing while expenses are not negative,
   * so every structure computes once gross income is not zero.
   */
  lemma TableComputes(f: Family, gross: real, expenses: real)
    requires expenses >= 0.0
    ensures Compute(Scenario(Base(f), gross, expenses)).Ok? <==> gross != 0.0
  {
    LabelKeywords(f);
  }

  /**
   * The company structures with a full salary need a corporate tax rate as
   * soon as expenses are negative, and the table gives them none.
   */
  lemma FullSalaryNeedsCorporateRate(gross: real, expenses: real)
    requires expenses < 0.0
    ensures Compute(Scenario(Base(BvFullSalary), gross, expenses)) == Err(MissingKey("corporate_tax_rate"))
    ensures Compute(Scenario(Base(Payrolling), gross, expenses)) == Err(MissingKey("corporate_tax_rate"))
  {
    LabelKeywords(BvFullSalary);
    LabelKeywords(Payrolling);
  }

  /** Regular salary at 150000 with no expenses: 59415 income tax, 10035 social security, 80550 kept. */
  lemma RegularSalaryExample()
    ensures Compute(Scenario(Base(RegularSalary), 150000.0, 0.0))
         == Ok(Row("Regular Salary", 150000.0, 0.0, Components(80550.0, 59415.0, 0.0, 0.0, 10035.0), 53.7))
  {
    LabelKeywords(RegularSalary);
  }

  /** ZZP at 100 per hour for 36 hours: 172800 gross, 170330 taxable after the deduction. */
  lemma ZzpHourlyExample()
    ensures ColumnGross(Base(Zzp), IncomeEntry(100.0, 36.0, 0.0)) == 172800.0
    ensures Compute(Scenario(Base(Zzp), 172800.0, 0.0)).Ok?
    ensures Compute(Scenario(Base(Zzp), 172800.0, 0.0)).value.parts
         == Components(102862.287, 67467.713, 0.0, 0.0, 0.0)
  {
    LabelKeywords(Zzp);
  }

  /** BV with a €60k salary at 100000 gross: the salary is 40 percent, 40000, and the company keeps the rest. */
  lemma Bv60kExample(expenses: real)
    ensures Salary(LabelOf(Bv60k), 100000.0) == 40000.0
    ensures CorporateIncome(Scenario(Base(Bv60k), 100000.0, expenses)) == 60000.0 - expenses
  {
    LabelKeywords(Bv60k);
  }

  /** `TableComputes` for every column of the table at once. */
  lemma TableColumnsCompute(gross: real, expenses: seq<real>)
    requires |expenses| == |Families|
    requires forall i :: 0 <= i < |expenses| ==> expenses[i] >= 0.0
    ensures forall i :: 0 <= i < |Families| ==>
      (Compute(Scenario(Base(Families[i]), gross, expenses[i])).Ok? <==> gross != 0.0)
  {
    forall i | 0 <= i < |Families|
      ensures Compute(Scenario(Base(Families[i]), gross, expenses[i])).Ok? <==> gross != 0.0
    {
      TableComputes(Families[i], gross, expenses[i]);
    }
  }

  /**
   * The whole page on the fixed table: build the six scenarios from the
   * column inputs, then compute their rows. With expenses that are not
   * negative and a last-column gross income that is not zero, every row
   * is there, in table order, for that one gross income.
   */
  method CompareTable(entries: seq<IncomeEntry>, expenses: seq<real>) returns (results: Result<seq<Row>, Error>)
    requires |entries| == |BaseTable| && |expenses| == |BaseTable|
    ensures (forall i :: 0 <= i < |expenses| ==> expenses[i] >= 0.0) ==>
      (results.Ok? <==> LastColumnGross(BaseTable, entries) != 0.0)
    ensures results.Ok? ==>
      |results.value| == |Families|
      && forall i :: 0 <= i < |Families| ==>
           Ok(results.value[i])
           == Compute(Scenario(Base(Families[i]), LastColumnGross(BaseTable, entries), expenses[i]))
  {
    var scenarios := Assemble(BaseTable, entries, expenses);
    var gross := LastColumnGross(BaseTable, entries);
    assert forall i :: 0 <= i < |scenarios| ==> scenarios[i] == Scenario(Base(Families[i]), gross, expenses[i]);
    results := ComputeResults(scenarios);
    if forall i :: 0 <= i < |expenses| ==> expenses[i] >= 0.0 {
      TableColumnsCompute(gross, expenses);
    }
  }

  /** `TableComputes` for the corrected dispatch. */
  lemma TableComputesIntended(f: Family, gross: real, expenses: real)
    requires expenses >= 0.0
    ensures ComputeIntended(f, gross, expenses).Ok? <==> gross != 0.0
  {
    if f != Payrolling {
      TableComputes(f, gross, expenses);
    }
  }

  /** `TableComputesIntended` for every column, each on its own gross income. */
  lemma TableColumnsComputeIntended(entries: seq<IncomeEntry>, expenses: seq<real>)
    requires |entries| == |Families| && |expenses| == |Families|
    requires forall i :: 0 <= i < |expenses| ==> expenses[i] >= 0.0
    ensures forall i :: 0 <= i < |Families| ==>
      (ComputeIntended(Families[i], ColumnGross(BaseTable[i], entries[i]), expenses[i]).Ok?
       <==> ColumnGross(BaseTable[i], entries[i]) != 0.0)
  {
    forall i | 0 <= i < |Families|
      ensures ComputeIntended(Families[i], ColumnGross(BaseTable[i], entries[i]), expenses[i]).Ok?
              <==> ColumnGross(BaseTable[i], entries[i]) != 0.0
    {
      TableComputesIntended(Families[i], ColumnGross(BaseTable[i], entries[i]), expenses[i]);
    }
  }

  /**
   * The results loop with the corrected dispatch: scenario i is computed
   * through the branch of structure i.
   */
  method ComputeIntendedResults(families: seq<Family>, scenarios: seq<Scenario>)
    returns (results: Result<seq<Row>, Error>)
    requires |families| == |scenarios|
    ensures results.Ok? <==> forall i :: 0 <= i < |scenarios| ==>
      ComputeIntended(families[i], scenarios[i].grossIncome, scenarios[i].companyExpenses).Ok?
    ensures results.Ok? ==>
      |results.value| == |scenarios|
      && forall i :: 0 <= i < |scenarios| ==>
           Ok(results.value[i]) == ComputeIntended(families[i], scenarios[i].grossIncome, scenarios[i].companyExpenses)
  {
    var rows: seq<Row> := [];
    for i := 0 to |scenarios|
      invariant |rows| == i
      invariant forall j :: 0 <= j < i ==>
        Ok(rows[j]) == ComputeIntended(families[j], scenarios[j].grossIncome, scenarios[j].companyExpenses)
    {
      var r := ComputeIntended(families[i], scenarios[i].grossIncome, scenarios[i].companyExpenses);
      if r.Err? {
        return Err(r.error);
      }
      rows := rows + [r.value];
    }
    return Ok(rows);
  }

  /**
   * The page as it is evidently meant to work: every column is computed on
   * its own gross income, and every structure through its intended branch.
   */
  method CompareTableIntended(entries: seq<IncomeEntry>, expenses: seq<real>)
    returns (results: Result<seq<Row>, Error>)
    requires |entries| == |BaseTable| && |expenses| == |BaseTable|
    ensures (forall i :: 0 <= i < |expenses| ==> expenses[i] >= 0.0) ==>
      (results.Ok? <==> forall i :: 0 <= i < |Families| ==> ColumnGross(BaseTable[i], entries[i]) != 0.0)
    ensures results.Ok? ==>
      |results.value| == |Families|
      && forall i :: 0 <= i < |Families| ==>
           Ok(results.value[i])
           == ComputeIntended(Families[i], ColumnGross(BaseTable[i], entries[i]), expenses[i])
  {
    if forall j :: 0 <= j < |expenses| ==> expenses[j] >= 0.0 {
      TableColumnsComputeIntended(entries, expenses);
    }
    var scenarios := BuildScenariosPerColumn(BaseTable, entries, expenses);
    results := ComputeIntendedResults(Families, scenarios);
  }
}
