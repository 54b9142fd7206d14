# Income scenario calculator: a Dafny model

The calculator compares six ways of earning an income in the Netherlands:
- a regular salary;
- self-employment (ZZP);
- three variants of working through a private limited company (BV);
- payrolling.

Each structure is one entry of a fixed base table that holds its label and rates. For each structure, the page reads either an hourly rate and weekly hours or an annual gross income, plus the company expenses. It builds one complete scenario per structure and runs one tax breakdown per scenario. The breakdown computes:
- net income;
- personal income tax;
- corporate tax;
- dividend tax;
- social security;
- retention, which is net income as a percentage of gross.

The calculator never inspects a structure directly. It chooses the computation by testing the label for substrings: "ZZP", then "BV", then the default branch. Inside the BV branch, "€60k" caps the salary and "Dividend" adds dividend tax.

The model has four modules:

- `Wrappers`: `Option` and `Result`.
- `Labels`:
  - Python's substring test `k in s` as `Contains`;
  - the six labels;
  - the branch selection `BranchOf`;
  - the keyword facts of every label.
- `Scenarios`:
  - the base table `Base`;
  - the gross income a column stands for, computed from 48 working weeks for hourly columns;
  - the two input loops as methods that build sequences.
- `TaxCalculator`:
  - the ZZP and BV branches as functions returning a `Result`, where a missing dictionary key becomes `Err(MissingKey(key))`;
  - the default branch as a function returning plain `Components`: it reads only `income_tax_rate`, which every entry has (`incomeTaxRate` is not optional), and `social_security_rate` through `.get(..., 0)`, so it cannot fail;
  - the results row, where a zero gross income becomes `Err(DivisionByZero)`, as Python's `ZeroDivisionError`;
  - the results loop as a method;
  - the whole page on the fixed table.

Money and rates are `real`, so every accounting identity holds exactly.

The code departs from what the page evidently means to compute in three places:

1. Payrolling goes down the BV branch. The label "Payrolling[No BV]" names a structure with no company, which should be taxed as salaried. But the label contains "BV", so the code sends it down the company branch with the whole gross income as salary.
2. Every column is computed on the same gross income. The builder reads the `gross_income` variable left over from the income loop (scenario.py:109), so every scenario gets the last column's gross income instead of its own.
3. The BV branch deducts expenses only from corporate income (scenario.py:142-154). When the expenses exceed what is left after the salary, the excess is deducted nowhere, and the parts plus the expenses come to more than gross income. For "BV with Full Salary" and payrolling, where the salary is all of gross, this holds for any positive expenses.

The model follows the code (`Compute`, `CompareTable`). For the first two, it also models the intended behaviour (`ComputeIntended`, `BuildScenariosPerColumn`, `CompareTableIntended`); both are in "## Findings". The third is modelled as written and stated by `CompanyExcessExpensesUnaccounted`, `BvFullSalaryIgnoresExpenses` and `PayrollingIgnoresExpenses`.

## Model

| member | source | states |
|---|---|---|
| Labels.Contains | scenario.py:126-146 | Python's `keyword in label`, as "some index starts an occurrence"; an empty keyword is always contained, and a contained keyword is no longer than the label |
| Labels.PrefixOrTail | scenario.py:126-146 | the recursive reading of `in`, both directions: the keyword is contained exactly when it is a prefix of the label or is contained in the label's tail |
| Labels.Found | scenario.py:126 | an occurrence of the keyword at some index makes the substring test true |
| Labels.Absent | scenario.py:126 | a keyword whose first character never occurs in the label is not contained in it |
| Labels.BranchOf | scenario.py:126-164 | the branch is the ZZP branch exactly when the label contains "ZZP"; it is the BV branch exactly when the label contains "BV" but not "ZZP"; it is the default branch exactly when the label contains neither |
| Labels.LabelKeywords | scenario.py:11-53 | for each of the six table labels: which of "ZZP", "BV", "€60k" and "Dividend" it contains, both directions; "Payrolling[No BV]" contains "BV" |
| Labels.LabelSelectsIntendedBranch | scenario.py:126-164 | every structure except Payrolling reaches the branch it is meant for |
| Labels.PayrollingLabelSelectsCompany | scenario.py:48 | the Payrolling label selects the BV branch, although the structure is meant to be salaried |
| Scenarios.Base | scenario.py:11-53 | each structure's entry: its label; income tax 0.3961, or 0.4665 for payrolling; social security 0.0669 for all but ZZP; the deduction key only for ZZP; the corporate rate and retained ratio only for the two "€60k" entries; the dividend rate only for the dividend entry; hourly input for all but the regular salary |
| Scenarios.BaseTableFollowsFamilies | scenario.py:11-53 | the table has six entries, entry i is structure i's, and every structure appears exactly once |
| Scenarios.ColumnGross | scenario.py:64-92 | an hourly column's gross income is rate × hours × 48, not negative for rates and hours that are not negative; any other column's is the annual gross entered |
| Scenarios.LeftoverGross | scenario.py:60-92 | after the income loop the one `gross_income` variable holds the last column's gross income; it holds nothing when there are no columns |
| Scenarios.BuildScenarios | scenario.py:94-111 | one scenario per base entry, in order; each is a copy of its base entry with its own expenses and the given gross income |
| Scenarios.Assemble | scenario.py:60-111 | both loops together: scenario i is base entry i with expenses i and the last column's gross income |
| Scenarios.LastColumnGrossOverridesFirst | scenario.py:60-109 | on the base table with every widget at its initial value (100 per hour, 36 hours, 150000 annual), the regular-salary column stands for 150000, but the scenarios are built with the last column's 172800 |
| Scenarios.BuildScenariosPerColumn | scenario.py:107-111 | corrected builder: scenario i carries its own column's gross income |
| TaxCalculator.Salary | scenario.py:134-137 | under "€60k" the salary is at most 60000, at most 40% of gross, and equal to one of the two; otherwise the salary is the whole gross income |
| TaxCalculator.SocialSecurityRate | scenario.py:156-163 | `scenario.get("social_security_rate", 0)`: the table's rate where the key is present, 0 where it is absent |
| TaxCalculator.CorporateIncome | scenario.py:142 | without "€60k", the negated expenses, because the salary is all of gross; under "€60k", the larger of 60% of gross and gross beyond 60000, less the expenses |
| TaxCalculator.SelfEmployedBreakdown | scenario.py:126-130 | taxable = gross − deduction − expenses, with no floor at zero; income tax is taxable × rate; net + income tax = taxable; the other components are 0; the missing deduction key is an error exactly when the key is absent |
| TaxCalculator.CompanyBreakdown | scenario.py:132-157 | a missing-key error exactly when corporate income is positive and the corporate rate is absent (that key is reported first), or the label says "Dividend" and the dividend rate is absent; income tax and social security are on the salary; with corporate income not positive, corporate and dividend tax are 0 and net = salary − income tax − social security; with it positive, corporate tax = corporate income × rate, dividend tax = (corporate income − corporate tax) × dividend rate under "Dividend" and 0 otherwise, and the parts plus expenses add up to gross |
| TaxCalculator.SalariedBreakdown | scenario.py:159-164 | taxable = gross − expenses; income tax and social security are taxable × their rates; net + income tax + social security = taxable; corporate and dividend tax are 0 |
| TaxCalculator.Retention | scenario.py:176 | retention × gross = 100 × net; retention is 100 exactly when net = gross; gross must not be zero |
| TaxCalculator.RowOf | scenario.py:166-177 | a branch error passes through; a zero gross income is a division-by-zero error; the row exists exactly when the breakdown succeeded and gross is not zero, and then it carries the label, gross, expenses and breakdown unchanged, and retention × gross = 100 × net |
| TaxCalculator.Compute | scenario.py:115-177 | a label containing "ZZP" takes the ZZP branch even if it also contains "BV"; a label with "BV" but not "ZZP" takes the BV branch; only a label with neither takes the default branch |
| TaxCalculator.ComputeResults | scenario.py:114-177 | all scenarios compute exactly when the result is a list; that list has one row per scenario, in order, each the scenario's own row; otherwise the error is that of the first scenario that fails |
| TaxCalculator.ComputeIntended | scenario.py:159-164 | corrected dispatch: equals `Compute` for every structure except Payrolling; Payrolling gets the salaried row, so net + income tax + social security + expenses = gross |
| TaxCalculator.PayrollingIgnoresExpenses | scenario.py:132-157 | as written, Payrolling's net + income tax + social security equals the whole gross income, so positive expenses are not accounted for |
| TaxCalculator.BvFullSalaryIgnoresExpenses | scenario.py:132-157 | "BV with Full Salary" in the same way: net + income tax + social security = gross, so positive expenses are not accounted for |
| TaxCalculator.CompanyExcessExpensesUnaccounted | scenario.py:142-157 | in every BV structure with a negative corporate income, the breakdown succeeds; its parts add up to the salary, and with the expenses they exceed gross income |
| TaxCalculator.Bv60kExcessExpenses | scenario.py:134-157 | "BV with €60k Salary" at 100000 gross with 70000 expenses: the parts add up to the 40000 salary |
| TaxCalculator.PayrollingCounterexample | scenario.py:48 | at 150000 gross and 10000 expenses, Payrolling as written keeps 69990; the salaried rules keep 65324 |
| TaxCalculator.TableComputes | scenario.py:11-53 | on the fixed table, with expenses that are not negative, a structure computes exactly when its gross income is not zero |
| TaxCalculator.TableColumnsCompute | scenario.py:11-53 | the same for all six columns at once |
| TaxCalculator.FullSalaryNeedsCorporateRate | scenario.py:142-144 | with negative expenses, "BV with Full Salary" and Payrolling fail on the missing corporate tax rate |
| TaxCalculator.RegularSalaryExample | scenario.py:159-164 | regular salary at 150000: income tax 59415, social security 10035, net 80550, retention 53.7% |
| TaxCalculator.ZzpHourlyExample | scenario.py:126-130 | ZZP at 100 per hour for 36 hours: gross 172800, income tax 67467.713, net 102862.287 |
| TaxCalculator.Bv60kExample | scenario.py:134-142 | "BV with €60k Salary" at 100000: salary 40000, corporate income 60000 − expenses |
| TaxCalculator.TableComputesIntended | scenario.py:11-53 | with the corrected dispatch, and expenses that are not negative, a structure computes exactly when its gross income is not zero |
| TaxCalculator.TableColumnsComputeIntended | scenario.py:11-53 | the same for all six columns, each on its own gross income |
| TaxCalculator.ComputeIntendedResults | scenario.py:114-177 | the results loop with the corrected dispatch: a list exactly when every scenario computes through its structure's intended branch; then one such row per scenario, in order |
| TaxCalculator.CompareTableIntended | scenario.py:58-177 | corrected page: each column on its own gross income and through its intended branch; with expenses that are not negative the result is a list exactly when no column's gross income is zero, and row i is structure i's intended row |
| TaxCalculator.CompareTable | scenario.py:58-177 | the whole page on the fixed table: with expenses that are not negative it gives a result list exactly when the last column's gross income is not zero; row i is then structure i's row for that gross income |

## Left out

- The Streamlit page is not modelled: page setup, headings, input widgets and columns (scenario.py:1-8, 56-57, 61-105, 183-245). The widget values are parameters of the builder methods (`IncomeEntry`, the expenses sequence). The widget bounds are UI policy that the computation does not check, and the model does not impose them.
- The pandas table, the currency and percentage formatting, and the plotly chart (scenario.py:179-245) are not modelled. They are display code over foreign libraries.
- IEEE floating-point rounding is not modelled: money and rates are exact reals, and the source's integer inputs are reals as well.
- `retained_income_ratio` is carried unchanged and never read by the computation. `needs_hourly` is read only to choose between the hourly and the annual input.

## Findings

| source | as written | input that shows it | evidently intended | confidence | as-written member | corrected member |
|---|---|---|---|---|---|---|
| scenario.py:48,132 | `"BV" in scenario_type` is true for "Payrolling[No BV]", so payrolling is taxed as a full-salary BV: salary = gross, and the expenses are accounted for nowhere (as in "BV with Full Salary", whose label does mean a company) | 150000 gross, 10000 expenses: net 69990 instead of 65324 | payrolling (no company) takes the salaried branch, where the expenses come off gross income | high; not executed | Labels.PayrollingLabelSelectsCompany, TaxCalculator.PayrollingIgnoresExpenses, TaxCalculator.PayrollingCounterexample | TaxCalculator.ComputeIntended, TaxCalculator.CompareTableIntended |
| scenario.py:109 | every scenario gets the `gross_income` left over from the income loop, i.e. the last column's | regular salary at 150000 beside hourly columns at 100 × 36: the regular-salary scenario is computed on 172800 | each scenario uses its own column's gross income | high; not executed | Scenarios.Assemble, Scenarios.LastColumnGrossOverridesFirst | Scenarios.BuildScenariosPerColumn, TaxCalculator.CompareTableIntended |
