/** The models of the personal-finance backend: the savings-goal progress, the
    amount validators, and the text each record shows for itself. Amounts are
    in cents. */
module SavingsModels {
  import opened Wrappers
  import Text

  /** `SavingsGoal.progress_percentage`: current over target as a percentage, or 0
      for a target that is not positive. */
  function ProgressPercentage(current: int, target: int): (p: real)
    ensures target <= 0 ==> p == 0.0
    ensures target > 0 ==> p * target as real == current as real * 100.0
  {
    if target > 0 then current as real / target as real * 100.0 else 0.0
  }

  /** No savings means 0%, reaching the target means 100%, and more saved never
      means less progress. */
  lemma ProgressLandmarks(current: int, other: int, target: int)
    requires target > 0
    ensures ProgressPercentage(0, target) == 0.0
    ensures ProgressPercentage(target, target) == 100.0
    ensures current <= other ==> ProgressPercentage(current, target) <= ProgressPercentage(other, target)
  {
    var t := target as real;
    assert ProgressPercentage(target, target) * t == t * 100.0;
    if current <= other {
      var a := ProgressPercentage(current, target);
      var b := ProgressPercentage(other, target);
      assert a * t <= b * t;
    }
  }

  /** `MinValueValidator(limit)` on an amount in cents. */
  function MinValue(value: int, limit: int, limitText: string): (r: Option<string>)
    ensures r.None? <==> value >= limit
  {
    if value < limit then Some("Ensure this value is greater than or equal to " + limitText + ".") else None
  }

  /** The bound `max_digits=10, decimal_places=2` puts on a two-place amount. */
  const DigitLimit := 10000000000

  /** The `DecimalValidator(10, 2)` every such field carries: a two-place amount has
      more than ten digits iff its size in cents reaches 10^10, whatever its sign. */
  function MaxDigits(cents: int): (r: Option<string>)
    ensures r.None? <==> -DigitLimit < cents < DigitLimit
  {
    if cents <= -DigitLimit || DigitLimit <= cents then
      Some("Ensure that there are no more than 10 digits in total.")
    else None
  }

  /** The errors of one amount field: a `DecimalField`'s validators are the
      declared ones followed by its own digit validator, so the `MinValueValidator`
      comes first; each is reported when it fails. */
  function FieldErrors(cents: int, limit: int, limitText: string): (errs: seq<string>)
    ensures errs == [] <==> limit <= cents && -DigitLimit < cents < DigitLimit
    ensures |errs| <= 2
    ensures MinValue(cents, limit, limitText).Some? ==> errs[0] == MinValue(cents, limit, limitText).value
    ensures MaxDigits(cents).Some? ==> errs[|errs| - 1] == MaxDigits(cents).value
  {
    var least := MinValue(cents, limit, limitText);
    var digits := MaxDigits(cents);
    (if least.Some? then [least.value] else []) + (if digits.Some? then [digits.value] else [])
  }

  /** A negative amount too wide for the field fails both, the minimum first. */
  lemma BothErrorsInOrder()
    ensures CheckAmount(-DigitLimit) ==
            ["Ensure this value is greater than or equal to 0.01.",
             "Ensure that there are no more than 10 digits in total."]
  {
    var head := "Ensure this value is greater than or equal to ";
    assert head + "0.01" + "." == "Ensure this value is greater than or equal to 0.01." by {
      assert |head + "0.01" + "."| == |"Ensure this value is greater than or equal to 0.01."|;
    }
    assert MaxDigits(-DigitLimit) == Some("Ensure that there are no more than 10 digits in total.");
  }

  /** `amount`/`target_amount`: at least 0.01 and under 10^8. */
  function CheckAmount(cents: int): (errs: seq<string>)
    ensures errs == [] <==> 1 <= cents < DigitLimit
  {
    FieldErrors(cents, 1, "0.01")
  }

  /** `current_amount`: at least 0.00 and under 10^8. */
  function CheckCurrent(cents: int): (errs: seq<string>)
    ensures errs == [] <==> 0 <= cents < DigitLimit
  {
    FieldErrors(cents, 0, "0.00")
  }

  /** A `Budget` as its validators see it: `month` carries none. */
  datatype Budget = Budget(username: string, categoryName: string, amount: int, month: int, year: int)

  /** The field errors of a budget under `full_clean`: only `amount` carries validators. */
  function BudgetErrors(b: Budget): (errs: seq<string>)
    ensures errs == [] <==> 1 <= b.amount < DigitLimit
  {
    CheckAmount(b.amount)
  }

  /** An amount of 10^8 or more is refused by the digit limit alone. */
  lemma HundredMillionRefused(username: string, categoryName: string, month: int, year: int)
    ensures BudgetErrors(Budget(username, categoryName, DigitLimit, month, year)) ==
            ["Ensure that there are no more than 10 digits in total."]
  {
  }

  /** Month 13 passes validation: the range 1-12 is only a comment. */
  lemma ThirteenthMonthAccepted(username: string, categoryName: string, year: int)
    ensures BudgetErrors(Budget(username, categoryName, 100, 13, year)) == []
  {
  }

  // ---- display texts ----

  /** `Category.__str__`: `"<name> (<type>)"`. */
  function CategoryStr(name: string, kind: string): (s: string)
    ensures |s| == |name| + |kind| + 3
    ensures name + " (" <= s && s[|name| + 2..|s| - 1] == kind && s[|s| - 1] == ')'
  {
    var s := name + " (" + kind + ")";
    assert s == (name + " (") + kind + ")";
    s
  }

  /** `Budget.__str__`: `"<username> - <category> - <month>/<year>"`. */
  function BudgetStr(b: Budget): (s: string)
    ensures var head := b.username + " - " + b.categoryName + " - ";
            var period := Text.IntText(b.month) + "/" + Text.IntText(b.year);
            |s| == |head| + |period| && head <= s && s[|head|..] == period
  {
    var head := b.username + " - " + b.categoryName + " - ";
    var period := Text.IntText(b.month) + "/" + Text.IntText(b.year);
    assert (head + period)[|head|..] == period;
    head + period
  }

  /** `Income.__str__` and `Expense.__str__`: `"<source or vendor> - $<amount>"`. */
  function AmountStr(title: string, cents: int): (s: string)
    ensures title + " - $" <= s && s[|title| + 4..] == Text.CentsText(cents)
    ensures Text.CentsValue(s[|title| + 4..]) == cents
  {
    var head := title + " - $";
    var amount := Text.CentsText(cents);
    assert (head + amount)[|head|..] == amount;
    Text.CentsTextValue(cents);
    head + amount
  }

  /** `SavingsGoal.__str__`: `"<name> - $<current>/$<target>"`; the two amounts
      read back from their places in the text. */
  function GoalStr(name: string, current: int, target: int): (s: string)
    ensures var c := |name| + 4 + |Text.CentsText(current)|;
            |s| == c + 2 + |Text.CentsText(target)| &&
            name + " - $" <= s &&
            s[|name| + 4..c] == Text.CentsText(current) &&
            s[c..c + 2] == "/$" &&
            s[c + 2..] == Text.CentsText(target) &&
            Text.CentsValue(s[|name| + 4..c]) == current &&
            Text.CentsValue(s[c + 2..]) == target
  {
    var head := name + " - $";
    var cur := Text.CentsText(current);
    var tgt := Text.CentsText(target);
    var s := head + cur + "/$" + tgt;
    assert s[|head|..|head| + |cur|] == cur;
    assert s[|head| + |cur|..|head| + |cur| + 2] == "/$";
    assert s[|head| + |cur| + 2..] == tgt;
    Text.CentsTextValue(current);
    Text.CentsTextValue(target);
    s
  }
}
