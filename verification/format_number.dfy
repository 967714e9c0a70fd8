/** The magnitude bucketing of `formatNumber`: thresholds on the absolute value pick a
    billions, millions or thousands suffix, an exponential form for tiny values, or the plain
    form, and the value is scaled for the chosen suffix. The digits printed are not modelled. */
module NumberFormat {
  import opened RealMath

  const Thousand: real := 1000.0
  const Million: real := 1000000.0
  const Billion: real := 1000000000.0

  /** Below this magnitude the exponential form is used. */
  const ExponentialBelow: real := 0.000001

  datatype Form = Billions | Millions | Thousands | Exponential | PlainForm
  {
    function Suffix(): string {
      match this
      case Billions => "B"
      case Millions => "M"
      case Thousands => "K"
      case _ => ""
    }

    /** What the value is divided by before printing. */
    function Divisor(): real {
      match this
      case Billions => Billion
      case Millions => Million
      case Thousands => Thousand
      case _ => 1.0
    }

    /** The forms ordered by the magnitudes they cover. */
    function Rank(): nat {
      match this
      case Exponential => 0
      case PlainForm => 1
      case Thousands => 2
      case Millions => 3
      case Billions => 4
    }
  }

  /** The branch taken for a number and the value it goes on to print. */
  datatype Formatted = Formatted(form: Form, scaled: real)

  /** The threshold chain of `formatNumber`, first match wins. */
  function FormatNumber(n: real): (f: Formatted)
    ensures f.form == Billions <==> Abs(n) >= Billion
    ensures f.form == Millions <==> Million <= Abs(n) < Billion
    ensures f.form == Thousands <==> Thousand <= Abs(n) < Million
    ensures f.form == Exponential <==> Abs(n) < ExponentialBelow
    ensures f.form == PlainForm <==> ExponentialBelow <= Abs(n) < Thousand
    ensures f.form.Suffix() == "B" <==> Abs(n) >= Billion
    ensures f.form.Suffix() == "M" <==> Million <= Abs(n) < Billion
    ensures f.form.Suffix() == "K" <==> Thousand <= Abs(n) < Million
    ensures f.form.Suffix() == "" <==> Abs(n) < Thousand
    ensures f.scaled * f.form.Divisor() == n
  {
    var a := Abs(n);
    if a >= Billion then Formatted(Billions, n / Billion)
    else if a >= Million then Formatted(Millions, n / Million)
    else if a >= Thousand then Formatted(Thousands, n / Thousand)
    else if a < ExponentialBelow then Formatted(Exponential, n)
    else Formatted(PlainForm, n)
  }

  /** The branch depends only on the magnitude, and the scaled value keeps the sign. */
  lemma FormatSymmetric(n: real)
    ensures FormatNumber(-n).form == FormatNumber(n).form
    ensures FormatNumber(-n).scaled == -FormatNumber(n).scaled
  {
  }

  /** With a suffix the printed magnitude is at least one, and below a thousand for K and M. */
  lemma ScaledMagnitude(n: real)
    ensures FormatNumber(n).form in {Thousands, Millions} ==>
              1.0 <= Abs(FormatNumber(n).scaled) < Thousand
    ensures FormatNumber(n).form == Billions ==> Abs(FormatNumber(n).scaled) >= 1.0
  {
    var f := FormatNumber(n);
    var d := f.form.Divisor();
    if f.form in {Thousands, Millions, Billions} {
      assert Abs(f.scaled) * d == Abs(n);
    }
  }

  /** A larger magnitude never gets a form meant for smaller numbers. */
  lemma FormMonotone(a: real, b: real)
    requires Abs(a) <= Abs(b)
    ensures FormatNumber(a).form.Rank() <= FormatNumber(b).form.Rank()
  {
  }
}
