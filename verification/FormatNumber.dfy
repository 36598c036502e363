/** Number formatting (scripts/utils/printUtils.ts), over the reals. */
module FormatNumber {

  datatype Scale = One | Thousand | Million

  /** The parts of the printed text: sign, rounded number, and a suffix such as " M (e18)". */
  datatype Formatted = Formatted(positive: bool, mantissa: real, scale: Scale, e18: bool)

  function Suffix(f: Formatted): string {
    (match f.scale case One => "" case Thousand => " k" case Million => " M") + if f.e18 then " (e18)" else ""
  }

  /** What one whole unit of the printed number stands for. */
  function Unit(f: Formatted): (u: real)
    ensures u >= 1.0
  {
    match (f.scale, f.e18)
    case (One, false) => 1.0
    case (Thousand, false) => 1000.0
    case (Million, false) => 1000000.0
    case (One, true) => 1000000000000000000.0
    case (Thousand, true) => 1000000000000000000000.0
    case (Million, true) => 1000000000000000000000000.0
  }

  /** The suffix alone tells a reader the unit. */
  lemma SuffixNamesUnit(f: Formatted, g: Formatted)
    ensures Suffix(f) == Suffix(g) ==> Unit(f) == Unit(g)
  {
    assert |Suffix(f)| == (if f.scale.One? then 0 else 2) + if f.e18 then 6 else 0;
    assert |Suffix(g)| == (if g.scale.One? then 0 else 2) + if g.e18 then 6 else 0;
    assert !f.scale.One? ==> Suffix(f)[1] == if f.scale.Thousand? then 'k' else 'M';
    assert !g.scale.One? ==> Suffix(g)[1] == if g.scale.Thousand? then 'k' else 'M';
  }

  /** Six suffixes are printed, and what each of them stands for. */
  lemma SuffixesNameUnits(f: Formatted)
    ensures Suffix(f) in ["", " k", " M", " (e18)", " k (e18)", " M (e18)"]
    ensures Suffix(f) == "" ==> Unit(f) == 1.0
    ensures Suffix(f) == " k" ==> Unit(f) == 1000.0
    ensures Suffix(f) == " M" ==> Unit(f) == 1000.0 * 1000.0
    ensures Suffix(f) == " (e18)" ==> Unit(f) == 1000000.0 * 1000000.0 * 1000000.0
    ensures Suffix(f) == " k (e18)" ==> Unit(f) == 1000.0 * 1000000.0 * 1000000.0 * 1000000.0
    ensures Suffix(f) == " M (e18)" ==> Unit(f) == 1000000.0 * 1000000.0 * 1000000.0 * 1000000.0
  {
    var s := Suffix(f);
    match (f.scale, f.e18)
    case (One, false) => assert s == "";
    case (Thousand, false) => assert s == " k" && s[1] == 'k';
    case (Million, false) => assert s == " M" && s[1] == 'M';
    case (One, true) => assert s == " (e18)" && s[1] == '(';
    case (Thousand, true) => assert s == " k (e18)" && s[1] == 'k';
    case (Million, true) => assert s == " M (e18)" && s[1] == 'M';
  }

  /** Rounded to hundredths, halves upwards. */
  function Hundredths(x: real): int {
    (x * 100.0 + 0.5).Floor
  }

  function Abs(x: real): real {
    if x >= 0.0 then x else -x
  }

  method FormatNumber(x: real) returns (ret: Formatted)
    ensures ret == Format(x)
  {
    var positive := x >= 0.0;
    var absX := Abs(x);
    var e18 := false;
    var scale := One;
    if absX >= 100000000000000000.0 {
      absX := absX / 1000000000000000000.0;
      e18 := true;
    }
    if absX > 1000000.0 {
      absX := absX / 1000000.0;
      scale := Million;
    } else if absX > 1000.0 {
      absX := absX / 1000.0;
      scale := Thousand;
    }
    var xRound := Hundredths(absX) as real / 100.0;
    ret := Formatted(positive, xRound, scale, e18);
  }

  /** The same by unit: which of the six intervals the size lies in. */
  function Format(x: real): Formatted {
    var a := Abs(x);
    var e18 := a >= 100000000000000000.0;
    var scale :=
      if e18 then (if a > 1000000000000000000000000.0 then Million
                   else if a > 1000000000000000000000.0 then Thousand else One)
      else (if a > 1000000.0 then Million else if a > 1000.0 then Thousand else One);
    Formatted(x >= 0.0, Hundredths(a / Unit(Formatted(true, 0.0, scale, e18))) as real / 100.0, scale, e18)
  }

  /** The printed number without its sign. */
  function Size(f: Formatted): real {
    f.mantissa * Unit(f)
  }

  /** The number a reader takes from the printed text. */
  function ReadBack(f: Formatted): real {
    if f.positive then Size(f) else -Size(f)
  }

  lemma HundredthsBound(y: real)
    ensures y - 0.005 < Hundredths(y) as real / 100.0 <= y + 0.005
  {
  }

  lemma SizeIsClose(x: real)
    ensures var f := Format(x); Abs(x) - 0.005 * Unit(f) <= Size(f) <= Abs(x) + 0.005 * Unit(f)
  {
    var f := Format(x);
    match (f.scale, f.e18)
    case (One, false) => HundredthsBound(Abs(x));
    case (Thousand, false) => HundredthsBound(Abs(x) / 1000.0);
    case (Million, false) => HundredthsBound(Abs(x) / 1000000.0);
    case (One, true) => HundredthsBound(Abs(x) / 1000000000000000000.0);
    case (Thousand, true) => HundredthsBound(Abs(x) / 1000000000000000000000.0);
    case (Million, true) => HundredthsBound(Abs(x) / 1000000000000000000000000.0);
  }

  /** What is read back is within half a hundredth of the printed unit. */
  lemma ReadBackIsClose(x: real)
    ensures var f := Format(x); Abs(ReadBack(f) - x) <= 0.005 * Unit(f)
  {
    SizeIsClose(x);
  }

  // ---------- Order ----------

  /** The six intervals of sizes, smallest first; each but the first starts at a boundary. */
  function Interval(f: Formatted): nat {
    (match f.scale case One => 0 case Thousand => 1 case Million => 2) + if f.e18 then 3 else 0
  }

  const BOUNDARIES: seq<real> := [
    0.0, 1000.0, 1000000.0, 100000000000000000.0, 1000000000000000000000.0, 1000000000000000000000000.0]

  /** A size never reads back below its own interval's boundary, nor above the next one. */
  lemma SizeWithinInterval(a: real)
    requires a >= 0.0
    ensures var f := Format(a);
            && BOUNDARIES[Interval(f)] <= a && BOUNDARIES[Interval(f)] <= Size(f)
            && (Interval(f) < 5 ==> a <= BOUNDARIES[Interval(f) + 1] && Size(f) <= BOUNDARIES[Interval(f) + 1])
  {
    var f := Format(a);
    match (f.scale, f.e18)
    case (One, false) => assert 0 <= Hundredths(a) <= 100000;
    case (Thousand, false) => assert 100 <= Hundredths(a / 1000.0) <= 100000;
    case (Million, false) => assert 100 <= Hundredths(a / 1000000.0) <= 10000000000000;
    case (One, true) => assert 10 <= Hundredths(a / 1000000000000000000.0) <= 100000;
    case (Thousand, true) => assert 100 <= Hundredths(a / 1000000000000000000000.0) <= 100000;
    case (Million, true) => assert 100 <= Hundredths(a / 1000000000000000000000000.0);
  }

  lemma HundredthsOrder(y: real, z: real)
    requires y <= z
    ensures Hundredths(y) <= Hundredths(z)
  {
  }

  lemma SameIntervalOrder(a: real, b: real)
    requires 0.0 <= a <= b && Interval(Format(a)) == Interval(Format(b))
    ensures Size(Format(a)) <= Size(Format(b))
  {
    var f := Format(a);
    match (f.scale, f.e18)
    case (One, false) => HundredthsOrder(a, b);
    case (Thousand, false) => HundredthsOrder(a / 1000.0, b / 1000.0);
    case (Million, false) => HundredthsOrder(a / 1000000.0, b / 1000000.0);
    case (One, true) => HundredthsOrder(a / 1000000000000000000.0, b / 1000000000000000000.0);
    case (Thousand, true) => HundredthsOrder(a / 1000000000000000000000.0, b / 1000000000000000000000.0);
    case (Million, true) => HundredthsOrder(a / 1000000000000000000000000.0, b / 1000000000000000000000000.0);
  }

  lemma IntervalOrder(a: real, b: real)
    requires 0.0 <= a <= b
    ensures Interval(Format(a)) <= Interval(Format(b))
  {
  }

  lemma BoundariesRise(i: nat, j: nat)
    requires i < j < |BOUNDARIES|
    ensures BOUNDARIES[i + 1] <= BOUNDARIES[j]
  {
  }

  lemma SizeOrder(a: real, b: real)
    requires 0.0 <= a <= b
    ensures Size(Format(a)) <= Size(Format(b))
  {
    IntervalOrder(a, b);
    if Interval(Format(a)) == Interval(Format(b)) {
      SameIntervalOrder(a, b);
    } else {
      SizeWithinInterval(a);
      SizeWithinInterval(b);
      BoundariesRise(Interval(Format(a)), Interval(Format(b)));
    }
  }

  lemma SizeOfNegative(x: real)
    requires x < 0.0
    ensures Size(Format(x)) == Size(Format(-x)) >= 0.0
  {
    SizeWithinInterval(-x);
  }

  /** Larger numbers never read back smaller, across all boundaries and through zero. */
  lemma ReadBackIsMonotone(x: real, y: real)
    requires x <= y
    ensures ReadBack(Format(x)) <= ReadBack(Format(y))
  {
    if x >= 0.0 {
      SizeOrder(x, y);
    } else {
      SizeOfNegative(x);
      if y >= 0.0 {
        SizeWithinInterval(y);
      } else {
        SizeOfNegative(y);
        SizeOrder(-y, -x);
      }
    }
  }
}
