/** The computational core of the BMI screen: the formula `hitungBmi` and the
    sex-specific classification `getKategori`, over a model of Kotlin's `Float`. */
module Bmi {

  /** A Kotlin `Float` as this model sees it. A finite value is held exactly, as a
      real (no rounding); the three IEEE-754 special values are kept apart. The sign
      of zero is not kept: +0 and -0 compare equal and classify alike. */
  datatype Float = Finite(value: real) | PosInf | NegInf | NaN

  /** The three categories the screen can show, in increasing order of body mass:
      underweight, normal, overweight. */
  datatype Kategori = Kurus | Ideal | Gemuk

  /** The order kurus < ideal < gemuk. */
  function Rank(k: Kategori): nat
  {
    match k
    case Kurus => 0
    case Ideal => 1
    case Gemuk => 2
  }

  /** IEEE-754 `v < t` for a finite `t`: false whenever `v` is NaN. */
  predicate Less(v: Float, t: real)
  {
    match v
    case Finite(x) => x < t
    case NegInf => true
    case PosInf => false
    case NaN => false
  }

  /** IEEE-754 `v >= t` for a finite `t`: false whenever `v` is NaN. */
  predicate AtLeast(v: Float, t: real)
  {
    match v
    case Finite(x) => x >= t
    case NegInf => false
    case PosInf => true
    case NaN => false
  }

  /** IEEE-754 `a <= b`: a total order on everything but NaN, which is unordered. */
  predicate LessOrEqual(a: Float, b: Float)
  {
    if a.NaN? || b.NaN? then false
    else if a.NegInf? || b.PosInf? then true
    else if a.PosInf? || b.NegInf? then false
    else a.value <= b.value
  }

  /** The first BMI that is no longer kurus: 20.5 for men, 18.5 for women. */
  function KurusBelow(isMale: bool): real
  {
    if isMale then 20.5 else 18.5
  }

  /** The first BMI that is gemuk: 27.0 for men, 25.0 for women. */
  function GemukFrom(isMale: bool): real
  {
    if isMale then 27.0 else 25.0
  }

  /** A non-zero real has a positive square. */
  lemma SquarePositive(y: real)
    requires y != 0.0
    ensures y * y > 0.0
  {
    if y < 0.0 {
      assert y * y == (-y) * (-y);
    }
  }

  /** `(tinggi / 100).pow(2)`: the height in metres, squared. It is never
      negative, and NaN only for a NaN height. The square is exact here; the app
      rounds it to a `Float`, which turns it into 0 for tiny heights and into
      +Infinity for huge ones. */
  function MeterSquared(tinggi: Float): (sq: Float)
    ensures sq != NegInf
    ensures sq.NaN? <==> tinggi.NaN?
    ensures sq.Finite? ==> tinggi.Finite? && sq.value >= 0.0
    ensures tinggi.Finite? && tinggi.value != 0.0 ==> sq.Finite? && sq.value > 0.0
  {
    match tinggi
    case Finite(x) =>
      var m := x / 100.0;
      if m == 0.0 then Finite(0.0)
      else
        var square := m * m;
        assert square > 0.0 by {
          calc { square; == m * m; > { SquarePositive(m); } 0.0; }
        }
        Finite(square)
    case PosInf => PosInf
    case NegInf => PosInf
    case NaN => NaN
  }

  /** IEEE-754 division `berat / sq` by a divisor that is NaN, +Infinity or a
      finite value that is not negative (the only divisors `MeterSquared` yields). */
  function Quotient(berat: Float, sq: Float): (q: Float)
    requires sq != NegInf && (sq.Finite? ==> sq.value >= 0.0)
    ensures berat.Finite? && sq.Finite? && sq.value > 0.0 ==>
      q.Finite? && q.value * sq.value == berat.value
    ensures berat.Finite? && sq.Finite? && sq.value > 0.0 && berat.value > 0.0 ==> q.value > 0.0
    ensures berat.Finite? && sq == Finite(0.0) ==>
      q == (if berat.value > 0.0 then PosInf else if berat.value < 0.0 then NegInf else NaN)
    ensures berat.Finite? && sq.PosInf? ==> q == Finite(0.0)
    ensures !berat.Finite? && sq.Finite? ==> q == berat
    ensures q.NaN? <==>
      (berat.NaN? || sq.NaN? || (!berat.Finite? && sq.PosInf?) || (berat == Finite(0.0) && sq == Finite(0.0)))
  {
    if berat.NaN? || sq.NaN? then NaN
    else if sq.PosInf? then (if berat.Finite? then Finite(0.0) else NaN)
    else if !berat.Finite? then berat
    else if sq.value == 0.0 then
      (if berat.value > 0.0 then PosInf else if berat.value < 0.0 then NegInf else NaN)
    else Finite(berat.value / sq.value)
  }

  /** `hitungBmi`: the weight in kilograms divided by the square of the height in
      metres (the height is entered in centimetres). For a finite, non-zero height the
      result is finite and multiplying it back by the squared height gives the weight;
      a positive weight and height give a positive BMI. A zero height, which the
      input check lets through as "00" or "0.0", gives an infinite or NaN BMI. */
  function HitungBmi(berat: Float, tinggi: Float): (bmi: Float)
    ensures berat.Finite? && tinggi.Finite? && tinggi.value != 0.0 ==>
      bmi.Finite? && bmi.value * MeterSquared(tinggi).value == berat.value
    ensures berat.Finite? && tinggi.Finite? && berat.value > 0.0 && tinggi.value != 0.0 ==>
      bmi.Finite? && bmi.value > 0.0
    ensures berat.Finite? && tinggi == Finite(0.0) ==>
      bmi == (if berat.value > 0.0 then PosInf else if berat.value < 0.0 then NegInf else NaN)
    ensures berat.NaN? || tinggi.NaN? ==> bmi.NaN?
  {
    Quotient(berat, MeterSquared(tinggi))
  }

  /** `getKategori`: kurus below the lower threshold of the given sex, gemuk from
      its upper threshold on, ideal in between. A NaN BMI fails both comparisons
      and is therefore ideal. */
  function GetKategori(bmi: Float, isMale: bool): (k: Kategori)
    ensures k == Kurus <==> Less(bmi, KurusBelow(isMale))
    ensures k == Gemuk <==> AtLeast(bmi, GemukFrom(isMale))
    ensures k == Ideal <==> !Less(bmi, KurusBelow(isMale)) && !AtLeast(bmi, GemukFrom(isMale))
  {
    if isMale then
      if Less(bmi, 20.5) then Kurus
      else if AtLeast(bmi, 27.0) then Gemuk
      else Ideal
    else
      if Less(bmi, 18.5) then Kurus
      else if AtLeast(bmi, 25.0) then Gemuk
      else Ideal
  }

  /** The boundaries for men: exactly 20.5 is ideal and exactly 27.0 is gemuk. */
  lemma MaleBoundaries()
    ensures GetKategori(Finite(20.49), true) == Kurus
    ensures GetKategori(Finite(20.5), true) == Ideal
    ensures GetKategori(Finite(26.99), true) == Ideal
    ensures GetKategori(Finite(27.0), true) == Gemuk
  {
  }

  /** The boundaries for women: exactly 18.5 is ideal and exactly 25.0 is gemuk. */
  lemma FemaleBoundaries()
    ensures GetKategori(Finite(18.49), false) == Kurus
    ensures GetKategori(Finite(18.5), false) == Ideal
    ensures GetKategori(Finite(24.99), false) == Ideal
    ensures GetKategori(Finite(25.0), false) == Gemuk
  {
  }

  /** For a fixed sex the classification never goes down as the BMI goes up. */
  lemma KategoriMonotone(a: Float, b: Float, isMale: bool)
    requires LessOrEqual(a, b)
    ensures Rank(GetKategori(a, isMale)) <= Rank(GetKategori(b, isMale))
  {
  }

  /** The special values: -Infinity is kurus, +Infinity is gemuk, NaN is ideal. */
  lemma SpecialValues(isMale: bool)
    ensures GetKategori(NegInf, isMale) == Kurus
    ensures GetKategori(PosInf, isMale) == Gemuk
    ensures GetKategori(NaN, isMale) == Ideal
  {
  }

  /** 70 kg at 175 cm: a BMI of about 22.857, ideal for either sex. */
  lemma SeventyKilosAt175Centimetres()
    ensures HitungBmi(Finite(70.0), Finite(175.0)) == Finite(70.0 / 3.0625)
    ensures 22.857 < HitungBmi(Finite(70.0), Finite(175.0)).value < 22.858
    ensures GetKategori(HitungBmi(Finite(70.0), Finite(175.0)), true) == Ideal
    ensures GetKategori(HitungBmi(Finite(70.0), Finite(175.0)), false) == Ideal
  {
  }

  /** Dividing by a positive number keeps the order of the dividends. */
  lemma DivideMonotone(x: real, y: real, d: real)
    requires x <= y && d > 0.0
    ensures x / d <= y / d
  {
  }

  /** A larger positive divisor gives a smaller quotient of a dividend that is not
      negative. */
  lemma DivisorAntitone(x: real, d1: real, d2: real)
    requires x >= 0.0 && 0.0 < d1 <= d2
    ensures x / d2 <= x / d1
  {
  }

  /** Squaring keeps the order of positive numbers. */
  lemma SquareMonotone(a: real, b: real)
    requires 0.0 < a <= b
    ensures a * a <= b * b
  {
  }

  /** For a fixed height and sex, a heavier weight never gets a lower category. */
  lemma {:induction false} HeavierNeverLowerKategori(w1: real, w2: real, tinggi: Float, isMale: bool)
    requires w1 <= w2
    ensures Rank(GetKategori(HitungBmi(Finite(w1), tinggi), isMale))
         <= Rank(GetKategori(HitungBmi(Finite(w2), tinggi), isMale))
  {
    var sq := MeterSquared(tinggi);
    if sq.Finite? && sq.value > 0.0 {
      DivideMonotone(w1, w2, sq.value);
      KategoriMonotone(HitungBmi(Finite(w1), tinggi), HitungBmi(Finite(w2), tinggi), isMale);
    }
  }

  /** For a fixed weight that is not negative, a taller person never gets a
      higher category. */
  lemma {:induction false} TallerNeverHigherKategori(berat: real, t1: real, t2: real, isMale: bool)
    requires berat >= 0.0 && 0.0 < t1 <= t2
    ensures Rank(GetKategori(HitungBmi(Finite(berat), Finite(t2)), isMale))
         <= Rank(GetKategori(HitungBmi(Finite(berat), Finite(t1)), isMale))
  {
    var s1, s2 := MeterSquared(Finite(t1)).value, MeterSquared(Finite(t2)).value;
    SquareMonotone(t1 / 100.0, t2 / 100.0);
    DivisorAntitone(berat, s1, s2);
    KategoriMonotone(HitungBmi(Finite(berat), Finite(t2)), HitungBmi(Finite(berat), Finite(t1)), isMale);
  }

  /** With a positive squared height `s` and the weight `w == q * s` of a BMI `q`:
      the BMI is below a threshold `t` exactly when the weight is below `t * s`. */
  lemma ScaleThreshold(q: real, s: real, t: real, w: real)
    requires s > 0.0 && q * s == w
    ensures q < t <==> w < t * s
  {
    if q < t {
      calc { w; == q * s; < t * s; }
    } else {
      calc { w; == q * s; >= t * s; }
    }
  }

  /** The weights of each category for a given non-zero height: with `sq` the
      squared height in metres, kurus below `KurusBelow * sq`, gemuk from
      `GemukFrom * sq` on, ideal in between. */
  lemma {:induction false} KategoriByWeight(berat: real, tinggi: real, isMale: bool)
    requires tinggi != 0.0
    ensures var sq := MeterSquared(Finite(tinggi)).value;
      var k := GetKategori(HitungBmi(Finite(berat), Finite(tinggi)), isMale);
      && (k == Kurus <==> berat < KurusBelow(isMale) * sq)
      && (k == Gemuk <==> berat >= GemukFrom(isMale) * sq)
      && (k == Ideal <==> KurusBelow(isMale) * sq <= berat < GemukFrom(isMale) * sq)
  {
    var sq := MeterSquared(Finite(tinggi)).value;
    var bmi := HitungBmi(Finite(berat), Finite(tinggi));
    ScaleThreshold(bmi.value, sq, KurusBelow(isMale), berat);
    ScaleThreshold(bmi.value, sq, GemukFrom(isMale), berat);
  }
}
