/** The state of the BMI screen and what pressing its button does to it. */
module Screen {
  import opened Bmi

  datatype Option<T> = None | Some(value: T)

  /** How one press of the button ended. */
  datatype SubmitOutcome =
    | Rejected     // an error flag was set and the handler returned early
    | ParseFailed  // both texts passed the check, but `toFloat` threw on one of them
    | Computed     // bmi and kategori were updated

  /** The input check: a field is in error exactly when its text is empty or the
      single character "0". Any other text, "00", "-5" or "abc" included, passes. */
  predicate IsInvalidInput(text: string)
    ensures IsInvalidInput(text) <==> |text| <= 1 && forall i :: 0 <= i < |text| ==> text[i] == '0'
  {
    text == "" || text == "0"
  }

  /** What the check lets through and what it stops. */
  lemma InvalidInputExamples()
    ensures IsInvalidInput("") && IsInvalidInput("0")
    ensures !IsInvalidInput("70") && !IsInvalidInput("00") && !IsInvalidInput("0.0")
    ensures !IsInvalidInput("-5") && !IsInvalidInput("abc")
  {
  }

  /** The remembered state of the screen. */
  class ScreenState {
    var berat: string            // weight field text, in kilograms
    var beratError: bool
    var tinggi: string           // height field text, in centimetres
    var tinggiError: bool
    var isMale: bool             // the first of the two sex options is selected
    var bmi: Float
    var kategori: Option<Kategori>

    /** No category is shown before the first computation, while the BMI still
        holds its initial zero; afterwards the category is that of the stored BMI
        for one of the two sexes (the selection may have changed since). */
    ghost predicate Valid()
      reads this
    {
      && (kategori == None ==> bmi == Finite(0.0))
      && (kategori.Some? ==>
            kategori.value == GetKategori(bmi, true) || kategori.value == GetKategori(bmi, false))
    }

    /** Empty fields without errors, the first sex option selected, a BMI of
        zero and no category. */
    constructor ()
      ensures berat == "" && !beratError && tinggi == "" && !tinggiError
      ensures isMale
      ensures bmi == Finite(0.0) && kategori == None
      ensures Valid()
    {
      berat, beratError := "", false;
      tinggi, tinggiError := "", false;
      isMale := true;
      bmi, kategori := Finite(0.0), None;
    }

    /** The button's handler. Both error flags are recomputed from the current texts,
        so an earlier error is cleared once its field is valid. If either flag is set,
        nothing else changes. Otherwise both texts are converted by `toFloat` (None
        stands for the exception it throws on text that is not a number); when both
        convert, bmi becomes `HitungBmi` of the two values and kategori the category
        of that BMI for the selected sex. The texts and the selection never change. */
    method Submit(toFloat: string -> Option<Float>) returns (outcome: SubmitOutcome)
      requires Valid()
      modifies this
      ensures Valid()
      ensures berat == old(berat) && tinggi == old(tinggi) && isMale == old(isMale)
      ensures beratError == IsInvalidInput(berat) && tinggiError == IsInvalidInput(tinggi)
      ensures outcome == Rejected <==> beratError || tinggiError
      ensures outcome == ParseFailed <==>
        !beratError && !tinggiError && (toFloat(berat).None? || toFloat(tinggi).None?)
      ensures outcome == Computed ==>
        && toFloat(berat).Some? && toFloat(tinggi).Some?
        && bmi == HitungBmi(toFloat(berat).value, toFloat(tinggi).value)
        && kategori == Some(GetKategori(bmi, isMale))
      ensures outcome != Computed ==> bmi == old(bmi) && kategori == old(kategori)
    {
      beratError := IsInvalidInput(berat);
      tinggiError := IsInvalidInput(tinggi);
      if beratError || tinggiError {
        return Rejected;
      }
      var w := toFloat(berat);
      if w.None? {
        return ParseFailed;
      }
      var h := toFloat(tinggi);
      if h.None? {
        return ParseFailed;
      }
      bmi := HitungBmi(w.value, h.value);
      kategori := Some(GetKategori(bmi, isMale));
      return Computed;
    }
  }

  /** 70 kg, 175 cm, the first sex option: both fields pass, the BMI is about
      22.857 and the category ideal. */
  method SubmitSeventyAt175(toFloat: string -> Option<Float>) returns (screen: ScreenState, outcome: SubmitOutcome)
    requires toFloat("70") == Some(Finite(70.0)) && toFloat("175") == Some(Finite(175.0))
    ensures outcome == Computed
    ensures !screen.beratError && !screen.tinggiError
    ensures screen.bmi.Finite? && 22.857 < screen.bmi.value < 22.858
    ensures screen.kategori == Some(Ideal)
  {
    screen := new ScreenState();
    screen.berat, screen.tinggi := "70", "175";
    outcome := screen.Submit(toFloat);
    SeventyKilosAt175Centimetres();
  }

  /** An empty weight, 175 cm, the second sex option: only the weight field is
      flagged and nothing is computed, whatever the conversion does. */
  method SubmitEmptyWeight(toFloat: string -> Option<Float>) returns (screen: ScreenState, outcome: SubmitOutcome)
    ensures outcome == Rejected
    ensures screen.beratError && !screen.tinggiError
    ensures screen.bmi == Finite(0.0) && screen.kategori == None
  {
    screen := new ScreenState();
    screen.tinggi, screen.isMale := "175", false;
    outcome := screen.Submit(toFloat);
  }

  /** A height of "00" passes the check; converted to zero it makes the BMI of a
      positive weight +Infinity, which is gemuk. A weight of "0.0" on top of it
      makes the BMI NaN, which is ideal. */
  method SubmitZeroHeight(toFloat: string -> Option<Float>, berat: string)
    returns (screen: ScreenState, outcome: SubmitOutcome)
    requires toFloat("00") == Some(Finite(0.0))
    requires !IsInvalidInput(berat) && toFloat(berat).Some? && toFloat(berat).value.Finite?
    ensures outcome == Computed && !screen.beratError && !screen.tinggiError
    ensures toFloat(berat).value.value > 0.0 ==> screen.bmi == PosInf && screen.kategori == Some(Gemuk)
    ensures toFloat(berat).value.value == 0.0 ==> screen.bmi == NaN && screen.kategori == Some(Ideal)
  {
    screen := new ScreenState();
    screen.berat, screen.tinggi := berat, "00";
    outcome := screen.Submit(toFloat);
  }
}
