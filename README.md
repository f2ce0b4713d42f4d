# Hitung BMI — a Dafny model of the BMI screen

The app shows one form: a weight in kilograms (`berat`), a height in centimetres
(`tinggi`), a choice between two sexes, and a button. Pressing the button checks the two
texts. If both pass, it computes the Body Mass Index and classifies it as `kurus`
(underweight), `ideal` (normal) or `gemuk` (overweight), using thresholds that depend on
the sex. This project models that logic and proves its properties.

- `bmi.dfy`, module `Bmi`: the BMI formula `hitungBmi` and the classification
  `getKategori`. Both work on a model of Kotlin's `Float`: a finite value is kept as an
  exact `real` (no rounding, no overflow, no underflow), and the IEEE-754 values
  +Infinity, -Infinity and NaN are kept as separate cases. Those cases matter here.
  The input check lets a zero height through (for example the text "00"), which
  makes the BMI infinite or NaN. A NaN BMI fails both comparisons in `getKategori`,
  so it is classified `ideal`. In the app a tiny or huge height can do the same
  through underflow or overflow of the square; the model does not capture that
  (see "Left out").
- `screen.dfy`, module `Screen`: the screen state as a class, `ScreenState`. Its
  `Submit` method is the button's handler. It also holds three client methods that
  replay whole submissions: normal input, an empty weight, and a zero height.

Two behaviours of the code are kept as written, although a reader might expect
otherwise:
- The input check rejects only the exact texts "" and "0". It does not reject every
  text whose value is zero, so "00" and "0.0" pass.
- `hitungBmi` has no guard for a zero height, and `getKategori` also receives NaN,
  which it classifies as `ideal`.

## Model

| member | source | states |
|---|---|---|
| `Bmi.HitungBmi` | composeApp/src/desktopMain/kotlin/com/indraazimi/hitungbmi/App.kt:200-202 | in exact arithmetic: for a finite weight and a finite non-zero height the BMI is finite and, multiplied by the squared height in metres, gives back the weight; a positive weight gives a positive BMI; a zero height gives +Infinity, -Infinity or NaN according to the sign of the weight; a NaN input gives NaN |
| `Bmi.MeterSquared` | composeApp/src/desktopMain/kotlin/com/indraazimi/hitungbmi/App.kt:201 | `(tinggi / 100).pow(2)`, squared exactly, is never negative and never -Infinity, is NaN exactly for a NaN height, and is strictly positive for a finite non-zero height |
| `Bmi.Quotient` | composeApp/src/desktopMain/kotlin/com/indraazimi/hitungbmi/App.kt:201 | the IEEE-754 division of the weight by the squared height: a positive finite divisor gives a finite quotient that, multiplied by the divisor, gives back the weight and is positive for a positive weight; a zero divisor gives +Infinity, -Infinity or NaN by the sign of the weight; a finite weight over +Infinity gives 0; an infinite weight over a finite divisor stays infinite; the result is NaN exactly when an operand is NaN, infinity is divided by infinity, or zero by zero |
| `Bmi.GetKategori` | composeApp/src/desktopMain/kotlin/com/indraazimi/hitungbmi/App.kt:204-217 | the category is kurus exactly when the BMI is below the lower threshold of the sex (20.5 men, 18.5 women), gemuk exactly when it is at least the upper one (27.0 men, 25.0 women), ideal exactly when neither comparison holds |
| `Bmi.MaleBoundaries` | composeApp/src/desktopMain/kotlin/com/indraazimi/hitungbmi/App.kt:205-210 | for men 20.49 is kurus, exactly 20.5 is ideal, 26.99 is ideal, exactly 27.0 is gemuk |
| `Bmi.FemaleBoundaries` | composeApp/src/desktopMain/kotlin/com/indraazimi/hitungbmi/App.kt:211-216 | for women 18.49 is kurus, exactly 18.5 is ideal, 24.99 is ideal, exactly 25.0 is gemuk |
| `Bmi.KategoriMonotone` | composeApp/src/desktopMain/kotlin/com/indraazimi/hitungbmi/App.kt:204-217 | for a fixed sex, if one BMI is at most another (IEEE order, NaN excluded), its category is at most the other's in the order kurus < ideal < gemuk |
| `Bmi.SpecialValues` | composeApp/src/desktopMain/kotlin/com/indraazimi/hitungbmi/App.kt:204-217 | -Infinity is kurus, +Infinity is gemuk and NaN is ideal, for either sex |
| `Bmi.SeventyKilosAt175Centimetres` | composeApp/src/desktopMain/kotlin/com/indraazimi/hitungbmi/App.kt:200-217 | 70 kg at 175 cm gives exactly 70 / 3.0625, between 22.857 and 22.858, which is ideal for both sexes |
| `Bmi.HeavierNeverLowerKategori` | composeApp/src/desktopMain/kotlin/com/indraazimi/hitungbmi/App.kt:200-217 | for any fixed height, including zero, infinite and NaN ones, and a fixed sex, a larger weight never gets a lower category |
| `Bmi.TallerNeverHigherKategori` | composeApp/src/desktopMain/kotlin/com/indraazimi/hitungbmi/App.kt:200-217 | for a fixed weight that is not negative and a fixed sex, a larger positive height never gets a higher category |
| `Bmi.KategoriByWeight` | composeApp/src/desktopMain/kotlin/com/indraazimi/hitungbmi/App.kt:200-217 | for a non-zero height with squared height `sq` in metres, the category is kurus exactly for weights below lower threshold × `sq`, gemuk exactly from upper threshold × `sq` on, and ideal exactly in between |
| `Screen.IsInvalidInput` | composeApp/src/desktopMain/kotlin/com/indraazimi/hitungbmi/App.kt:137-138 | a text is flagged exactly when it has at most one character and every character is '0', so any text of two or more characters passes |
| `Screen.InvalidInputExamples` | composeApp/src/desktopMain/kotlin/com/indraazimi/hitungbmi/App.kt:137-138 | "" and "0" are flagged; "70", "00", "0.0", "-5" and "abc" are not |
| `Screen.ScreenState.constructor` | composeApp/src/desktopMain/kotlin/com/indraazimi/hitungbmi/App.kt:60-73 | the initial state: both texts empty, no error flags, the first sex option selected, BMI zero, no category; the state invariant holds |
| `Screen.ScreenState.Submit` | composeApp/src/desktopMain/kotlin/com/indraazimi/hitungbmi/App.kt:136-143 | each error flag is set exactly when its own text is "" or "0", on every press, so an old error is cleared; with a flag set the result is rejected and bmi and kategori keep their values; a text that does not convert leaves them too; otherwise bmi is `HitungBmi` of the two converted values and kategori the category of that BMI for the selected sex; texts and selection never change; the invariant that a category belongs to the stored BMI is kept |
| `Screen.SubmitSeventyAt175` | composeApp/src/desktopMain/kotlin/com/indraazimi/hitungbmi/App.kt:136-143 | weight "70", height "175" and the first sex option: no flags, a BMI between 22.857 and 22.858, category ideal |
| `Screen.SubmitEmptyWeight` | composeApp/src/desktopMain/kotlin/com/indraazimi/hitungbmi/App.kt:136-143 | an empty weight and height "175": the submission is rejected, only the weight is flagged, and the initial zero BMI and missing category stay, whatever the conversion does |
| `Screen.SubmitZeroHeight` | composeApp/src/desktopMain/kotlin/com/indraazimi/hitungbmi/App.kt:137-142 | a height of "00" read as zero passes the check; with a positive weight the BMI becomes +Infinity and the category gemuk, with a zero weight NaN and ideal |

## Left out

- The Compose user interface: `App`, the layout of `ScreenContent`, `GenderOption`, `IconPicker` and `ErrorHint` (App.kt:50-198). It is presentation only.
- Localised strings and display formatting: the `stringResource` lookups, `.dropLast(4)` on the BMI text, `.uppercase()`, and the `bmi != 0f` guard that decides whether a result is shown (App.kt:150-165). The category is the enumeration `Kategori`, not a string resource.
- `String.toFloat()` (App.kt:141) is a library call. It becomes the parameter `toFloat` of `Submit`, and `None` stands for the exception it throws on text that is not a number. What the app does with that uncaught exception is not modelled; `Submit` reports it as the outcome `ParseFailed`, with bmi and kategori unchanged.
- `Bmi.HitungBmi`: does not model IEEE-754 rounding, overflow or underflow, because finite values are exact reals; its "finite" and "positive" results hold in exact arithmetic only. Besides a BMI within rounding distance of a threshold, which may be classified differently, under- and overflow change the category far from any threshold: weight "0.0" with height "1e-25" gives 0f/0f = NaN (ideal) in the app but a BMI of 0 (kurus) here, and weight "Infinity" with height "1e30" gives Infinity/Infinity = NaN (ideal) in the app but +Infinity (gemuk) here. The thresholds themselves are exact binary fractions, so the comparisons are exact.
- `Bmi.MeterSquared`: the app squares in double precision and rounds back to `Float`, so for a finite non-zero height the square is 0 below about 2.6e-21 cm and +Infinity above about 1.8e21 cm; here it is always a positive real.
- The sign of a floating-point zero is not kept. -0 and +0 compare equal and classify alike, and zero divided by a zero square is NaN for either sign.
- The sex selection compares against the localised label `radioOptions[0]` (App.kt:66-70, 142). It is the boolean field `isMale` instead.
- The per-keystroke setters `onValueChange` (App.kt:89, 103) and the option click `gender = text` (App.kt:127) each assign one field. They have no methods; the client methods assign the public fields directly.
