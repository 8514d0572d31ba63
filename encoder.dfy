/** The feature encoder and risk threshold of the CKD risk predictor page:
    raw form answers become one ordered 26-column numeric row, the row is
    scored by an external classifier, and the positive-class probability is
    labelled against a fixed threshold. */
module CkdEncoder {
  import opened Wrappers

  // ---------------------------------------------------------------------
  // Inputs
  // ---------------------------------------------------------------------

  /** The values the form widgets return, in the order the form collects
      them. Categorical answers stay strings: the encoder compares them with
      labels and never validates them itself. */
  datatype RawInput = RawInput(
    age: int,
    gender: string,
    ethnicity: string,
    socio: string,
    hypertension: string,
    diabetes: string,
    cardiovascular: string,
    familyHistory: string,
    healthcare: string,
    smoking: string,
    alcohol: string,
    fatigue: string,
    swelling: string,
    urinaryFreq: string,
    nocturia: string,
    hematuria: string,
    nausea: string,
    muscleCramps: string,
    pallor: string,
    herbalMeds: string,
    sbp: int,
    dbp: int,
    bmi: real,
    heartRate: int)

  /** The fifteen Yes/No answers in the order the row lists them. */
  function Flags(r: RawInput): (f: seq<string>)
    ensures |f| == 15
  {
    [r.hypertension, r.diabetes, r.cardiovascular, r.familyHistory,
     r.smoking, r.alcohol, r.fatigue, r.swelling, r.urinaryFreq,
     r.nocturia, r.hematuria, r.nausea, r.muscleCramps, r.pallor,
     r.herbalMeds]
  }

  /** Bounds of the sliders and of the BMI number input. */
  const AgeMin: int := 18
  const AgeMax: int := 100
  const SbpMin: int := 90
  const SbpMax: int := 200
  const DbpMin: int := 60
  const DbpMax: int := 120
  const BmiMin: real := 10.0
  const BmiMax: real := 60.0
  const HeartRateMin: int := 40
  const HeartRateMax: int := 150

  predicate InWidgetBounds(r: RawInput) {
    AgeMin <= r.age <= AgeMax
    && SbpMin <= r.sbp <= SbpMax
    && DbpMin <= r.dbp <= DbpMax
    && BmiMin <= r.bmi <= BmiMax
    && HeartRateMin <= r.heartRate <= HeartRateMax
  }

  /** Every categorical answer is one of the options its select box offers. */
  predicate FromWidgets(r: RawInput) {
    r.gender in {"Male", "Female"}
    && r.ethnicity in {"Black", "White", "Asian", "Hispanic", "Other"}
    && r.socio in {"Low", "Middle", "High"}
    && r.healthcare in {"Good", "Poor"}
    && forall k :: 0 <= k < 15 ==> Flags(r)[k] in {"Yes", "No"}
  }

  // ---------------------------------------------------------------------
  // Encoding
  // ---------------------------------------------------------------------

  /** A dictionary subscript: the value under `key`, or the KeyError that
      Python raises when the key is absent. */
  datatype KeyError = KeyError(key: string)

  function Lookup<V>(m: map<string, V>, key: string): (res: Result<V, KeyError>)
    ensures res.Success? <==> key in m
    ensures res.Success? ==> res.value == m[key]
    ensures res.Failure? ==> res.error == KeyError(key)
  {
    if key in m then Success(m[key]) else Failure(KeyError(key))
  }

  /** A Yes/No answer: 1 for exactly the string "Yes", 0 for anything else. */
  function Encode(v: string): (b: real)
    ensures b == 0.0 || b == 1.0
    ensures b == 1.0 <==> v == "Yes"
  {
    if v == "Yes" then 1.0 else 0.0
  }

  /** Ethnicity as a one-hot triple [Black, White, Other]; Asian and
      Hispanic share the Other column. */
  const EthnicityMap: map<string, seq<real>> := map[
    "Black" := [1.0, 0.0, 0.0],
    "White" := [0.0, 1.0, 0.0],
    "Other" := [0.0, 0.0, 1.0],
    "Asian" := [0.0, 0.0, 1.0],
    "Hispanic" := [0.0, 0.0, 1.0]
  ]

  /** Socioeconomic status as an ordinal. */
  const SocioMap: map<string, real> := map["Low" := 0.0, "Middle" := 1.0, "High" := 2.0]

  /** The column names of the row, in order, grouped as the page's list
      literal groups them. */
  const Columns: seq<string> :=
    ["Age", "Gender_Male", "Socioeconomic_Status", "Hypertension", "Diabetes"]
    + ["Cardiovascular_Disease", "Family_History", "Smoking", "Alcohol"]
    + ["Fatigue", "Swelling", "Urinary_Frequency", "Nocturia", "Hematuria"]
    + ["Nausea", "Muscle_Cramps", "Pallor", "Herbal_Medication_Use"]
    + ["Healthcare_Access", "SBP", "DBP", "BMI", "Heart_Rate"]
    + ["Ethnicity_Black", "Ethnicity_White", "Ethnicity_Other"]

  /** The row handed to the classifier. The ethnicity subscript is evaluated
      first, so an unknown ethnicity is the error reported even when the
      socioeconomic label is unknown too. */
  function EncodeRow(r: RawInput): (res: Result<seq<real>, KeyError>)
    ensures res.Success? <==> r.ethnicity in EthnicityMap && r.socio in SocioMap
    ensures res.Failure? ==>
      res.error == KeyError(if r.ethnicity in EthnicityMap then r.socio else r.ethnicity)
    ensures res.Success? ==> |res.value| == |Columns| == 26
  {
    var eth :- Lookup(EthnicityMap, r.ethnicity);
    var socio :- Lookup(SocioMap, r.socio);
    Success(Row(r, socio, eth))
  }

  /** The list literal of the row, given the two looked-up values, grouped
      as the page's literal groups them; the last group unpacks the
      ethnicity triple. */
  function Row(r: RawInput, socio: real, eth: seq<real>): (row: seq<real>)
    ensures |row| == 23 + |eth|
  {
    [r.age as real]
    + [if r.gender == "Male" then 1.0 else 0.0]
    + [socio]
    + [Encode(r.hypertension), Encode(r.diabetes), Encode(r.cardiovascular)]
    + [Encode(r.familyHistory), Encode(r.smoking), Encode(r.alcohol)]
    + [Encode(r.fatigue), Encode(r.swelling), Encode(r.urinaryFreq)]
    + [Encode(r.nocturia), Encode(r.hematuria), Encode(r.nausea)]
    + [Encode(r.muscleCramps), Encode(r.pallor), Encode(r.herbalMeds)]
    + [if r.healthcare == "Good" then 1.0 else 0.0]
    + [r.sbp as real, r.dbp as real, r.bmi, r.heartRate as real]
    + eth
  }

  // ---------------------------------------------------------------------
  // Risk threshold
  // ---------------------------------------------------------------------

  datatype Risk = HighRisk | LowRisk

  const Threshold: real := 0.5

  /** The banner shown for a positive-class probability. */
  function RiskLabel(prob: real): (risk: Risk)
    ensures risk == HighRisk <==> prob > Threshold
  {
    if prob > Threshold then HighRisk else LowRisk
  }

  /** One submission: encode the answers, score the row with the external
      classifier `positiveProb` (its probability of the CKD class), and label
      that probability. An encoding KeyError aborts before any scoring. */
  function Assess(r: RawInput, positiveProb: seq<real> -> real): (res: Result<Risk, KeyError>)
    ensures res.Failure? <==> EncodeRow(r).Failure?
    ensures res.Failure? ==> res.error == EncodeRow(r).error
    ensures res.Success? ==>
      (res.value == HighRisk <==> positiveProb(EncodeRow(r).value) > Threshold)
  {
    var row :- EncodeRow(r);
    Success(RiskLabel(positiveProb(row)))
  }
}
