/** What the encoder and the threshold promise: the layout of the row, the
    meaning of each named column, the one-hot ethnicity triple, the lookup
    errors, the bounds of the row's entries, an inverse of the encoding up
    to the labels it merges, and the strictness of the threshold. */
module EncoderProperties {
  import opened Wrappers
  import opened CkdEncoder

  // ---------------------------------------------------------------------
  // Schema
  // ---------------------------------------------------------------------

  function Indicator(b: bool): real {
    if b then 1.0 else 0.0
  }

  /** The columns of the row, one constructor per name. */
  datatype Column =
    | Age | GenderMale | SocioeconomicStatus
    | Hypertension | Diabetes | CardiovascularDisease | FamilyHistory | Smoking | Alcohol
    | Fatigue | Swelling | UrinaryFrequency | Nocturia | Hematuria | Nausea
    | MuscleCramps | Pallor | HerbalMedicationUse
    | HealthcareAccess | SBP | DBP | BMI | HeartRate
    | EthnicityBlack | EthnicityWhite | EthnicityOther

  /** The name the classifier knows each column by. */
  function ColumnName(c: Column): string {
    match c
    case Age => "Age"
    case GenderMale => "Gender_Male"
    case SocioeconomicStatus => "Socioeconomic_Status"
    case Hypertension => "Hypertension"
    case Diabetes => "Diabetes"
    case CardiovascularDisease => "Cardiovascular_Disease"
    case FamilyHistory => "Family_History"
    case Smoking => "Smoking"
    case Alcohol => "Alcohol"
    case Fatigue => "Fatigue"
    case Swelling => "Swelling"
    case UrinaryFrequency => "Urinary_Frequency"
    case Nocturia => "Nocturia"
    case Hematuria => "Hematuria"
    case Nausea => "Nausea"
    case MuscleCramps => "Muscle_Cramps"
    case Pallor => "Pallor"
    case HerbalMedicationUse => "Herbal_Medication_Use"
    case HealthcareAccess => "Healthcare_Access"
    case SBP => "SBP"
    case DBP => "DBP"
    case BMI => "BMI"
    case HeartRate => "Heart_Rate"
    case EthnicityBlack => "Ethnicity_Black"
    case EthnicityWhite => "Ethnicity_White"
    case EthnicityOther => "Ethnicity_Other"
  }

  /** What each column holds for the answers `r`, defined column by column
      and independently of any position. */
  function Feature(r: RawInput, c: Column): real {
    match c
    case Age => r.age as real
    case GenderMale => Indicator(r.gender == "Male")
    case SocioeconomicStatus =>
      if r.socio == "Low" then 0.0 else if r.socio == "Middle" then 1.0 else 2.0
    case Hypertension => Indicator(r.hypertension == "Yes")
    case Diabetes => Indicator(r.diabetes == "Yes")
    case CardiovascularDisease => Indicator(r.cardiovascular == "Yes")
    case FamilyHistory => Indicator(r.familyHistory == "Yes")
    case Smoking => Indicator(r.smoking == "Yes")
    case Alcohol => Indicator(r.alcohol == "Yes")
    case Fatigue => Indicator(r.fatigue == "Yes")
    case Swelling => Indicator(r.swelling == "Yes")
    case UrinaryFrequency => Indicator(r.urinaryFreq == "Yes")
    case Nocturia => Indicator(r.nocturia == "Yes")
    case Hematuria => Indicator(r.hematuria == "Yes")
    case Nausea => Indicator(r.nausea == "Yes")
    case MuscleCramps => Indicator(r.muscleCramps == "Yes")
    case Pallor => Indicator(r.pallor == "Yes")
    case HerbalMedicationUse => Indicator(r.herbalMeds == "Yes")
    case HealthcareAccess => Indicator(r.healthcare == "Good")
    case SBP => r.sbp as real
    case DBP => r.dbp as real
    case BMI => r.bmi
    case HeartRate => r.heartRate as real
    case EthnicityBlack => Indicator(r.ethnicity == "Black")
    case EthnicityWhite => Indicator(r.ethnicity == "White")
    case EthnicityOther => Indicator(r.ethnicity in {"Other", "Asian", "Hispanic"})
  }

  /** The columns in the order the row lists them. */
  const Schema: seq<Column> :=
    [Age, GenderMale, SocioeconomicStatus, Hypertension, Diabetes]
    + [CardiovascularDisease, FamilyHistory, Smoking, Alcohol]
    + [Fatigue, Swelling, UrinaryFrequency, Nocturia, Hematuria]
    + [Nausea, MuscleCramps, Pallor, HerbalMedicationUse]
    + [HealthcareAccess, SBP, DBP, BMI, HeartRate]
    + [EthnicityBlack, EthnicityWhite, EthnicityOther]

  predicate Distinct(s: seq<string>) {
    forall i, j :: 0 <= i < j < |s| ==> s[i] != s[j]
  }

  /** The 26 column names are pairwise different, so a name picks out one
      position. */
  lemma ColumnsDistinct()
    ensures |Columns| == 26 && Distinct(Columns)
  {
    ColumnNamesFirst();
    ColumnNamesLast();
    forall i, j | 0 <= i < j < 26 ensures Columns[i] != Columns[j] {
      assert i in {0, 1, 2, 3, 4, 5, 6, 7, 8, 9, 10, 11, 12, 13, 14, 15, 16, 17, 18, 19, 20, 21, 22, 23, 24};
      assert j in {1, 2, 3, 4, 5, 6, 7, 8, 9, 10, 11, 12, 13, 14, 15, 16, 17, 18, 19, 20, 21, 22, 23, 24, 25};
    }
  }

  lemma ColumnNamesFirst()
    ensures |Columns| == 26
    ensures Columns[0] == "Age" && Columns[1] == "Gender_Male"
    ensures Columns[2] == "Socioeconomic_Status" && Columns[3] == "Hypertension"
    ensures Columns[4] == "Diabetes" && Columns[5] == "Cardiovascular_Disease"
    ensures Columns[6] == "Family_History" && Columns[7] == "Smoking"
    ensures Columns[8] == "Alcohol" && Columns[9] == "Fatigue"
    ensures Columns[10] == "Swelling" && Columns[11] == "Urinary_Frequency"
    ensures Columns[12] == "Nocturia"
  {
  }

  lemma ColumnNamesLast()
    ensures Columns[13] == "Hematuria" && Columns[14] == "Nausea"
    ensures Columns[15] == "Muscle_Cramps" && Columns[16] == "Pallor"
    ensures Columns[17] == "Herbal_Medication_Use" && Columns[18] == "Healthcare_Access"
    ensures Columns[19] == "SBP" && Columns[20] == "DBP"
    ensures Columns[21] == "BMI" && Columns[22] == "Heart_Rate"
    ensures Columns[23] == "Ethnicity_Black" && Columns[24] == "Ethnicity_White"
    ensures Columns[25] == "Ethnicity_Other"
  {
  }

  lemma SchemaAt()
    ensures |Schema| == 26
    ensures Schema[0] == Age && Schema[1] == GenderMale && Schema[2] == SocioeconomicStatus
    ensures Schema[3] == Hypertension && Schema[4] == Diabetes
    ensures Schema[5] == CardiovascularDisease && Schema[6] == FamilyHistory
    ensures Schema[7] == Smoking && Schema[8] == Alcohol && Schema[9] == Fatigue
    ensures Schema[10] == Swelling && Schema[11] == UrinaryFrequency && Schema[12] == Nocturia
    ensures Schema[13] == Hematuria && Schema[14] == Nausea && Schema[15] == MuscleCramps
    ensures Schema[16] == Pallor && Schema[17] == HerbalMedicationUse
    ensures Schema[18] == HealthcareAccess && Schema[19] == SBP && Schema[20] == DBP
    ensures Schema[21] == BMI && Schema[22] == HeartRate
    ensures Schema[23] == EthnicityBlack && Schema[24] == EthnicityWhite
    ensures Schema[25] == EthnicityOther
  {
  }

  /** Column i of the schema is the column the list of names calls
      Columns[i]. */
  lemma SchemaNamesColumns()
    ensures |Schema| == |Columns|
    ensures forall i :: 0 <= i < |Columns| ==> ColumnName(Schema[i]) == Columns[i]
  {
    SchemaAt();
    ColumnNamesFirst();
    ColumnNamesLast();
    forall i | 0 <= i < |Columns| ensures ColumnName(Schema[i]) == Columns[i] {
      assert i in {0, 1, 2, 3, 4, 5, 6, 7, 8, 9, 10, 11, 12, 13, 14, 15, 16, 17, 18, 19, 20, 21, 22, 23, 24, 25};
    }
  }

  // ---------------------------------------------------------------------
  // Dictionaries
  // ---------------------------------------------------------------------

  function Sum(s: seq<real>): real {
    if s == [] then 0.0 else s[0] + Sum(s[1..])
  }

  predicate IsBit(x: real) {
    x == 0.0 || x == 1.0
  }

  /** Three 0/1 entries of which exactly one is 1. */
  predicate IsOneHot(s: seq<real>) {
    |s| == 3
    && (forall k :: 0 <= k < 3 ==> IsBit(s[k]))
    && (exists k :: 0 <= k < 3 && s[k] == 1.0 && forall j :: 0 <= j < 3 && j != k ==> s[j] == 0.0)
  }

  lemma {:induction false} OneHotSumsToOne(s: seq<real>)
    requires IsOneHot(s)
    ensures Sum(s) == s[0] + s[1] + s[2] == 1.0
  {
    var t := s[1..];
    var u := t[1..];
    assert u[1..] == [];
    assert Sum(u) == s[2];
    assert Sum(t) == s[1] + s[2];
  }

  /** The ethnicity lookup succeeds on exactly five labels, always yields a
      one-hot triple, and merges Asian and Hispanic into Other. */
  lemma EthnicityOneHot(e: string)
    ensures Lookup(EthnicityMap, e).Success? <==> e in {"Black", "White", "Other", "Asian", "Hispanic"}
    ensures e in EthnicityMap ==> IsOneHot(EthnicityMap[e]) && Sum(EthnicityMap[e]) == 1.0
    ensures e == "Black" ==> EthnicityMap[e] == [1.0, 0.0, 0.0]
    ensures e == "White" ==> EthnicityMap[e] == [0.0, 1.0, 0.0]
    ensures e in {"Other", "Asian", "Hispanic"} ==> EthnicityMap[e] == [0.0, 0.0, 1.0]
  {
    if e in EthnicityMap {
      var s := EthnicityMap[e];
      var k := if e == "Black" then 0 else if e == "White" then 1 else 2;
      assert s[k] == 1.0 && forall j :: 0 <= j < 3 && j != k ==> s[j] == 0.0;
      OneHotSumsToOne(s);
    }
  }

  /** The triple of a known ethnicity, column by column. */
  lemma EthnicityColumns(e: string)
    requires e in EthnicityMap
    ensures EthnicityMap[e] == [Indicator(e == "Black"), Indicator(e == "White"),
                                Indicator(e in {"Other", "Asian", "Hispanic"})]
  {
    EthnicityOneHot(e);
  }

  /** The socioeconomic lookup succeeds on exactly Low, Middle and High,
      giving 0, 1 and 2, hence always a value in [0, 2]. */
  lemma SocioOrdinal(s: string)
    ensures Lookup(SocioMap, s).Success? <==> s in {"Low", "Middle", "High"}
    ensures Lookup(SocioMap, s).Failure? ==> Lookup(SocioMap, s).error == KeyError(s)
    ensures s == "Low" ==> SocioMap[s] == 0.0
    ensures s == "Middle" ==> SocioMap[s] == 1.0
    ensures s == "High" ==> SocioMap[s] == 2.0
    ensures s in SocioMap ==> 0.0 <= SocioMap[s] <= 2.0
  {
  }

  /** A row is produced exactly when both labels are known; otherwise the
      KeyError names the ethnicity, or, when that is known, the status. */
  lemma EncodeRowKeyError(r: RawInput)
    ensures EncodeRow(r).Success? <==>
      r.ethnicity in {"Black", "White", "Other", "Asian", "Hispanic"}
      && r.socio in {"Low", "Middle", "High"}
    ensures r.ethnicity !in {"Black", "White", "Other", "Asian", "Hispanic"} ==>
      EncodeRow(r) == Failure(KeyError(r.ethnicity))
    ensures (r.ethnicity in {"Black", "White", "Other", "Asian", "Hispanic"}
             && r.socio !in {"Low", "Middle", "High"}) ==>
      EncodeRow(r) == Failure(KeyError(r.socio))
  {
  }

  /** Answers taken from the widgets' own options always encode. */
  lemma FromWidgetsEncodes(r: RawInput)
    requires FromWidgets(r)
    ensures EncodeRow(r).Success?
  {
  }

  // ---------------------------------------------------------------------
  // Layout
  // ---------------------------------------------------------------------

  /** Position by position, what the row for `r` holds once the ordinal
      `socio` and the ethnicity triple `eth` have been looked up: Age, the
      Male flag and the ordinal; the fifteen Yes/No flags in the order
      Hypertension to Herbal_Medication_Use; the Good-access flag; SBP, DBP,
      BMI and Heart_Rate; the triple. */
  predicate LaidOut(r: RawInput, socio: real, eth: seq<real>, row: seq<real>) {
    |row| == 26 && |eth| == 3
    && row[0] == r.age as real
    && row[1] == Indicator(r.gender == "Male")
    && row[2] == socio
    && row[3] == Encode(r.hypertension) && row[4] == Encode(r.diabetes)
    && row[5] == Encode(r.cardiovascular) && row[6] == Encode(r.familyHistory)
    && row[7] == Encode(r.smoking) && row[8] == Encode(r.alcohol)
    && row[9] == Encode(r.fatigue) && row[10] == Encode(r.swelling)
    && row[11] == Encode(r.urinaryFreq) && row[12] == Encode(r.nocturia)
    && row[13] == Encode(r.hematuria) && row[14] == Encode(r.nausea)
    && row[15] == Encode(r.muscleCramps) && row[16] == Encode(r.pallor)
    && row[17] == Encode(r.herbalMeds)
    && row[18] == Indicator(r.healthcare == "Good")
    && row[19] == r.sbp as real && row[20] == r.dbp as real
    && row[21] == r.bmi && row[22] == r.heartRate as real
    && row[23] == eth[0] && row[24] == eth[1] && row[25] == eth[2]
  }

  lemma RowHead(r: RawInput, socio: real, eth: seq<real>)
    ensures var row := Row(r, socio, eth);
      && row[0] == r.age as real
      && row[1] == Indicator(r.gender == "Male")
      && row[2] == socio
      && row[18] == Indicator(r.healthcare == "Good")
      && row[19] == r.sbp as real && row[20] == r.dbp as real
      && row[21] == r.bmi && row[22] == r.heartRate as real
  {
  }

  lemma RowFlagsFirst(r: RawInput, socio: real, eth: seq<real>)
    ensures var row := Row(r, socio, eth);
      && row[3] == Encode(r.hypertension) && row[4] == Encode(r.diabetes)
      && row[5] == Encode(r.cardiovascular) && row[6] == Encode(r.familyHistory)
      && row[7] == Encode(r.smoking) && row[8] == Encode(r.alcohol)
  {
  }

  lemma RowFlagsLast(r: RawInput, socio: real, eth: seq<real>)
    ensures var row := Row(r, socio, eth);
      && row[9] == Encode(r.fatigue) && row[10] == Encode(r.swelling)
      && row[11] == Encode(r.urinaryFreq) && row[12] == Encode(r.nocturia)
      && row[13] == Encode(r.hematuria) && row[14] == Encode(r.nausea)
      && row[15] == Encode(r.muscleCramps) && row[16] == Encode(r.pallor)
      && row[17] == Encode(r.herbalMeds)
  {
  }

  lemma RowTail(r: RawInput, socio: real, eth: seq<real>)
    requires |eth| == 3
    ensures var row := Row(r, socio, eth);
      row[23] == eth[0] && row[24] == eth[1] && row[25] == eth[2]
  {
  }

  lemma RowLaidOut(r: RawInput, socio: real, eth: seq<real>)
    requires |eth| == 3
    ensures LaidOut(r, socio, eth, Row(r, socio, eth))
  {
    RowHead(r, socio, eth);
    RowFlagsFirst(r, socio, eth);
    RowFlagsLast(r, socio, eth);
    RowTail(r, socio, eth);
  }

  /** The encoded row is laid out as the schema says. */
  lemma EncodeRowLayout(r: RawInput)
    requires EncodeRow(r).Success?
    ensures LaidOut(r, SocioMap[r.socio], EthnicityMap[r.ethnicity], EncodeRow(r).value)
  {
    EthnicityOneHot(r.ethnicity);
    RowLaidOut(r, SocioMap[r.socio], EthnicityMap[r.ethnicity]);
  }

  /** The layout fixes the row. */
  lemma LaidOutUnique(r: RawInput, socio: real, eth: seq<real>, a: seq<real>, b: seq<real>)
    requires LaidOut(r, socio, eth, a) && LaidOut(r, socio, eth, b)
    ensures a == b
  {
    forall k | 0 <= k < 26 ensures a[k] == b[k] {
      assert k in {0, 1, 2, 3, 4, 5, 6, 7, 8, 9, 10, 11, 12, 13, 14, 15, 16, 17, 18, 19, 20, 21, 22, 23, 24, 25};
    }
  }

  // ---------------------------------------------------------------------
  // Meaning of each named column
  // ---------------------------------------------------------------------

  /** The values the named columns give the ordinal and the triple. */
  predicate NamedLookups(r: RawInput, socio: real, eth: seq<real>) {
    socio == (if r.socio == "Low" then 0.0 else if r.socio == "Middle" then 1.0 else 2.0)
    && eth == [Indicator(r.ethnicity == "Black"), Indicator(r.ethnicity == "White"),
               Indicator(r.ethnicity in {"Other", "Asian", "Hispanic"})]
  }

  /** A laid-out row carries, at position i, what column i means. */
  lemma LaidOutMatchesSchema(r: RawInput, socio: real, eth: seq<real>, row: seq<real>)
    requires LaidOut(r, socio, eth, row) && NamedLookups(r, socio, eth)
    ensures forall i :: 0 <= i < |Schema| ==> Feature(r, Schema[i]) == row[i]
  {
    SchemaAt();
    forall i | 0 <= i < |Schema| ensures Feature(r, Schema[i]) == row[i] {
      assert i in {0, 1, 2, 3, 4, 5, 6, 7, 8, 9, 10, 11, 12, 13, 14, 15, 16, 17, 18, 19, 20, 21, 22, 23, 24, 25};
    }
  }

  /** Position i of the row carries what column i means, and column i is
      the one the list of names calls Columns[i]. */
  lemma EncodeRowMatchesColumns(r: RawInput)
    requires EncodeRow(r).Success?
    ensures |EncodeRow(r).value| == |Schema| == |Columns|
    ensures forall i :: 0 <= i < |Columns| ==>
      ColumnName(Schema[i]) == Columns[i] && Feature(r, Schema[i]) == EncodeRow(r).value[i]
  {
    SchemaNamesColumns();
    var socio, eth, row := SocioMap[r.socio], EthnicityMap[r.ethnicity], EncodeRow(r).value;
    EncodeRowLayout(r);
    SocioOrdinal(r.socio);
    EthnicityColumns(r.ethnicity);
    LaidOutMatchesSchema(r, socio, eth, row);
  }

  // ---------------------------------------------------------------------
  // Ranges
  // ---------------------------------------------------------------------

  /** The positions that encode a label as a 0/1 flag. */
  const FlagPositions: set<int> :=
    {1, 3, 4, 5, 6, 7, 8, 9, 10, 11, 12, 13, 14, 15, 16, 17, 18, 23, 24, 25}

  lemma LaidOutRanges(r: RawInput, socio: real, eth: seq<real>, row: seq<real>)
    requires LaidOut(r, socio, eth, row) && IsOneHot(eth) && 0.0 <= socio <= 2.0
    ensures forall i :: i in FlagPositions ==> IsBit(row[i])
    ensures 0.0 <= row[2] <= 2.0
    ensures row[23] + row[24] + row[25] == 1.0
  {
    OneHotSumsToOne(eth);
  }

  /** Every flag column holds 0 or 1, the ordinal lies in [0, 2] and the
      ethnicity triple sums to 1. */
  lemma EncodeRowCategoricalRange(r: RawInput)
    requires EncodeRow(r).Success?
    ensures var row := EncodeRow(r).value;
      && (forall i :: i in FlagPositions ==> IsBit(row[i]))
      && 0.0 <= row[2] <= 2.0
      && row[23] + row[24] + row[25] == 1.0
  {
    EncodeRowLayout(r);
    EthnicityOneHot(r.ethnicity);
    SocioOrdinal(r.socio);
    LaidOutRanges(r, SocioMap[r.socio], EthnicityMap[r.ethnicity], EncodeRow(r).value);
  }

  /** Measurements inside the widget bounds stay inside them in the row. */
  lemma EncodeRowWithinBounds(r: RawInput)
    requires EncodeRow(r).Success? && InWidgetBounds(r)
    ensures var row := EncodeRow(r).value;
      && AgeMin as real <= row[0] <= AgeMax as real
      && SbpMin as real <= row[19] <= SbpMax as real
      && DbpMin as real <= row[20] <= DbpMax as real
      && BmiMin <= row[21] <= BmiMax
      && HeartRateMin as real <= row[22] <= HeartRateMax as real
  {
    EncodeRowLayout(r);
  }

  /** The slider and number-input defaults (age 45, SBP 130, DBP 80, BMI
      24.0, heart rate 75) with a male, White, middle-status patient with
      good access who answers "No" to every flag. */
  const SampleAnswers: RawInput :=
    RawInput(45, "Male", "White", "Middle", "No", "No", "No", "No", "Good",
             "No", "No", "No", "No", "No", "No", "No", "No", "No", "No", "No",
             130, 80, 24.0, 75)

  /** The row those answers must produce. */
  const SampleRow: seq<real> :=
    [45.0, 1.0, 1.0,
     0.0, 0.0, 0.0, 0.0, 0.0, 0.0, 0.0, 0.0, 0.0, 0.0, 0.0, 0.0, 0.0, 0.0, 0.0,
     1.0, 130.0, 80.0, 24.0, 75.0, 0.0, 1.0, 0.0]

  lemma SampleRowHead()
    ensures |SampleRow| == 26
    ensures SampleRow[0] == 45.0 && SampleRow[1] == 1.0 && SampleRow[2] == 1.0
    ensures forall k :: 3 <= k < 18 ==> SampleRow[k] == 0.0
  {
  }

  lemma SampleRowTail()
    ensures SampleRow[18] == 1.0 && SampleRow[19] == 130.0 && SampleRow[20] == 80.0
    ensures SampleRow[21] == 24.0 && SampleRow[22] == 75.0
    ensures SampleRow[23] == 0.0 && SampleRow[24] == 1.0 && SampleRow[25] == 0.0
  {
  }

  /** Encoding the sample answers gives exactly the sample row. */
  lemma SampleExample()
    ensures EncodeRow(SampleAnswers) == Success(SampleRow)
  {
    var r := SampleAnswers;
    EthnicityOneHot(r.ethnicity);
    SocioOrdinal(r.socio);
    SampleRowHead();
    SampleRowTail();
    assert LaidOut(r, 1.0, [0.0, 1.0, 0.0], SampleRow);
    EncodeRowLayout(r);
    LaidOutUnique(r, 1.0, [0.0, 1.0, 0.0], EncodeRow(r).value, SampleRow);
  }

  /** The answers the page starts with: every slider and the number input
      at its default, and every select box on its first option (Male,
      Black, Low, "Yes" for every flag, Good). */
  const InitialAnswers: RawInput :=
    RawInput(45, "Male", "Black", "Low", "Yes", "Yes", "Yes", "Yes", "Good",
             "Yes", "Yes", "Yes", "Yes", "Yes", "Yes", "Yes", "Yes", "Yes", "Yes", "Yes",
             130, 80, 24.0, 75)

  /** The row the page starts with. */
  const InitialRow: seq<real> :=
    [45.0, 1.0, 0.0,
     1.0, 1.0, 1.0, 1.0, 1.0, 1.0, 1.0, 1.0, 1.0, 1.0, 1.0, 1.0, 1.0, 1.0, 1.0,
     1.0, 130.0, 80.0, 24.0, 75.0, 1.0, 0.0, 0.0]

  lemma InitialRowHead()
    ensures |InitialRow| == 26
    ensures InitialRow[0] == 45.0 && InitialRow[1] == 1.0 && InitialRow[2] == 0.0
    ensures forall k :: 3 <= k < 18 ==> InitialRow[k] == 1.0
  {
  }

  lemma InitialRowTail()
    ensures InitialRow[18] == 1.0 && InitialRow[19] == 130.0 && InitialRow[20] == 80.0
    ensures InitialRow[21] == 24.0 && InitialRow[22] == 75.0
    ensures InitialRow[23] == 1.0 && InitialRow[24] == 0.0 && InitialRow[25] == 0.0
  {
  }

  /** The initial answers are answers the widgets offer, and they encode to
      exactly the initial row. */
  lemma InitialExample()
    ensures FromWidgets(InitialAnswers) && InWidgetBounds(InitialAnswers)
    ensures EncodeRow(InitialAnswers) == Success(InitialRow)
  {
    var r := InitialAnswers;
    EthnicityOneHot(r.ethnicity);
    SocioOrdinal(r.socio);
    InitialRowHead();
    InitialRowTail();
    assert LaidOut(r, 0.0, [1.0, 0.0, 0.0], InitialRow);
    EncodeRowLayout(r);
    LaidOutUnique(r, 0.0, [1.0, 0.0, 0.0], EncodeRow(r).value, InitialRow);
  }

  // ---------------------------------------------------------------------
  // Inverse up to merged labels
  // ---------------------------------------------------------------------

  function YesNo(b: bool): string {
    if b then "Yes" else "No"
  }

  /** The representative of the answers' class: every label the encoder
      cannot tell apart from another is replaced by one of them. */
  function Canonical(r: RawInput): RawInput {
    RawInput(
      r.age,
      if r.gender == "Male" then "Male" else "Female",
      if r.ethnicity in {"Black", "White"} then r.ethnicity else "Other",
      r.socio,
      YesNo(r.hypertension == "Yes"), YesNo(r.diabetes == "Yes"),
      YesNo(r.cardiovascular == "Yes"), YesNo(r.familyHistory == "Yes"),
      if r.healthcare == "Good" then "Good" else "Poor",
      YesNo(r.smoking == "Yes"), YesNo(r.alcohol == "Yes"), YesNo(r.fatigue == "Yes"),
      YesNo(r.swelling == "Yes"), YesNo(r.urinaryFreq == "Yes"), YesNo(r.nocturia == "Yes"),
      YesNo(r.hematuria == "Yes"), YesNo(r.nausea == "Yes"), YesNo(r.muscleCramps == "Yes"),
      YesNo(r.pallor == "Yes"), YesNo(r.herbalMeds == "Yes"),
      r.sbp, r.dbp, r.bmi, r.heartRate)
  }

  predicate IsWhole(x: real) {
    x == x.Floor as real
  }

  /** The rows the encoder can produce. */
  predicate InImage(row: seq<real>) {
    |row| == 26
    && IsWhole(row[0]) && IsWhole(row[19]) && IsWhole(row[20]) && IsWhole(row[22])
    && (row[2] == 0.0 || row[2] == 1.0 || row[2] == 2.0)
    && (forall i :: i in FlagPositions ==> IsBit(row[i]))
    && row[23] + row[24] + row[25] == 1.0
  }

  /** Reads the answers back from a row. */
  function DecodeRow(row: seq<real>): RawInput
    requires InImage(row)
  {
    RawInput(
      row[0].Floor,
      if row[1] == 1.0 then "Male" else "Female",
      if row[23] == 1.0 then "Black" else if row[24] == 1.0 then "White" else "Other",
      if row[2] == 0.0 then "Low" else if row[2] == 1.0 then "Middle" else "High",
      YesNo(row[3] == 1.0), YesNo(row[4] == 1.0), YesNo(row[5] == 1.0), YesNo(row[6] == 1.0),
      if row[18] == 1.0 then "Good" else "Poor",
      YesNo(row[7] == 1.0), YesNo(row[8] == 1.0), YesNo(row[9] == 1.0), YesNo(row[10] == 1.0),
      YesNo(row[11] == 1.0), YesNo(row[12] == 1.0), YesNo(row[13] == 1.0), YesNo(row[14] == 1.0),
      YesNo(row[15] == 1.0), YesNo(row[16] == 1.0), YesNo(row[17] == 1.0),
      row[19].Floor, row[20].Floor, row[21], row[22].Floor)
  }

  /** Every row the encoder produces is in the image, and decoding it gives
      back the answers up to the labels the encoder merges. */
  lemma DecodeEncode(r: RawInput)
    requires EncodeRow(r).Success?
    ensures InImage(EncodeRow(r).value)
    ensures DecodeRow(EncodeRow(r).value) == Canonical(r)
  {
    var row := EncodeRow(r).value;
    EncodeRowCategoricalRange(r);
    EncodeRowLayout(r);
    SocioOrdinal(r.socio);
    EthnicityOneHot(r.ethnicity);
    assert InImage(row);
  }

  /** Every row in the image is produced by the answers decoded from it. */
  lemma EncodeDecode(row: seq<real>)
    requires InImage(row)
    ensures EncodeRow(DecodeRow(row)) == Success(row)
  {
    var r := DecodeRow(row);
    EthnicityOneHot(r.ethnicity);
    SocioOrdinal(r.socio);
    var socio, eth := SocioMap[r.socio], EthnicityMap[r.ethnicity];
    assert socio == row[2];
    assert eth[0] == row[23] && eth[1] == row[24] && eth[2] == row[25];
    assert LaidOut(r, socio, eth, row);
    EncodeRowLayout(r);
    LaidOutUnique(r, socio, eth, EncodeRow(r).value, row);
  }

  lemma LaidOutCanonical(r: RawInput, socio: real, eth: seq<real>, row: seq<real>)
    requires LaidOut(r, socio, eth, row)
    ensures LaidOut(Canonical(r), socio, eth, row)
  {
  }

  /** Canonicalising the answers does not change the row. */
  lemma EncodeCanonical(r: RawInput)
    requires EncodeRow(r).Success?
    ensures EncodeRow(Canonical(r)) == EncodeRow(r)
  {
    var c := Canonical(r);
    EthnicityOneHot(r.ethnicity);
    EthnicityOneHot(c.ethnicity);
    var socio, eth := SocioMap[r.socio], EthnicityMap[r.ethnicity];
    assert EthnicityMap[c.ethnicity] == eth;
    EncodeRowLayout(r);
    EncodeRowLayout(c);
    LaidOutCanonical(r, socio, eth, EncodeRow(r).value);
    LaidOutUnique(c, socio, eth, EncodeRow(c).value, EncodeRow(r).value);
  }

  /** Two sets of answers give the same row exactly when they agree up to
      the labels the encoder merges: "Yes" against everything else, "Male"
      against everything else, "Good" against everything else, and Asian,
      Hispanic and Other. */
  lemma SameRowIffSameClass(r1: RawInput, r2: RawInput)
    requires EncodeRow(r1).Success? && EncodeRow(r2).Success?
    ensures EncodeRow(r1) == EncodeRow(r2) <==> Canonical(r1) == Canonical(r2)
  {
    if EncodeRow(r1) == EncodeRow(r2) {
      DecodeEncode(r1);
      DecodeEncode(r2);
    }
    if Canonical(r1) == Canonical(r2) {
      EncodeCanonical(r1);
      EncodeCanonical(r2);
    }
  }

  // ---------------------------------------------------------------------
  // Threshold
  // ---------------------------------------------------------------------

  /** The comparison is strict: exactly one half is low risk, anything
      above it is high risk. */
  lemma RiskThresholdStrict()
    ensures RiskLabel(0.5) == LowRisk
    ensures RiskLabel(0.5001) == HighRisk
    ensures forall p :: p <= 0.5 ==> RiskLabel(p) == LowRisk
  {
  }

  /** A larger probability never lowers the label. */
  lemma RiskLabelMonotone(p: real, q: real)
    requires p <= q
    ensures RiskLabel(p) == HighRisk ==> RiskLabel(q) == HighRisk
    ensures RiskLabel(q) == LowRisk ==> RiskLabel(p) == LowRisk
  {
  }
}
