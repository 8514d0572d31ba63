# CKD risk predictor: feature encoder and risk threshold

The CKD Risk Predictor page collects a patient's answers through form widgets. It makes them into a single 26-column numeric row:

- Yes/No flags.
- A Male flag and a Good-healthcare flag.
- A socioeconomic ordinal.
- The raw measurements.
- A one-hot ethnicity triple.

It then hands the row to a pre-trained classifier and shows "High Risk" when the probability of the CKD class is strictly above one half.

The model has three modules:

- `Wrappers`: a failure-compatible `Result`. It stands in for the `KeyError` that the page's two dictionary subscripts raise.
- `CkdEncoder`: the model of the page's logic.
  - The answers, as `RawInput`.
  - The widget bounds.
  - `Encode`, `EthnicityMap` and `SocioMap`.
  - The column list `Columns`.
  - The row (`EncodeRow`, built by `Row`).
  - The threshold (`RiskLabel`).
  - One submission (`Assess`). Here the classifier is a parameter.
- `EncoderProperties`: what the encoder promises.
  - The position-by-position layout of the row (`LaidOut`).
  - A reference meaning for each column (`Column`, `ColumnName`, `Feature`), independent of position. `Schema` lists the columns in row order, and lemmas show that `Schema`, mapped to names, is exactly `Columns`.
  - The lookup errors.
  - The one-hot triple.
  - The ranges and bounds of the entries.
  - An inverse, `DecodeRow`. It recovers the answers up to the labels the encoder merges (`Canonical`).
  - The strictness and monotonicity of the threshold.

Values in the row are `real`: the page's integers are converted exactly, and BMI is a real. Only an unknown ethnicity (streamlit_app.py:57) or socioeconomic label (streamlit_app.py:62) raises `KeyError`; every other field encodes any value other than "Yes", "Male" or "Good" as 0.

Lemmas about the list literals that only split a fact into parts (`RowHead`, `RowFlagsFirst`, `RowFlagsLast`, `RowTail`, `ColumnNamesFirst`, `ColumnNamesLast`, and the `Head`/`Tail` lemmas of the two example rows) are helpers and have no row below.

## Model

| member | source | states |
|---|---|---|
| CkdEncoder.Flags | streamlit_app.py:63-67 | the fifteen Yes/No answers in the order the row encodes them |
| CkdEncoder.InWidgetBounds | streamlit_app.py:18-46 | age, SBP, DBP, BMI and heart rate lie within the slider and number-input bounds 18-100, 90-200, 60-120, 10.0-60.0 and 40-150 |
| CkdEncoder.FromWidgets | streamlit_app.py:19-39 | every categorical answer is one of the options its select box offers |
| CkdEncoder.EthnicityMap | streamlit_app.py:50-56 | Black, White, Other, Asian and Hispanic map to [1,0,0], [0,1,0] and [0,0,1] for the last three |
| CkdEncoder.SocioMap | streamlit_app.py:62 | Low, Middle and High map to 0, 1 and 2 |
| CkdEncoder.Columns | streamlit_app.py:71-78 | the 26 column names in the page's order |
| CkdEncoder.Encode | streamlit_app.py:49 | a Yes/No answer encodes as 0 or 1, and as 1 exactly for "Yes" |
| CkdEncoder.Lookup | streamlit_app.py:57 | a dictionary subscript succeeds exactly when the key is present, gives its value, and otherwise fails with KeyError naming the key |
| CkdEncoder.EncodeRow | streamlit_app.py:57-78 | a row is produced exactly when both the ethnicity and the socioeconomic label are known; the ethnicity KeyError is reported first; every row has as many entries as there are column names, 26 |
| CkdEncoder.Row | streamlit_app.py:59-70 | the row literal has 23 entries before the unpacked ethnicity triple |
| CkdEncoder.RiskLabel | streamlit_app.py:86-89 | the label is High Risk exactly when the probability is strictly greater than 0.5 |
| CkdEncoder.Assess | streamlit_app.py:57-89 | a submission fails exactly when encoding fails, with the same KeyError; otherwise it is High Risk exactly when the classifier's CKD probability for the encoded row exceeds 0.5 |
| EncoderProperties.ColumnsDistinct | streamlit_app.py:71-78 | the 26 column names are pairwise different |
| EncoderProperties.SchemaAt | streamlit_app.py:71-78 | the row's columns, position by position |
| EncoderProperties.SchemaNamesColumns | streamlit_app.py:71-78 | column i of the schema bears the name at position i of the column list |
| EncoderProperties.OneHotSumsToOne | streamlit_app.py:50-56 | a one-hot triple sums to 1 |
| EncoderProperties.EthnicityOneHot | streamlit_app.py:50-57 | the ethnicity lookup succeeds on exactly Black, White, Other, Asian and Hispanic; each gives a one-hot triple summing to 1: Black [1,0,0], White [0,1,0], Other, Asian and Hispanic [0,0,1] |
| EncoderProperties.EthnicityColumns | streamlit_app.py:50-56 | the triple of a known ethnicity is its Black, White and Other-or-Asian-or-Hispanic indicators |
| EncoderProperties.SocioOrdinal | streamlit_app.py:62 | the socioeconomic lookup succeeds on exactly Low, Middle and High, giving 0, 1 and 2, so always a value in [0, 2]; any other label is a KeyError naming it |
| EncoderProperties.EncodeRowKeyError | streamlit_app.py:57-62 | the row is produced exactly for known ethnicity and status labels; an unknown ethnicity is the reported KeyError, and an unknown status is reported when the ethnicity is known |
| EncoderProperties.FromWidgetsEncodes | streamlit_app.py:19-39 | answers taken from the select boxes' own options always encode |
| EncoderProperties.RowLaidOut | streamlit_app.py:59-70 | the row literal is laid out position by position as the column list says |
| EncoderProperties.EncodeRowLayout | streamlit_app.py:57-78 | every encoded row is laid out position by position with the looked-up ordinal and triple |
| EncoderProperties.LaidOutUnique | streamlit_app.py:59-78 | the layout determines the row completely |
| EncoderProperties.LaidOutMatchesSchema | streamlit_app.py:59-78 | a laid-out row carries, at each position, the value the column there means |
| EncoderProperties.EncodeRowMatchesColumns | streamlit_app.py:59-78 | for every i, entry i of the encoded row is the value of the column named at position i of the column list |
| EncoderProperties.LaidOutRanges | streamlit_app.py:49-70 | every flag position holds 0 or 1, the ordinal lies in [0, 2], and the triple sums to 1 |
| EncoderProperties.EncodeRowCategoricalRange | streamlit_app.py:49-70 | in every encoded row the flag columns are 0 or 1, Socioeconomic_Status is in [0, 2], and the ethnicity columns sum to 1 |
| EncoderProperties.EncodeRowWithinBounds | streamlit_app.py:18-46 | measurements within the widget bounds (age 18-100, SBP 90-200, DBP 60-120, BMI 10.0-60.0, heart rate 40-150) stay within them in the row |
| EncoderProperties.SampleExample | streamlit_app.py:18-78 | the slider and number-input defaults with Male, White, Middle, Good and every flag No encode to exactly the 26-value row 45, 1, 1, fifteen zeros, 1, 130, 80, 24.0, 75, 0, 1, 0 |
| EncoderProperties.InitialExample | streamlit_app.py:18-78 | the answers the page starts with (every slider and the number input at its default, every select box on its first option: Male, Black, Low, every flag Yes, Good) are widget answers and encode to exactly 45, 1, 0, fifteen ones, 1, 130, 80, 24.0, 75, 1, 0, 0 |
| EncoderProperties.DecodeEncode | streamlit_app.py:49-78 | every encoded row lies in the image, and decoding it gives back the answers up to the labels the encoder merges |
| EncoderProperties.EncodeDecode | streamlit_app.py:49-78 | every row in the image is the encoding of the answers decoded from it |
| EncoderProperties.LaidOutCanonical | streamlit_app.py:49-70 | merging indistinguishable labels keeps the layout |
| EncoderProperties.EncodeCanonical | streamlit_app.py:49-78 | encoding is idempotent up to merged labels: the canonical answers give the same row |
| EncoderProperties.SameRowIffSameClass | streamlit_app.py:49-78 | two sets of answers give the same row if and only if they agree up to the merged labels ("Yes" against all else, "Male" against all else, "Good" against all else, and Asian, Hispanic and Other) |
| EncoderProperties.RiskThresholdStrict | streamlit_app.py:86-89 | probability exactly 0.5, or anything below it, is Low Risk; 0.5001 is High Risk |
| EncoderProperties.RiskLabelMonotone | streamlit_app.py:86-89 | a larger probability never gives a lower label |

## Left out

- Page layout, titles, markdown, the footer and the advisory banner texts: these are presentation only. The banner is modelled as the `Risk` value it selects.
- The widgets themselves: their options and bounds are the predicates `FromWidgets` and `InWidgetBounds`, and the answers they start with are the constant `InitialAnswers`. The widgets' clamping of input is not modelled.
- The button: `Assess` models one submission. The page evaluates the ethnicity and status subscripts on every rerun, before the button is read, so a KeyError aborts the page whether or not the button is pressed; the model only shows that the submission fails.
- Loading the classifier from disk: the file format and the classifier's internals cannot be modelled. The classifier's CKD-class probability is the function parameter `positiveProb` of `Assess`.
- The percentage formatting of the probability and the AUC caption: text formatting only.
- The DataFrame wrapper: the model keeps its one row and its column names, not pandas dtypes or indexing.
- Floating point: probabilities, BMI and the row are `real`, so rounding is not modelled.
- The second variant of the page, with a model picker, an education ordinal and a scaling step: it is not part of this model.
