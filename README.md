# Crime prediction pipeline — a Dafny model

This project models the prediction block of the Crime Analytics & Prediction
System's Streamlit page (`app.py`), which runs when the user presses
"Predict Crime Trends". For the chosen state, crime category and target year,
the page loops over every crime type in the type encoder's vocabulary. For each
type it

- builds a single-row frame from the four UI fields;
- writes every entry of the defaults mapping onto that frame;
- replaces the state, category and type labels by their label-encoder codes;
- projects the frame onto the model's ordered `feature_name_`;
- scores the frame with the model.

It then sorts the `(crime type, score)` pairs by score, descending and stable,
and keeps the first five. Each kept score gets a High / Moderate / Low label
(thresholds 150 and 80). Exactly one banner is shown: High if any kept score is
above 150, else Moderate if any is above 80, else "Situation Stable".

Modules:

- `Values` (values.dfy): frame cells (`Value`), the two errors the block can
  raise (`UnknownLabel`, `MissingColumns`), `Result`, and `Prediction`.
- `Encoders` (encoders.dfy): a fitted label encoder as its `classes_`
  vocabulary. `Transform` gives a label's position in the vocabulary and fails
  on a label the encoder has not seen.
- `Rows` (rows.dfy): the frame as a `map<string, Value>`.
  - `AssignDefaults` is the in-place defaults loop, as a method with a loop.
  - `EncodeColumn` and `Encoded` are the three encoding statements.
  - `Aligned` is the projection `input_df[model.feature_name_]`.
- `Ranking` (ranking.dfy): a stable descending insertion sort and `Top5`.
  Stability is stated with `WithScore`, the subsequence of entries that have
  a given score. It is proved that a stable descending sort is unique, so
  `Top5` agrees with Python's `sorted(..., reverse=True)[:5]`.
- `Risk` (risk.dfy): `Classify`, the most severe label `Severest`, the banner
  choice `AlertFor`, and `ScanTop`, the display loop that raises the two flags.
- `Pipeline` (pipeline.dfy):
  - `CandidateFeatures` specifies the feature row for one crime type.
  - `ScoreCandidate` builds that row imperatively and scores it.
  - `PredictAll` is the `results` loop, proved against its specification
    `ScoreAll`.
  - `RunPrediction` is the whole action.

The model's `predict` is a parameter of type `seq<Value> -> real`. It is an
arbitrary function of one aligned row, so each crime type's score depends on
its own row alone.

Two behaviours of the code worth stating:

- Nothing in app.py keeps the defaults mapping away from the four UI columns.
  The defaults are written after them, so a default with the same name
  replaces the UI value. `AssignDefaults` states this.
  `CandidateFeaturesContents` assumes the defaults do not name a categorical
  column.
- Alignment is a projection. Unnamed columns are dropped. An absent named
  column raises pandas' `KeyError`, which lists every absent name; the model
  reports them all, in feature order (`MissingColumns`).

## Model

| member | source | states |
|---|---|---|
| `Encoders.IndexOf` | app.py:147-149 | the looked-up position is present exactly when the label is in the vocabulary, holds that label, and is its first occurrence |
| `Encoders.Transform` | app.py:147-149 | a cell is encoded exactly when it holds a vocabulary label; the code is in [0, vocabulary size) and indexes back to that label; anything else is an UnknownLabel error for that column and value |
| `Encoders.TransformRoundTrip` | app.py:147-149 | for an encoder without repeated labels, the label at position i encodes to i, so decoding a code gives back its label and distinct labels get distinct codes |
| `Rows.BaseRow` | app.py:137-142 | no contract of its own: the frame with key set {state, category, type, year} holding the three UI labels and the year; its use is stated by `AssignDefaults` and `CandidateFeaturesContents` |
| `Rows.AssignDefaults` | app.py:144-145 | after all defaults are written (in any order): the key set is the frame's keys plus the default keys; every default key holds its default; every other column keeps its value |
| `Rows.EncodeColumn` | app.py:147-149 | one column overwrite succeeds exactly when the column exists and holds a known label; it changes that cell to the label's code and nothing else; otherwise it gives a KeyError for the column or an UnknownLabel error |
| `Rows.EncodedFields` | app.py:147-149 | encoding succeeds exactly when state, category and type all hold known labels; then the key set is unchanged, those three cells become their codes, and every other column (year and defaults included) is untouched |
| `Rows.Encoded` | app.py:147-149 | no contract of its own: the three encoding statements in order; its contract is stated by `EncodedFields` |
| `Rows.Missing` | app.py:151 | a name is reported missing exactly when the model names it and the frame lacks it |
| `Rows.Aligned` | app.py:151 | alignment succeeds exactly when every feature name is a column; the result then has one cell per feature name, in order, the i-th being the frame's cell for the i-th name; otherwise it is a KeyError listing the missing names, never a default zero |
| `Rows.AlignedIgnoresOtherColumns` | app.py:151 | two frames that agree on the named features align identically, so columns the model does not name never affect the result |
| `Ranking.SortDesc` | app.py:159 | the sorted list is non-increasing in score and a permutation of the input |
| `Ranking.SortStable` | app.py:159 | for every score value, the entries with that score appear in the sorted list in their input order |
| `Ranking.SortedUnique` | app.py:159 | two non-increasing lists that agree on the ordered entries of every score are equal, so a stable descending sort has exactly one possible result |
| `Ranking.Top5` | app.py:159 | the top list has min(5, n) entries, is non-increasing, is a sub-multiset of the results, and every dropped entry scores no higher than every kept one |
| `Ranking.Top5Stable` | app.py:159 | for every score value, the kept entries with that score are the first entries of that score in the results, in order |
| `Ranking.Top5OfStableSort` | app.py:159 | for any stable descending sort t of the results (what Python's `sorted(..., reverse=True)` returns), Top5 is t's first min(5, n) entries |
| `Risk.Classify` | app.py:167-174 | High exactly when the score is above 150; Moderate exactly when it is above 80 and at most 150; Low exactly when it is at most 80 |
| `Risk.ClassifyMonotone` | app.py:167-174 | a higher score never gets a lower label; 150 itself is Moderate and 80 itself is Low |
| `Risk.Severest` | app.py:166-176 | the most severe label is High exactly when some score is above 150, and is not Low exactly when some score is above 80 |
| `Risk.AlertFor` | app.py:180-189 | exactly one banner: High exactly when some top score is above 150; Moderate exactly when none is above 150 and some is above 80; Stable exactly when all are at most 80 |
| `Risk.ScanTop` | app.py:163-189 | the display loop labels each top entry with its classification and, through the two flags, selects the banner AlertFor gives |
| `Pipeline.CandidateFeatures` | app.py:137-151 | no contract of its own: the specification of one type's aligned row that `ScoreCandidate` and `ScoreAll` are proved against; its contract is stated by `CandidateFeaturesContents` and `CandidateUnknownLabel` |
| `Pipeline.CandidateFeaturesContents` | app.py:137-151 | assume the UI labels come from the vocabularies and no default names a categorical column. Then a row is built exactly when every model feature is a UI column or a default. Each aligned cell is the chosen label's code, the default value, or the year |
| `Pipeline.CandidateUnknownLabel` | app.py:147-149 | a state, or else a category, outside its encoder's vocabulary fails the row with UnknownLabel for that label |
| `Pipeline.ScoreCandidate` | app.py:137-153 | the imperative per-type body (build, defaults, encode in place, align, predict) gives the model's score of the row CandidateFeatures specifies, or exactly that row's error |
| `Pipeline.ScoreAll` | app.py:132-154 | the results list exists exactly when every type's row builds. It then has one pair per vocabulary entry, in vocabulary order; each pair holds its own type and the score of its own row. Otherwise the error is that of the first failing type |
| `Pipeline.PredictAll` | app.py:132-154 | the loop over `encoders["type"].classes_` produces exactly ScoreAll's list or error |
| `Pipeline.RunPrediction` | app.py:131-189 | the full action fails exactly when the results list fails, with the same error. Otherwise it shows the Top5 of the results, each with its Classify label, and the AlertFor banner |

## Left out

- The Streamlit UI is left out: page configuration, sidebar routing, select boxes, slider, button, markdown text, the embedded Power BI frame and the feedback form. They are presentation only. The request's state, category and year are parameters.
- Artifact loading is left out: `os.path.exists`, `joblib.load`, `st.error` / `st.stop` and `@st.cache_resource`. This is file I/O and framework caching. The loaded encoders, defaults and feature names are parameters.
- The encoder bank is a record of three encoders. The `KeyError` raised when the pickled dictionary lacks one of "state", "category", "type" is an artifact defect and is not modelled.
- LightGBM's `predict` is not modelled. It is a foreign tree ensemble and stays an arbitrary function from an aligned row to a score. Floating-point scores are modelled as `real`; only the comparisons with 80 and 150, and the ordering, matter.
- scikit-learn's `LabelEncoder` internals are not modelled. A cell that is not a string label, or a label outside `classes_`, is one UnknownLabel error. The model does not distinguish the exception types scikit-learn would raise.
- The vocabulary's sortedness (`classes_` comes from `np.unique`) is not modelled. Results follow the vocabulary's order, whatever it is.
- pandas mechanics are not modelled: dtypes, broadcasting a scalar into a column, the one-row frame, and the exact text of the `KeyError`. The frame is a map from column name to one cell.
- The display formatting `crime.replace('_', ' ').title()` and the ranking numbers are string cosmetics and are not modelled. The labels are returned to the caller in top-five order.
- The static banner texts and the "Recommended Actions" markdown are not modelled. The banner is the `Alert` value.
