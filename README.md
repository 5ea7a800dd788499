# Mental Health Cluster Insight Tool — scoring and banding core

A model in Dafny of the scoring pipeline of the Mental Health Cluster Insight
Tool (`app.py`). A respondent answers eight questions. The answers to six
"core symptom" questions are weighted through a severity map and summed into
the severity index (MDI). The index falls in a risk band (Low, Moderate,
High). The core answers are embedded, undefined cells are filled with 0, the
first three columns are doubled, and the band's classifier gives a cluster id.
The report shows band-keyed text, a colour, and a marker on a five-cell scale.

Modules:

- `Wrappers` (`wrappers.dfy`): `Option` and `Result`.
- `Questionnaire` (`questionnaire.dfy`): the question keys (`features`), the
  core symptom keys, the options of each question, and the answer set the
  form builds.
- `Scoring` (`scoring.dfy`): `calculate_mdi` and `assign_risk_band`. The
  severity map is a parameter of type `map<string, int>`. An answer missing
  from the map weighs 1. A missing core answer (a `KeyError` in the program)
  is a `Failure` naming the first unanswered core key.
- `Report` (`report.dfy`): the diagnosis, meaning, suggestions and colour
  tables, and the scale marker of the document.
- `Prediction` (`prediction.dfy`): `predict_cluster`. The embedding and the
  per-band classifiers are parameters. Filling is a function on rows of
  `Option<real>`. The reweighting is a method that updates an `array<real>`
  in place. A band with no classifier (a `KeyError` in the program) is a
  `Failure`.

Choices the model makes:

- An answer the severity map does not know weighs 1, as `.get(answer, 1)`
  does at app.py:103.
- The index is not assumed non-negative, because `app.py` never checks the
  severity map's weights. The bounds lemma takes non-negative weights as a
  precondition.
- A band missing from the classifier registry fails when a prediction is
  requested, at the lookup `cluster_models[risk_band]` (app.py:180).

## Model

| member | source | states |
|---|---|---|
| Questionnaire.CoreSymptomsAreFeatures | app.py:39-96 | every core key is a question key; every question key has a configured, non-empty option list; the question keys are distinct |
| Questionnaire.BuildAnswerSet | app.py:280 | the answer set built from one selection per question answers exactly the question keys, each with the option selected for it |
| Questionnaire.FormAnswersCoverCore | app.py:50-57 | an answer set from the form answers every core key, so the index and the embedding column selection never miss a key |
| Scoring.MdiOver | app.py:103 | the sum succeeds exactly when every key is answered, and is then the sum of the weights (map weight, or 1 for an unknown answer); otherwise it fails with the first unanswered key |
| Scoring.FormAnswersHaveMdi | app.py:102-103 | an answer set from the form always has an index, the sum of the weights over the six core keys |
| Scoring.SumWeightsDependsOnlyOnKeys | app.py:103 | the sum over some keys depends only on the answers to those keys |
| Scoring.MdiDependsOnlyOnCore | app.py:50-57 | answer sets that agree on the core keys have the same index, or fail on the same key; `family_history` and `treatment` never contribute |
| Scoring.SumWeightsBounds | app.py:103 | with weights in 0..cap, the sum over n keys is between 0 and n * max(1, cap) |
| Scoring.MdiBounds | app.py:102-103 | with weights in 0..cap, cap being the largest weight, the index is between 0 and 6 * max(1, cap) |
| Scoring.SumWeightsAllUnknown | app.py:103 | when no answer is in the severity map, the sum over n keys is n |
| Scoring.MdiAllUnknown | app.py:103 | when no core answer is in the severity map, the index is exactly 6 |
| Scoring.AssignRiskBand | app.py:105-111 | total on the integers: High exactly when the index is at least 8, Moderate exactly when it is 4..7, Low exactly when it is below 4 |
| Scoring.RiskBandMonotone | app.py:105-111 | a higher index never gives a lower band, under Low < Moderate < High |
| Scoring.RiskBandBoundaries | app.py:105-111 | index 3 is Low, 4 and 7 are Moderate, 8 is High |
| Scoring.BandNamesDistinct | app.py:106-111 | the three band names differ, so each band has its own table entries |
| Report.MarkerAgreesWithBand | app.py:227 | for every integer index the marker has five cells and fills exactly the cell of the band the index falls in: first Low, middle Moderate, last High |
| Report.BandTablesCoverEveryBand | app.py:117-166 | the band of every index is a key of the diagnosis, meaning, suggestions and colour tables, and its suggestion list is non-empty |
| Report.BandTablesKeys | app.py:196-200 | the four tables have the same keys, exactly the three band names |
| Report.ContentFor | app.py:283-295 | the page and document content for an index: the index itself (the MDI score shown), the index's band, that band's texts, suggestions (non-empty) and colour, and the scale marker of the index, five cells with only the band's cell filled |
| Prediction.FillMissing | app.py:177 | filling keeps the row length; undefined cells become 0 and defined cells keep their value |
| Prediction.FillMissingKeepsDefinedRow | app.py:177 | filling a row with every cell defined gives back its values |
| Prediction.FillMissingAllUndefined | app.py:177 | filling a row of undefined cells gives zeros |
| Prediction.ScaleLeading | app.py:178 | scaling keeps the row length, multiplies the first k columns by the factor and leaves every later column unchanged |
| Prediction.ScaleLeadingIdentity | app.py:178 | scaling by 1, or scaling no column, changes nothing |
| Prediction.ReweightInPlace | app.py:178 | the array afterwards is the old row with its first three columns doubled and the rest unchanged |
| Prediction.CoreRow | app.py:176-177 | the embedding input is the six core answers, in core order |
| Prediction.PredictCluster | app.py:172-183 | the method, reweighting in place, returns what the pipeline specifies: index, band and cluster id, or the lookup that failed |
| Prediction.PredictSucceeds | app.py:172-183 | a form answer set with a classifier for every band always gets a prediction whose index is the core sum and whose band is that index's band |
| Prediction.PredictFailsOnlyOnLookup | app.py:180 | the prediction fails exactly when a core answer is missing or the band has no classifier |
| Prediction.PredictDependsOnlyOnCore | app.py:172-183 | answer sets that agree on the core keys get the same index, band and cluster id |

## Left out

- The Streamlit page (title, name field, select boxes, button, messages, download button) is user interface. Only the answer set it builds and the table lookups it makes are modelled.
- Loading the three artifacts from disk and caching them are file I/O. The severity map, embedding and classifiers are parameters instead.
- The MCA embedding and the classifiers are opaque pre-trained models with floating-point internals. They are uninterpreted function parameters, and `real` stands in for floating point.
- Document layout, colours as rendered, the respondent's name and the generation time are ReportLab layout and clock reading. Only the marker rule, the table contents and the colour keys are modelled.
- The data frame built from the answers is modelled as a single row; `astype(str)` is the identity because every answer is already a string.
- Report.MarkerAgreesWithBand: holds for integer indexes only. If the severity map held fractional weights, an index such as 3.5 would get the Moderate marker but the Low band.
- Identical inputs give identical predictions by construction, because `Predict` is a function; there is no separate lemma for it.
