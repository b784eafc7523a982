# Hip replacement pain predictor — prediction policy

This project models the decision logic of a single-page calculator. The calculator
predicts a post-operative hip-pain score on a 0–8 scale at two follow-up
timepoints: T3 (three years) and T5 (five years). The logic covers:

- reading the timepoint: upper-case it, then accept only `T3` or `T5`;
- loading the trained model and its preprocessor for that timepoint;
- checking that the patient record holds every feature the model needs, and
  reporting every missing name, in list order;
- clipping the model's output into [0, 8];
- the closed-form demo heuristic, with defaults for absent inputs and its own
  clamp;
- the button handler's policy: demo mode uses the heuristic, trained mode tries
  the model and falls back to the heuristic on any error;
- the pain-level label: minimal, mild, moderate or severe;
- the intake form: the timepoint code taken from the sidebar choice, the widget
  each feature gets, and the loop that fills the patient dictionary.

Modules, one per concern of `app.py`:

- `Records` (records.dfy): patient values, the error taxonomy, `Result`, and the clamp.
- `Timepoints` (timepoints.dfy): the timepoint, and upper- and lower-casing.
- `FeatureCatalog` (feature_catalog.dfy): the two feature lists and the missing-feature report.
- `ModelPredictor` (model_predictor.dfy): the trained path `predict_with_model`.
- `DemoPredictor` (demo_predictor.dfy): `predict_in_demo_mode`.
- `Orchestration` (orchestration.dfy): demo-mode selection, the fallback policy, and the label.
- `IntakeForm` (intake_form.dfy): the sidebar code, the widgets, the form loop, and end-to-end guarantees.

Values are exact: scores are Dafny `real`, so 2.0 + 0.25 + 0.65 + 1.0 − 0.5 is
exactly 3.4. A Python number or boolean in the record is `Num`, and a string is
`Text`. The trained model, the preprocessor, deserialisation, file presence and
pandas' number-to-text cast are fields of an `Artifacts` value that the model
never inspects. Every exception becomes an `Err` of `Result`.

## Behaviour worth knowing

- The heuristic never validates the timepoint. Any string other than exactly
  `"T3"`, including `"t3"`, gets the five-year formula
  (`DemoTimepointNotValidated`). The trained path upper-cases first, so it
  accepts `"t3"` as T3 (`ParseTimepoint`).
- The heuristic multiplies a number by whatever the record holds. Text under
  `BMI_Current`, `AgePreOp`, `Pre-Op Pain` or (for T3) `WalkPain` raises, and
  the outer handler at app.py:326-327 reports it. `DemoRaw` and `DemoPredict`
  model this as `NotANumber` naming the first such key.
  `FormRequestAlwaysScores` proves it cannot happen for a record the form
  builds (`FillPatientForm`).
- Demo mode starts when the models directory is missing or when any one of the
  four artifact files is missing (`UseDemoMode`).

## Model

| member | source | states |
|---|---|---|
| `Records.Clamp` | app.py:120-121 | the result lies in [lo, hi]; a value already inside is returned unchanged; a value below lo gives lo; a value above hi gives hi |
| `Timepoints.Upper` | app.py:91-92 | upper-casing keeps the length and upper-cases each character on its own |
| `Timepoints.Lower` | app.py:60-61 | lower-casing keeps the length and lower-cases each character on its own |
| `Timepoints.UpperGivesCode` | app.py:92-93 | exactly "T3" and "t3" upper-case to "T3", and exactly "T5" and "t5" upper-case to "T5" |
| `Timepoints.ParseTimepoint` | app.py:91-94 | exactly "T3" and "t3" give T3 and exactly "T5" and "t5" give T5; every other string fails, and always with InvalidTimepoint |
| `Timepoints.ParseCode` | app.py:91-100 | the canonical code of each timepoint passes the check and gives that timepoint back |
| `Timepoints.LowerCode` | app.py:58-61 | the file stem of the artifact names is "t3" or "t5" |
| `FeatureCatalog.Required` | app.py:22-33 | T3 needs 13 features and T5 needs 12; no name is repeated; both lists contain the four inputs of the heuristic |
| `FeatureCatalog.Missing` | app.py:102-103 | a name is reported exactly when it is required and absent from the record; the report is never longer than the required list |
| `FeatureCatalog.MissingEmptyIff` | app.py:102-105 | the report is empty, so no error is raised, exactly when every required name is in the record |
| `FeatureCatalog.MissingInListOrder` | app.py:102-103 | the reported names keep the order they have in the required list |
| `FeatureCatalog.MissingIsUnique` | app.py:102-105 | for a duplicate-free required list, the report is the only in-order selection holding exactly the absent names |
| `FeatureCatalog.MissingOfConcat` | app.py:102-103 | the report of a concatenated list is the concatenation of the reports, so names are visited one at a time, left to right |
| `FeatureCatalog.MissingIgnoresExtraKeys` | app.py:102-103 | two records with the same required names present give the same report, whatever extra keys and values they hold |
| `ModelPredictor.ArtifactPath` | app.py:60-61 | an artifact file of T3 is streamlit_models/t3 followed by the suffix, and one of T5 is streamlit_models/t5 followed by the suffix; the model and preprocessor paths take "_model.joblib" and "_preprocessor.joblib" |
| `ModelPredictor.LoadModels` | app.py:58-73 | loading succeeds exactly when both files exist and both deserialise; a missing file gives ArtifactsMissing, whether or not loading would succeed; present files that fail to deserialise give LoadFailed |
| `ModelPredictor.CoerceHeadSize` | app.py:110-112 | the keys are unchanged; every value other than HeadSize is unchanged; a numeric HeadSize becomes the text the cast renders for it; a HeadSize that is already text is kept |
| `ModelPredictor.ModelPredict` | app.py:75-123 | a success lies in [0, 8], and comes only when the timepoint is valid, the files loaded, every required feature was present and the model gave an output; InvalidTimepoint comes exactly when the upper-cased string is not T3 or T5; for a valid timepoint a loading error is returned as it is, before any feature check; a missing-feature error is non-empty and names exactly the report; PredictionFailed comes exactly when those checks pass and the preprocessor or the model raises; the trained path never raises NotANumber |
| `ModelPredictor.ModelPredictCaseInsensitive` | app.py:91-94 | "t3" and "t5" give the same trained result as "T3" and "T5" |
| `ModelPredictor.ModelPredictClips` | app.py:114-121 | once the checks pass, a raw output in [0, 8] is returned unchanged, and one outside is replaced by the nearer bound |
| `ModelPredictor.ModelPredictRaises` | app.py:114-118 | once the checks pass, a preprocessor or model that raises makes the call fail with PredictionFailed |
| `ModelPredictor.ArtifactsCheckedBeforeFeatures` | app.py:96-105 | with a valid timepoint and an artifact file absent, the error is ArtifactsMissing whatever the record lacks |
| `ModelPredictor.MissingFeaturesExactly` | app.py:99-105 | once the artifacts load, a missing-feature error comes exactly when some required name is absent |
| `DemoPredictor.NumberOr` | app.py:130-133 | an absent key gives the default; a number gives itself; text fails with NotANumber naming the key |
| `DemoPredictor.T3FormulaWeights` | app.py:130-135 | in the three-year formula a unit of BMI or age adds 0.01, a unit of pre-operative pain adds 0.2, and a unit of walking pain takes away 0.1 |
| `DemoPredictor.T5FormulaWeights` | app.py:139-144 | in the five-year formula a unit of BMI adds 0.008, a unit of age 0.005, a unit of pre-operative pain 0.15, and a posterior approach takes away 0.5 |
| `DemoPredictor.NumericInputs` | app.py:128-141 | WalkPain is a multiplied input only when the timepoint is exactly "T3" |
| `DemoPredictor.DemoRaw` | app.py:128-144 | the unclamped heuristic succeeds exactly when every multiplied input is absent or a number, and a failure names the first input, in evaluation order, that is text; a success is the three-year formula when the timepoint is exactly "T3" and the five-year formula otherwise, applied to the record's numbers, with the defaults for absent keys |
| `DemoPredictor.DemoPredict` | app.py:125-147 | every success lies in [0, 8] and is the raw heuristic clamped into [0, 8]; it succeeds exactly when every multiplied input is absent or a number; a failure is the raw heuristic's failure, naming one of those inputs |
| `DemoPredictor.DemoT3Defaults` | app.py:128-136 | with the four inputs absent, the three-year heuristic is exactly 3.4 |
| `DemoPredictor.DemoT5Defaults` | app.py:137-145 | with the inputs absent, the five-year heuristic is exactly 2.275 for a posterior approach and 2.775 otherwise |
| `DemoPredictor.DemoApproachTerm` | app.py:142-144 | `IsPosterior`: the text "Posterior" lowers the five-year raw score by exactly 0.5 compared with no approach; any other value leaves it as with no approach |
| `DemoPredictor.DemoTimepointNotValidated` | app.py:125-137 | every timepoint string other than exactly "T3" gives the same result as "T5" |
| `DemoPredictor.DemoKeepsInRangeScores` | app.py:135-145 | a raw heuristic score already in [0, 8] is returned unchanged |
| `Orchestration.ModelsExist` | app.py:149-158 | the startup check passes exactly when both timepoints find their model and preprocessor files on the trained path |
| `Orchestration.UseDemoMode` | app.py:171-179 | trained mode is used exactly when the directory exists and all four artifact files are present |
| `Orchestration.Predict` | app.py:258-270 | a score lies in [0, 8]; the source is Trained exactly when not in demo mode and the model succeeded; a trained score equals the model result; a demo score equals the heuristic result; a fallback carries a reason exactly when not in demo mode, and the reason is the error the model raised; the request fails only when the heuristic was used and failed, and then with NotANumber |
| `Orchestration.RaisingModelFallsBack` | app.py:265-270 | outside demo mode, a model or preprocessor that raises sends the request to the heuristic, with PredictionFailed as the reason, or to the heuristic's own error |
| `Orchestration.DemoModeIgnoresArtifacts` | app.py:261-263 | in demo mode the result does not depend on the artifacts |
| `Orchestration.Interpret` | app.py:305-319 | minimal means score ≤ 2; mild means 2 < score ≤ 4; moderate means 4 < score ≤ 6; severe means score > 6 (`LevelName` and `LevelColour` give the word and the heading colour the page shows for each level) |
| `Orchestration.InterpretMonotone` | app.py:305-317 | a higher score never gets a milder level |
| `IntakeForm.TimepointCode` | app.py:183-186 | the code is the longest prefix of the choice that has no space: it is a prefix, it has no space, and it is followed by a space or by the end |
| `IntakeForm.CodeBeforeSpace` | app.py:185-186 | a space-free code followed by a space is read back exactly |
| `IntakeForm.RadioCodes` | app.py:183-186 | the two sidebar choices give exactly "T3" and "T5" |
| `IntakeForm.FormFeatures` | app.py:190-191 | for a canonical code the form asks for exactly the features the model requires; every other code gets the five-year list |
| `IntakeForm.WidgetFor` | app.py:207-255 | the inputs the heuristic multiplies get widgets that return numbers only; HeadSize gets a select box that returns text only |
| `IntakeForm.CollectForm` | app.py:197-255 | the record has exactly one key per listed feature, holding the value entered in that feature's widget |
| `IntakeForm.InitialValuesAdmitted` | app.py:208-255 | the value each widget shows before it is touched (first option, lowest slider value, 0.0) is one it admits |
| `IntakeForm.FillPatientForm` | app.py:183-255 | when the widget of every feature returns a value it admits, the code is the one read off the sidebar choice and the record the loop builds for it is a form record (`FromForm`) |
| `IntakeForm.FormHeadSizeAlreadyText` | app.py:243-248 | HeadSize from its select box is already text, so the cast before preprocessing leaves a form record unchanged |
| `IntakeForm.FormDemoSucceeds` | app.py:235-255 | the heuristic never fails on a form record |
| `IntakeForm.FormModelPathErrors` | app.py:200-255 | on a form record the trained path fails only with ArtifactsMissing, LoadFailed or PredictionFailed |
| `IntakeForm.FormRequestAlwaysScores` | app.py:257-270 | for a form record (`FromForm`, which `FillPatientForm` establishes) a request always yields a score, and the trained path never fails on the timepoint or on a missing feature |

## Left out

- Page setup, the title and introduction text, the headings, the sidebar title, the two-column layout and the caption of each widget, with the dictionary of per-feature captions (app.py:15-20, app.py:37-56, app.py:161-169, app.py:182, app.py:188, app.py:192-195, app.py:202-205): these are presentation. The sidebar choice and its code (app.py:183-186) and the loop that fills the dictionary (app.py:197-255) are modelled. Each widget appears only as the set of values it can return (`Admits`), and the user's entries as the `answer` parameter of `CollectForm`.
- The gauge chart (app.py:275-303): this is rendering and floating-point colour mapping.
- File-system access, `joblib.load`, the pandas frame, `preprocessor.transform` and `model.predict` (app.py:58-73, app.py:107-118): these are I/O or opaque library calls. They appear as the fields of `Artifacts`: the set of present paths, whether loading succeeds, the number-to-text cast, and the raw model output or a failure. `Artifacts.raw` receives the whole record, so the model does not say what the preprocessor does with extra columns.
- IEEE-754 rounding, NaN and infinities in the heuristic and in `np.clip`: scores are exact reals.
- Timepoints.Upper: only ASCII letters are upper-cased, and the length is always kept. Python's `str.upper` also maps non-ASCII letters, and can lengthen a string ("ß" becomes "SS"). Some non-ASCII characters upper-case to strings that contain "T", but none gives exactly "T3" or "T5": the strings that upper-case to exactly "T3" or "T5" are "T3", "t3", "T5" and "t5" in both, so the accepted timepoints are the same.
- Timepoints.Lower: only ASCII letters are lower-cased. It is applied only to the codes "T3" and "T5".
- Python integers, floats and booleans all become `Num(x)` with a real `x`. So the number-to-text cast of `HeadSize` (`Artifacts.render`) cannot tell the integer 32 (text "32") from the float 32.0 (text "32.0"), nor a boolean (text "True" or "False") from 0 or 1.
- Record values that are neither numbers nor strings, such as `None` or a list, cannot be represented. For them the heuristic's multiplication would also raise.
- ModelPredict: the default argument `timepoint='T3'` of `predict_with_model` (app.py:75) is not modelled; every call passes the timepoint explicitly.
- The warning and info messages, and the text of each exception, are left out. An error is its `Error` constructor; the missing-feature error carries the list of names.
- Exceptions raised inside the page code after a score exists (plotting, markdown) are left out. The outer handler's `Err` covers only the heuristic's `NotANumber`.
