# Churn insight backend, modelled in Dafny

This project models the Python backend of the churn insight application, which predicts customer churn. The backend has two layers:

- The machine-learning core under `backend/src` loads the Telco customer dataset, cleans and encodes it and derives churn features. It then trains and evaluates three classifiers (Logistic Regression, Random Forest and XGBoost), saves and reloads them, and turns a model's output into a churn probability, a risk level, SHAP-based feature impacts and retention recommendations.
- The FastAPI routes under `backend/api/routes` serve single and batch predictions and store every prediction. They also list and summarise customers, report stored model metrics and the dashboard, run training as a background job that reports its progress, and explain stored predictions, including a what-if analysis.

Each source file becomes one module:

| module | file | form |
|---|---|---|
| `Inference` (class `Predictor`) | predictor.dfy | class over the loaded model; risk and confidence as functions |
| `Explanations` (class `Explainer`) | explainer.dfy | class over the SHAP explainer; impacts and recommendations as functions |
| `FeatureEngineering` | feature_engineer.dfy | functions from frame to frame |
| `DataProcessing` (class `DataProcessor`) | data_processor.dfy | cleaning and encoding as functions; the processor keeps its feature names |
| `Evaluation` (class `ModelEvaluator`) | model_evaluator.dfy | the evaluator's per-model dictionaries as fields |
| `Training` (class `ModelTrainer`) | model_trainer.dfy | the trainer's models and timings as fields; model files as a map |
| `DataLoading` | data_loader.dfy | loading and validation as functions of the files on disk |
| `Config` | config.dfy | settings, CORS list, directory layout |
| `Records` (class `Database`) | records.dfy | the four tables and their `to_dict` forms |
| `PredictRoutes` (class `ModelState`) | predict_routes.dfy | the module-level globals filled by `load_models`; the handlers as methods that update the prediction table |
| `ExplainRoutes`, `CustomerRoutes`, `MetricsRoutes`, `TrainRoutes` | explain_routes.dfy, customer_routes.dfy, metrics_routes.dfy, train_routes.dfy | the answers as functions of the tables; the training task as a method that commits the job step by step |

Shared helper modules stand for the library behaviour the code relies on:

- Wrappers: Option and Result.
- Values: Python values and insertion-ordered dicts.
- Frames: pandas frames.
- Strings: str methods.
- Numbers: Python's `round`.
- Ranking: stable `sorted`, `max`, slicing and SQL `LIMIT`.
- Paths: `pathlib`.
- Estimators: a fitted estimator as the answers it gives.

The model follows these conventions:

- A database table is a sequence of rows.
- A query without `ORDER BY` returns rows in table order.
- `ORDER BY … DESC` is a stable descending sort on the column.
- An exception the source raises, or an HTTP error it answers with, is an `Err` value.
- The clock, generated ids and the files on disk are parameters.

## Model

| member | source | states |
|---|---|---|
| Inference.RiskLevel | backend/src/predictor.py:147-162 | "HIGH" exactly when p >= 0.7, "MEDIUM" exactly when 0.4 <= p < 0.7, "LOW" exactly when p < 0.4 |
| Inference.RiskLevelMonotone | backend/src/predictor.py:147-162 | a larger probability never gets a lower risk bucket |
| Inference.Confidence | backend/src/predictor.py:164-184 | each label holds exactly on its band of abs(p - 0.5) * 2: >= 0.8, [0.6, 0.8), [0.4, 0.6), < 0.4 |
| Inference.ConfidenceSymmetric | backend/src/predictor.py:164-184 | p and 1 - p get the same confidence label |
| Inference.Assemble | backend/src/predictor.py:82-101 | the result carries the model's class-1 and class-0 probabilities, its predicted label, the risk level of the class-1 probability and the model name |
| Inference.Predictor.constructor | backend/src/predictor.py:16-39 | starts with the given model (if any), the given name and no feature names |
| Inference.Predictor.LoadModel | backend/src/predictor.py:41-53 | sets the model and changes nothing else |
| Inference.Predictor.PredictSingle | backend/src/predictor.py:69-107 | no model: the "Model not loaded" error; otherwise the assembled dictionary of the first row, an empty matrix failing |
| Inference.Predictor.PredictBatch | backend/src/predictor.py:109-145 | no model: the error; otherwise one result per row, in order, each assembled from its own row |
| Inference.Predictor.PredictWithConfidence | backend/src/predictor.py:186-200 | the single prediction with only the confidence of its class-1 probability added |
| Explanations.ImpactOf | backend/src/explainer.py:94-99 | the entry keeps the feature, its value and SHAP value; the impact is "positive" exactly when the SHAP value is above 0, else "negative" |
| Explanations.Impacts | backend/src/explainer.py:92-99 | zip stops at the shorter of names and SHAP values; defined exactly when the feature vector is long enough; entry i is built from name i, value i and SHAP value i |
| Explanations.ExplainShape | backend/src/explainer.py:51-116 | an explanation exists exactly when there is an explainer whose SHAP call succeeds and the row is long enough; it then holds the SHAP values, the base value (0 when absent), a permutation of the impacts sorted by descending magnitude, and top_features as their first five |
| Explanations.FactorAdvice | backend/src/explainer.py:162-188 | a factor gets no message exactly when its lower-cased name contains none of the rule keywords; otherwise the message is that of a rule whose keyword occurs, no rule of higher priority has a keyword that occurs, and the "charges" rule gives the discount exactly when p > 0.7 and the value-added services otherwise |
| Explanations.MentionsRules | backend/src/explainer.py:165-188 | the keyword table: contract on month_to_month or contract, automatic payment on electronic_check or payment, tech support on tech_support, security on online_security or security, loyalty on tenure, discount and value-added services on charges, and no keyword for the general messages |
| Explanations.RiskFactors | backend/src/explainer.py:160 | the first three impacts with a positive SHAP value, in their order: as many as min(3, positive count), each from the input, and the k-th positive impact is factor number k when k < 3 |
| Ranking.FilterAt | backend/src/explainer.py:160 | a comprehension with a condition keeps exactly the passing items in order: the passing item at position k is item number (passing items before k) of the result |
| Ranking.FilterIndexed | backend/src/explainer.py:160 | FilterAt for every passing position at once, and the result length is the passing count |
| Explanations.FactorsAdvice | backend/src/explainer.py:162-188 | the factors' messages in factor order, skipping the factors without one: exactly the present values of AdviceOf; at most one per factor, all factor messages |
| Explanations.AdviceOf | backend/src/explainer.py:162-188 | one optional message per factor, the i-th being FactorAdvice of the i-th factor's name |
| Ranking.SomesSnoc | backend/src/explainer.py:162-188 | appending one more optional message to the loop appends its value exactly when it is present |
| Explanations.GeneralAdvice | backend/src/explainer.py:190-194 | the urgent line exactly when p > 0.8, the satisfaction call exactly when 0.6 < p <= 0.8, nothing otherwise |
| Explanations.AssembleBounds | backend/src/explainer.py:196-201 | the list is the factor advice plus the general advice, or the two fallback lines when both are empty; it has 1 to 4 entries |
| Explanations.AssembleFallback | backend/src/explainer.py:196-199 | the fallback pair is given exactly when no factor gives advice and p <= 0.6 |
| Explanations.AssembleGeneral | backend/src/explainer.py:190-194 | the urgent line is present exactly when p > 0.8, the satisfaction call exactly when 0.6 < p <= 0.8 |
| Explanations.RecommendedBounds | backend/src/explainer.py:142-201 | every impact list and probability yields between 1 and 4 recommendations |
| Explanations.RecommendedFallback | backend/src/explainer.py:157-199 | the fallback pair exactly when the first three risk factors give no advice and p <= 0.6 |
| Explanations.RecommendedGeneral | backend/src/explainer.py:157-199 | urgent and satisfaction lines by probability band; above 0.6 the list is the factor advice followed by the general line |
| Explanations.Explainer.constructor | backend/src/explainer.py:15-49 | the SHAP engine is the one given (none when initialisation failed) |
| Explanations.Explainer.ExplainPrediction | backend/src/explainer.py:51-116 | the method's loop computes the explanation function |
| Explanations.Explainer.GetTopFeatures | backend/src/explainer.py:118-140 | empty when there is no explanation, else the first top_n feature impacts |
| Explanations.Explainer.GenerateRecommendations | backend/src/explainer.py:142-201 | the texts of the recommendation function, 1 to 5 of them |
| Explanations.Explainer.ExplainWithRecommendations | backend/src/explainer.py:203-229 | none exactly when there is no explanation; otherwise the explanation with the recommendations for its impacts added |
| FeatureEngineering.ChargeRowAssigned | backend/src/feature_engineer.py:57-65 | a row the charge step accepts gains exactly the three charge columns and keeps every other cell |
| FeatureEngineering.ChargeRowValues | backend/src/feature_engineer.py:59-65 | with numeric tenure t and charges, avg_monthly_charges = total / (t + 1), charge_per_tenure = monthly / (t + 1), charge_increase = 1 exactly when monthly exceeds the average |
| FeatureEngineering.ChargeFeatures | backend/src/feature_engineer.py:45-69 | a frame lacking either charge column is returned unchanged; with both charges but no tenure column the step raises |
| FeatureEngineering.ChargeFeaturesShape | backend/src/feature_engineer.py:55-69 | with the three columns present the step succeeds exactly when every row does, and then adds exactly the charge columns |
| FeatureEngineering.YesCount | backend/src/feature_engineer.py:94-99 | the count of "Yes" cells is at most the number of columns looked at |
| FeatureEngineering.TallyCountsYes | backend/src/feature_engineer.py:94-99 | over text columns the running total is exactly the number of "Yes" cells |
| FeatureEngineering.YesCountPositive | backend/src/feature_engineer.py:110-117 | the count is positive exactly when some column holds "Yes" |
| FeatureEngineering.Layout | backend/src/feature_engineer.py:84-107 | the service and security columns are exactly those of the fixed lists present in the frame; the text ones are those with text dtype |
| FeatureEngineering.LayoutBound | backend/src/feature_engineer.py:84-90 | at most eight service columns are found |
| FeatureEngineering.ServiceRowAssigned | backend/src/feature_engineer.py:92-117 | a row the service step accepts gains exactly the service columns and keeps every other cell |
| FeatureEngineering.ServiceFeatures | backend/src/feature_engineer.py:90-92 | with no service column present the frame is returned unchanged |
| FeatureEngineering.ServiceFeaturesShape | backend/src/feature_engineer.py:71-121 | the step succeeds exactly when every row does, adds exactly the service columns and transforms each row by itself |
| FeatureEngineering.ServiceRowMeaning | backend/src/feature_engineer.py:92-117 | over text columns: total_services is the number of "Yes" services, has_internet is 1 exactly when InternetService is not "No", has_security is 1 exactly when some security service is "Yes" |
| FeatureEngineering.ContractFlagsExclusive | backend/src/feature_engineer.py:135-140 | a row is never both month-to-month and on a long contract |
| FeatureEngineering.ContractRowAssigned | backend/src/feature_engineer.py:123-151 | the contract step adds exactly the flags of the columns present and keeps every other cell |
| FeatureEngineering.ContractPlanValues | backend/src/feature_engineer.py:135-140 | is_month_to_month is 1 exactly for "Month-to-month"; has_long_contract exactly for "One year" or "Two year" |
| FeatureEngineering.ContractPaymentValues | backend/src/feature_engineer.py:142-147 | is_auto_payment is 1 exactly when the payment text contains "automatic" in any case; is_electronic_check exactly for "Electronic check" |
| FeatureEngineering.PaymentFlagsExclusive | backend/src/feature_engineer.py:142-147 | no payment method is both automatic and an electronic check |
| FeatureEngineering.ContractFeatures | backend/src/feature_engineer.py:142-144 | the step raises exactly when PaymentMethod is present and the `.str` accessor rejects the column (no text cell) |
| FeatureEngineering.ContractRows | backend/src/feature_engineer.py:133-147 | one output row per input row, each the row with the contract flags added |
| FeatureEngineering.ContractFeaturesShape | backend/src/feature_engineer.py:123-151 | a successful step adds exactly the flags of the columns present and transforms each row by itself |
| FeatureEngineering.TenureBucket | backend/src/feature_engineer.py:32-36 | pd.cut with bins 0, 12, 24, 48, 72, right-closed: bucket k exactly on its interval, none at or below 0 or above 72 |
| FeatureEngineering.TenureRow | backend/src/feature_engineer.py:31-39 | a row is accepted exactly when its tenure can be bucketed |
| FeatureEngineering.TenureRowAssigned | backend/src/feature_engineer.py:31-39 | tenure_group is dropped and the four indicator columns added; every other cell is kept |
| FeatureEngineering.TenureRowValues | backend/src/feature_engineer.py:39 | indicator k is true exactly when the tenure falls in bucket k |
| FeatureEngineering.TenureGroups | backend/src/feature_engineer.py:31 | without a tenure column the frame is returned unchanged |
| FeatureEngineering.TenureGroupsShape | backend/src/feature_engineer.py:19-43 | the step succeeds exactly when every row does and replaces tenure_group by the indicators row by row |
| FeatureEngineering.TenureIndicators | backend/src/feature_engineer.py:32-39 | a tenure in (0, 72] sets exactly one indicator; any other tenure sets none |
| FeatureEngineering.InteractionRowAssigned | backend/src/feature_engineer.py:163-171 | the interaction step adds exactly the interaction columns of the columns present and keeps every other cell |
| FeatureEngineering.RiskyCustomer | backend/src/feature_engineer.py:170-171 | risky_customer is 1 exactly when the row is both month-to-month and electronic check |
| FeatureEngineering.InteractionFeaturesShape | backend/src/feature_engineer.py:153-175 | the step succeeds exactly when every row does and transforms each row by itself |
| FeatureEngineering.ChargeFeaturesKeeps | backend/src/feature_engineer.py:45-69 | the charge step keeps every row and every column |
| FeatureEngineering.ServiceFeaturesKeeps | backend/src/feature_engineer.py:71-121 | the service step keeps every row and every column |
| FeatureEngineering.ContractFeaturesKeeps | backend/src/feature_engineer.py:123-151 | the contract step keeps every row and every column |
| FeatureEngineering.TenureGroupsKeeps | backend/src/feature_engineer.py:19-43 | the tenure step keeps every row and every column except a previous tenure_group |
| FeatureEngineering.InteractionFeaturesKeeps | backend/src/feature_engineer.py:153-175 | the interaction step keeps every row and every column |
| FeatureEngineering.EngineerFeaturesKeeps | backend/src/feature_engineer.py:177-197 | the five steps together keep every row and every given column except tenure_group, only adding columns |
| DataProcessing.ToNumeric | backend/src/data_processor.py:37-38 | numbers are kept, a single space becomes NaN, other text becomes the number it reads as (surrounding white space skipped, optional sign, fraction and exponent) and NaN when it does not read as one; the result is a number or NaN |
| Strings.ParseNumberIgnoresSpace | backend/src/data_processor.py:38 | white space around a cell's text does not change the number it is coerced to |
| Strings.ParseDigits | backend/src/data_processor.py:38 | a run of digits, with or without white space around it, is coerced to the value of the digits |
| Strings.ParseExponent | backend/src/data_processor.py:38 | digits, an `e` and a natural exponent k are coerced to the digits' value times ten to the k (`Scale`, which `Strings.ScaleUp` shows is that product) |
| DataProcessing.FixTotalRowValues | backend/src/data_processor.py:35-40 | only TotalCharges changes; a numeric total is kept, one that does not convert takes MonthlyCharges |
| DataProcessing.FixTotalCharges | backend/src/data_processor.py:35-40 | without TotalCharges the frame is unchanged; the fill raises exactly when MonthlyCharges is missing; columns and row count are kept |
| DataProcessing.CopyCustomerId | backend/src/data_processor.py:43-44 | without customerID the frame is unchanged; the row count is kept |
| DataProcessing.SeniorText | backend/src/data_processor.py:50-51 | 0 maps to "No", 1 to "Yes" (booleans alike), anything else to NaN |
| DataProcessing.Clean | backend/src/data_processor.py:22-54 | cleaning fails exactly when TotalCharges is present without MonthlyCharges; the row count is kept |
| DataProcessing.Stages | backend/src/data_processor.py:32-51 | the staged computation ends in the cleaned frame |
| DataProcessing.FixedRow | backend/src/data_processor.py:35-40 | the TotalCharges stage keeps each row's keys and every other cell |
| DataProcessing.CleanColumns | backend/src/data_processor.py:43-47 | the cleaned columns are the input's, plus customer_id when customerID is present; the frame stays well formed |
| DataProcessing.CleanCopiesId | backend/src/data_processor.py:43-47 | customer_id equals customerID in every cleaned row |
| DataProcessing.CleanFills | backend/src/data_processor.py:47 | every other column holds its forward-filled value |
| DataProcessing.CleanTotalCharges | backend/src/data_processor.py:35-47 | with a numeric MonthlyCharges the cleaned total is numeric: the original number, or MonthlyCharges when it did not convert |
| DataProcessing.CleanKeepsNumber | backend/src/data_processor.py:47 | a numeric tenure or MonthlyCharges cell is kept |
| DataProcessing.CleanSenior | backend/src/data_processor.py:47-51 | SeniorCitizen becomes the text of its forward-filled value |
| DataProcessing.BinaryCode | backend/src/data_processor.py:70-82 | gender: 1 exactly for "Male", 0 exactly for "Female"; other binary columns: 1 for "Yes", 0 for "No"; anything else NaN |
| DataProcessing.SeniorRoundTrip | backend/src/data_processor.py:50-82 | encoding the cleaned SeniorCitizen text gives back the original 0/1 |
| DataProcessing.EncodeColumns | backend/src/data_processor.py:80-82 | columns and row count are kept |
| DataProcessing.EncodeColumnsCell | backend/src/data_processor.py:80-82 | each present listed column is mapped by its binary code and every other cell is kept |
| DataProcessing.EncodeCategorical | backend/src/data_processor.py:56-97 | with no multi-class column present only the binary mapping applies |
| DataProcessing.BinaryColumnsDistinct | backend/src/data_processor.py:70-78 | the binary column names are distinct |
| DataProcessing.EncodeBinaryCell | backend/src/data_processor.py:80-82 | each present binary column is mapped, every other cell is kept |
| DataProcessing.PrepareShape | backend/src/data_processor.py:99-129 | the target is split off exactly when present; the features are the other columns minus the id columns, row by row |
| DataProcessing.Pipeline | backend/src/data_processor.py:151-180 | processing succeeds exactly when cleaning does; the feature names are the feature columns |
| DataProcessing.IdNotCategorical | backend/src/data_processor.py:85-89 | customer_id is never one-hot encoded |
| DataProcessing.CleanedNoCategorical | backend/src/data_processor.py:164-167 | cleaning keeps which multi-class columns are present; when none is, encoding after cleaning is the binary mapping alone and keeps the row count |
| DataProcessing.EncodeCategoricalKeeps | backend/src/data_processor.py:84-97 | for a one-hot encoder that behaves like `get_dummies` (DummiesKeep), encoding keeps the rows, drops the listed columns, adds only indicator columns and leaves every other column and its cells as they were |
| DataProcessing.NotIndicator | backend/src/data_processor.py:84-97 | a column name shorter than every listed column plus "_" is not one of their indicator columns |
| DataProcessing.ChurnNotCategorical | backend/src/data_processor.py:84-97 | Churn is neither a multi-class column nor one of their indicator columns |
| DataProcessing.SeniorNotCategorical | backend/src/data_processor.py:84-97 | SeniorCitizen is neither a multi-class column nor one of their indicator columns |
| DataProcessing.PipelineTargetColumn | backend/src/data_processor.py:164-176 | the target is the encoded frame's target column when present, else none |
| DataProcessing.PipelineTarget | backend/src/data_processor.py:151-180 | for a one-hot encoder that behaves like `get_dummies`, y is present exactly when Churn is; then row i is the binary code of the forward-filled Churn value |
| DataProcessing.SeniorSurvivesPipeline | backend/src/data_processor.py:47-82 | for a one-hot encoder that behaves like `get_dummies`, a 0/1 SeniorCitizen column comes out of cleaning and encoding unchanged |
| DataProcessing.DataProcessor.constructor | backend/src/data_processor.py:16-20 | no feature names yet |
| DataProcessing.DataProcessor.PrepareFeatures | backend/src/data_processor.py:99-129 | returns the prepared split and records its feature names |
| DataProcessing.DataProcessor.ProcessPipeline | backend/src/data_processor.py:151-180 | the result is the pipeline function's; the feature names are updated only on success |
| Evaluation.MetricValue | backend/src/model_evaluator.py:126-129 | a metric is found exactly when its name is one of the nine metric keys |
| Evaluation.Ravel | backend/src/model_evaluator.py:63 | an empty matrix ravels to nothing |
| Evaluation.Unpack | backend/src/model_evaluator.py:63 | the four-way unpacking succeeds exactly when the matrix holds four entries |
| Evaluation.UnpackTwoByTwo | backend/src/model_evaluator.py:59-63 | a 2x2 matrix unpacks to tn, fp, fn, tp in row order |
| Evaluation.UnpackSingleClass | backend/src/model_evaluator.py:59-63 | a 1x1 matrix (single-class labels and predictions) makes the unpacking raise, after the matrix is stored, as with scikit-learn 1.6 or later |
| Evaluation.MetricsOf | backend/src/model_evaluator.py:24-84 | metrics exist exactly when the matrix unpacks; they hold the model's five scores and tp, tn, fp, fn from the matrix |
| Evaluation.AllMetrics | backend/src/model_evaluator.py:86-111 | succeeds exactly when every model evaluates; same keys in the same order, each entry the model's own metrics |
| Evaluation.ComparisonRow | backend/src/model_evaluator.py:228-234 | the row has exactly the five display keys, in order, each holding its metric rounded to four places and so within 0.00005 of it |
| Evaluation.Comparison | backend/src/model_evaluator.py:218-236 | one row per evaluated model, same keys and order, each the model's rounded ComparisonRow |
| Evaluation.BestModel | backend/src/model_evaluator.py:113-129 | raises with no metrics or an unknown metric name; otherwise returns an evaluated model and its value, and no model scores higher |
| Evaluation.BestModelFirst | backend/src/model_evaluator.py:126 | the winner is the first model with the maximal value: every earlier one scores strictly lower |
| Evaluation.AbsAll | backend/src/model_evaluator.py:202 | elementwise absolute values, all non-negative |
| Evaluation.ZipDict | backend/src/model_evaluator.py:208 | over the names and values up to the shorter length: the keys are distinct and exactly the names, each name maps to the value at its last position, every entry pairs a name with the value at one of its positions, and there is one entry per distinct name |
| Evaluation.ZipsToPut | backend/src/model_evaluator.py:208 | one more dict assignment from zip keeps the dict equal to the zip of the longer prefix |
| Evaluation.ZipsToCard | backend/src/model_evaluator.py:208 | the dict built from zip has one entry per distinct name |
| Evaluation.KeyIndexDistinct | backend/src/model_evaluator.py:208-212 | with distinct keys, looking up an entry's key finds that entry |
| Evaluation.TopImportances | backend/src/model_evaluator.py:207-216 | exactly min(top_n, number of distinct names zipped) entries for a non-negative top_n, in descending importance |
| Evaluation.FeatureImportance | backend/src/model_evaluator.py:182-216 | feature_importances_ when present, else abs of the first row of coef_ (an empty coef_ raises), else an empty dict |
| Evaluation.TopImportancesFromZip | backend/src/model_evaluator.py:207-212 | the listed keys are distinct and each pairs a name with its own importance |
| Evaluation.TopImportancesMostImportant | backend/src/model_evaluator.py:211-212 | no feature left out is more important than one listed |
| Evaluation.DistinctPermutation | backend/src/model_evaluator.py:211 | sorting a dict's items keeps their keys distinct |
| Evaluation.MultisetOfDistinct | backend/src/model_evaluator.py:211 | each item of a dict with distinct keys occurs once |
| Evaluation.ModelEvaluator.constructor | backend/src/model_evaluator.py:18-22 | all three stores start empty |
| Evaluation.ModelEvaluator.EvaluateModel | backend/src/model_evaluator.py:24-84 | returns the model's metrics; the confusion matrix is stored first, then, on success, the report and the metrics; a failed unpacking leaves those two untouched |
| Evaluation.ModelEvaluator.EvaluateAllModels | backend/src/model_evaluator.py:86-111 | the result is AllMetrics, an error exactly when some model does not evaluate; the stored metrics and reports are updated with the entries of the models before the first failure, in order, and the confusion matrices also with the failing model's own |
| Evaluation.ModelEvaluator.EvaluateNext | backend/src/model_evaluator.py:104-109 | one turn of the loop: the next model's result, its confusion matrix always stored, its metrics and report stored exactly when it evaluates, and nothing else changed when it raises |
| Evaluation.Evaluable | backend/src/model_evaluator.py:104-109 | the number of models evaluated before the first that raises: every earlier one evaluates and the one at that position (if any) does not |
| Evaluation.EvaluableAtLeast | backend/src/model_evaluator.py:104-109 | models that all evaluate come before the first failure |
| Evaluation.AllMetricsEntries | backend/src/model_evaluator.py:86-111 | AllMetrics is the entries of every model when all evaluate, and otherwise the error of the first that raises |
| Evaluation.ModelEvaluator.GetBestModel | backend/src/model_evaluator.py:113-129 | the answer is BestModel of the stored metrics: raises with no metrics or an unknown metric; otherwise no stored model scores higher than the answer |
| Evaluation.ModelEvaluator.GetConfusionMatrix | backend/src/model_evaluator.py:131-141 | the stored matrix for the name, or an empty one |
| Evaluation.ModelEvaluator.GetClassificationReport | backend/src/model_evaluator.py:143-153 | the stored report for the name, or an empty dict |
| Evaluation.ModelEvaluator.GenerateComparisonTable | backend/src/model_evaluator.py:218-236 | the loop builds the comparison of the stored metrics, rounded to four places |
| Evaluation.AllMetricsFirstErr | backend/src/model_evaluator.py:107-109 | evaluation stops at the first model that raises, with its error |
| Evaluation.AllMetricsStep | backend/src/model_evaluator.py:107-109 | one more successful model appends its metrics |
| Evaluation.UpdateAppend | backend/src/model_evaluator.py:107-109 | updating with one more entry is updating then assigning it |
| Training.FileStem | backend/src/model_trainer.py:278 | the stem keeps the name's length |
| Training.ModelFileName | backend/src/model_trainer.py:278 | the name, with no space or capital left, followed by ".pkl" |
| Training.ModelFileNameIsLowerReplace | backend/src/model_trainer.py:278 | the file name is exactly lower-casing, then spaces to underscores, then ".pkl" |
| Training.FileStemConcat | backend/src/model_trainer.py:278 | the stem of a concatenation is the concatenation of the stems |
| Training.FileNamesMatchLoadTable | backend/src/model_trainer.py:278-306 | the names save_models derives are exactly the file names load_models looks for, for the same three models |
| Training.FileNameOfLogisticRegression | backend/src/model_trainer.py:303 | "Logistic Regression" is saved as logistic_regression.pkl |
| Training.FileNameOfRandomForest | backend/src/model_trainer.py:304 | "Random Forest" is saved as random_forest.pkl |
| Training.FileNameOfXGBoost | backend/src/model_trainer.py:305 | "XGBoost" is saved as xgboost.pkl |
| Training.ScalerPath | backend/src/model_trainer.py:285 | the scaler goes to a sibling directory of the models directory |
| Training.SavedFiles | backend/src/model_trainer.py:277-281 | files already on disk stay |
| Training.SavedFilesSpec | backend/src/model_trainer.py:277-281 | after saving, a path exists exactly when it existed or is some model's file; other files keep their content |
| Training.SavedFilesAt | backend/src/model_trainer.py:277-281 | with distinct file names, each model's file holds that model |
| Training.Loaded | backend/src/model_trainer.py:300-317 | at most one model per table entry |
| Training.LoadedGet | backend/src/model_trainer.py:308-314 | each name maps to its file's content when the file exists, and is absent otherwise |
| Training.LoadedKeys | backend/src/model_trainer.py:308-314 | only names of the file table are loaded |
| Training.GetAppend | backend/src/model_trainer.py:311 | adding another key does not change a lookup |
| Training.Trained | backend/src/model_trainer.py:257-261 | the three models under exactly the three names, in order |
| Training.RecordTimesGet | backend/src/model_trainer.py:118-233 | each model's time is recorded under its name; other entries are kept |
| Training.ModelTrainer.constructor | backend/src/model_trainer.py:23-33 | keeps the random state; all three stores start empty |
| Training.ModelTrainer.Train | backend/src/model_trainer.py:70-236 | returns the fitted model and records its training time under its name, nothing else |
| Training.ModelTrainer.TrainAllModels | backend/src/model_trainer.py:238-265 | best_models is the three trained models, which are returned; the three times are recorded |
| Training.ModelTrainer.SaveModels | backend/src/model_trainer.py:267-288 | the disk afterwards is the disk with every best model's file and the scaler, if given, written |
| Training.ModelTrainer.LoadModels | backend/src/model_trainer.py:290-317 | best_models becomes exactly the models whose files exist, which are returned |
| Training.LoadedAllPresent | backend/src/model_trainer.py:308-314 | when every file exists, the result pairs each name with its file |
| Training.SaveThenLoadTable | backend/src/model_trainer.py:267-317 | loading right after saving, with a table of the saved names, gives back exactly the saved models |
| Training.LoadTableFiles | backend/src/model_trainer.py:308-317 | when each table file holds its model, loading gives back the models |
| Training.SavedTableFiles | backend/src/model_trainer.py:277-288 | after saving, each table file exists and holds its model |
| Training.SaveThenLoad | backend/src/model_trainer.py:257-317 | the three trained models survive a save followed by a load, in order |
| DataLoading.NewDataLoader | backend/src/data_loader.py:15-23 | raw data lives in "raw" under the data directory; the data directory is the one given, or "data" beside the package |
| DataLoading.DefaultRawPathIsSettings | backend/src/data_loader.py:22-23 | the default loader's data and raw directories are the settings' DATA_DIR and RAW_DATA_DIR |
| DataLoading.LoadTelcoChurn | backend/src/data_loader.py:25-50 | fails with the file-not-found error naming raw/filename exactly when that file is absent; otherwise returns its contents |
| DataLoading.MissingFileText | backend/src/data_loader.py:37-42 | the error for a missing file names the path looked at and the raw directory the dataset must be placed in |
| DataLoading.MissingFromSpec | backend/src/data_loader.py:68 | the missing list holds exactly the required columns absent from the frame, in the required order |
| DataLoading.ValidateData | backend/src/data_loader.py:53-77 | a successful validation answers true |
| DataLoading.ValidateDataOutcome | backend/src/data_loader.py:63-77 | passes exactly when all seven required columns are present and there is a row; "Dataset is empty" exactly when the columns are there but no row; otherwise names the missing columns in order |
| DataLoading.ProcessedOutputPath | backend/src/data_loader.py:87 | as written, the processed file goes under "processed" beside the data directory |
| DataLoading.ProcessedOutputOutsideDataDir | backend/src/data_loader.py:87 | as written, the file never lands in the settings' PROCESSED_DATA_DIR |
| DataLoading.ProcessedOutputPathIntended | backend/src/data_loader.py:79-91 | corrected: the processed file lies below the data directory |
| DataLoading.ProcessedOutputIntendedIsSettings | backend/src/data_loader.py:79-91 | corrected: the file lands in PROCESSED_DATA_DIR |
| Config.LoadSettings | backend/app/config.py:9-46 | CORS_ORIGINS comes from the environment when set, else the default; BASE_DIR is the backend directory |
| Config.DirectoryLayout | backend/app/config.py:38-71 | every directory created lies below BASE_DIR, each under the parent the settings give it, and the eight are distinct |
| Config.CorsOriginsList | backend/app/config.py:52-55 | one origin per comma-separated piece, each piece stripped |
| Config.CorsOrigins | backend/app/config.py:52-55 | one more origin than commas; none has surrounding spaces or a comma |
| Config.CorsOriginsThree | backend/app/config.py:52-55 | three clean origins joined by commas split back into those three |
| Config.DefaultCorsOriginsList | backend/app/config.py:26-55 | the default gives the three localhost origins |
| Records.IsoOrNone | backend/app/models.py:93 | None exactly when there is no date; otherwise the date's isoformat text |
| Records.TimeKey | backend/app/models.py:78 | an undated row sorts below every dated one |
| Records.InsertPrediction | backend/app/models.py:51-78 | the insert fails exactly when customer_id is missing (NOT NULL); otherwise one row is appended with the next id, no SHAP values, model_name defaulting to "XGBoost" and the current time as prediction_date; earlier rows are kept |
| Records.InsertPredictionIds | backend/app/models.py:55 | consecutive ids 1..n stay consecutive after an insert |
| Records.PredictionToDict | backend/app/models.py:80-94 | exactly the eleven keys of to_dict, in order |
| Records.PredictionToDictOmitsShap | backend/app/models.py:80-94 | shap_values is not serialised, so changing it never changes the dict |
| Records.PredictionDateRendered | backend/app/models.py:93 | prediction_date is the isoformat text, None exactly when the row has no date |
| Records.ModelMetricToDict | backend/app/models.py:132-144 | exactly the nine keys of to_dict, in order |
| Records.ModelMetricDateRendered | backend/app/models.py:143 | trained_at is the isoformat text, None exactly when absent |
| Records.ModelMetricToDictHeadline | backend/app/models.py:132-144 | rows agreeing on the nine serialised fields serialise alike, whatever their confusion counts or notes |
| Records.StatusText | backend/app/models.py:155 | "pending" exactly for the pending status |
| Records.NewTrainingJob | backend/app/models.py:147-169 | a new job is pending at progress 0, with no current model, results, error or start and completion times, created now |
| Records.TrainingJobToDict | backend/app/models.py:171-183 | exactly the nine keys of to_dict, in order |
| Records.TrainingJobDatesRendered | backend/app/models.py:180-182 | the three dates are isoformat text or None |
| Records.NewTrainingJobDict | backend/app/models.py:155-183 | a new job serialises as pending, progress 0, and null current model, results, start and completion |
| Records.TrainingJobFields | backend/app/models.py:175-176 | status is the status text and progress the stored progress |
| Records.TrainingJobOutcome | backend/app/models.py:177-178 | current_model and results are shown as stored |
| Records.Database.constructor | backend/app/models.py:9-183 | the four tables start empty |
| PredictRoutes.FailedPrefix | backend/api/routes/predict.py:247-314 | a wrapped error is a 500 whose detail starts with the route's prefix |
| PredictRoutes.ValidateRequest | backend/api/routes/predict.py:29-50 | the body is refused with 422 exactly when a required field is left out or null, a defaulted non-optional field is null, or senior_citizen, tenure or monthly_charges is out of its declared bounds; an omitted or null optional field is None; an accepted body satisfies the bounds and keeps customer_id and total_charges as sent |
| PredictRoutes.ValidateRoundTrip | backend/api/routes/predict.py:29-50 | a request sent back as a body validates exactly when it is within bounds, and then validates to itself |
| PredictRoutes.NullIsNotOmitted | backend/api/routes/predict.py:29-50 | in an accepted body, leaving out senior_citizen or phone_service keeps it accepted with 0 or "Yes", sending either as null is refused with 422, and customer_id may be null |
| PredictRoutes.WithTotal | backend/api/routes/predict.py:162-164 | total_charges is always set afterwards: kept when given, monthly_charges × tenure when missing, nothing else changes |
| PredictRoutes.WithTotalDict | backend/api/routes/predict.py:159-164 | filling total_charges changes only the last of the twenty request entries |
| PredictRoutes.FieldKeys | backend/api/routes/predict.py:167-188 | the request keys of the frame fields, in order |
| PredictRoutes.FieldColumns | backend/api/routes/predict.py:167-188 | the frame column names of the fields, in order |
| PredictRoutes.FieldKeysOneToOne | backend/api/routes/predict.py:167-188 | nineteen fields with distinct request keys, none of them customer_id |
| PredictRoutes.FieldColumnsOneToOne | backend/api/routes/predict.py:167-188 | the nineteen column names are distinct and differ from customerID, so the frame's columns are distinct |
| PredictRoutes.RowFromCells | backend/api/routes/predict.py:167-188 | the row has exactly the field columns, each holding its request value |
| PredictRoutes.RequestFrameCells | backend/api/routes/predict.py:167-188 | the input frame is one well-formed row whose customerID is the id and whose columns hold the request values |
| PredictRoutes.RequestDictKeys | backend/api/routes/predict.py:159 | request.dict() has twenty entries: customer_id, then the nineteen field keys in declaration order |
| PredictRoutes.RequestFrameFields | backend/api/routes/predict.py:167-188 | every frame column holds the matching request.dict() value |
| PredictRoutes.LookupShifted | backend/api/routes/predict.py:167-188 | a field's lookup in the request dict finds the entry right after customer_id at its position |
| PredictRoutes.RequestDictId | backend/api/routes/predict.py:159-160 | request.dict() always has a customer_id entry, None when the client sent none |
| PredictRoutes.IdText | backend/api/routes/predict.py:218 | a stored customer id exists exactly when the value is text |
| PredictRoutes.IdAsWrittenKeepsNone | backend/api/routes/predict.py:159-160 | as written, an omitted customer_id gives None, since the key is always present |
| PredictRoutes.IdIntended | backend/api/routes/predict.py:159-160 | the intended fallback keeps a supplied id and gives CUST_ plus the time stamp otherwise |
| PredictRoutes.ScoreOne | backend/api/routes/predict.py:191-197 | a successful score is predict_single's outcome on the scaled row |
| PredictRoutes.RespondFailure | backend/api/routes/predict.py:245-247 | a failure answers 500 "Prediction failed: …" and stores nothing |
| PredictRoutes.RespondStores | backend/api/routes/predict.py:216-243 | a success stores exactly one new prediction after the existing ones, with the request features, the id, the probability, the risk level, the model version, no SHAP values and the database clock's time; the answer rounds the probability to four places, repeats id and risk level, and dates itself with the separate local clock's text |
| PredictRoutes.RespondWithoutId | backend/api/routes/predict.py:217-230 | a prediction without a text customer id fails on the NOT NULL column and stores nothing |
| PredictRoutes.RespondWithId | backend/api/routes/predict.py:217-243 | with a text id the answer succeeds exactly when scoring did, and carries that id |
| PredictRoutes.OmittedIdAsWritten | backend/api/routes/predict.py:157-247 | as written, a request without customer_id always fails and stores nothing |
| PredictRoutes.OmittedIdIntended | backend/api/routes/predict.py:157-247 | with the intended fallback the request succeeds exactly when scoring succeeds, answering under the supplied id or CUST_ plus the stamp |
| PredictRoutes.WithPredictions | backend/api/routes/predict.py:279-281 | adding the prediction columns succeeds exactly when there is one prediction per row, keeps the row count, and otherwise raises the pandas length mismatch |
| PredictRoutes.InsertAllSpec | backend/api/routes/predict.py:289-302 | the batch insert fails exactly when some prediction has no customer id; otherwise it appends one stored row per prediction, in order, with consecutive ids, after the existing rows |
| PredictRoutes.ScoreAll | backend/api/routes/predict.py:270-276 | every batch outcome carries the loaded model's name and the risk level of its probability |
| PredictRoutes.BatchFailure | backend/api/routes/predict.py:312-314 | a batch failure answers 500 "Batch prediction failed: …" and stores nothing |
| PredictRoutes.PredictedRowCells | backend/api/routes/predict.py:279-281 | an output row adds churn_prediction, the probability rounded to four places and the risk level, and keeps every other cell |
| PredictRoutes.BatchAnswerRows | backend/api/routes/predict.py:276-285 | the returned CSV has one row per uploaded row with the three prediction columns added and the uploaded cells kept |
| PredictRoutes.IdNotOutput | backend/api/routes/predict.py:279-281 | customerID is not one of the added columns |
| PredictRoutes.BatchIdKept | backend/api/routes/predict.py:279-290 | adding the prediction columns leaves each row's customerID as uploaded |
| PredictRoutes.BatchStoredRows | backend/api/routes/predict.py:288-302 | a successful batch stores one prediction per row after the existing ones, with the unrounded probability, its risk level, the model name and version and no features; the customer id is the row's customerID, or BATCH_i without that column |
| PredictRoutes.StoredBatchRow | backend/api/routes/predict.py:292-299 | a batch row stores the outcome's probability, risk level and model name, the model version and the id, with no features and no SHAP values |
| PredictRoutes.BatchNeedsIds | backend/api/routes/predict.py:289-302 | the batch is stored exactly when every row yields a text customer id |
| PredictRoutes.MetadataNames | backend/api/routes/predict.py:121-127 | no metadata file, or one that fails to parse, gives no feature names |
| PredictRoutes.ModelState.constructor | backend/api/routes/predict.py:91-96 | the globals start with nothing loaded |
| PredictRoutes.ModelState.LoadModels | backend/api/routes/predict.py:99-142 | a second call answers true and changes nothing; a first call answers true exactly when the model, the scaler and any metadata load; a failed model or scaler sets nothing, otherwise the globals hold what was read and the explainer exists exactly when loading succeeded with feature names |
| PredictRoutes.ModelState.Score | backend/api/routes/predict.py:191-197 | scoring returns ScoreOne on the loaded objects and records the processed feature names in the processor when processing succeeded |
| PredictRoutes.ModelState.ShowExplanation | backend/api/routes/predict.py:200-214 | the top features and recommendations are those of the explainer, and empty without one |
| PredictRoutes.ModelState.PredictChurn | backend/api/routes/predict.py:145-247 | 503 and nothing stored when the models cannot be loaded; otherwise the answer and the new prediction table are those of serving the request with the customer id as written, so a request without customer_id fails and stores nothing |
| PredictRoutes.ModelState.PredictLoaded | backend/api/routes/predict.py:157-247 | with models loaded, the answer and the table follow scoring the request frame and responding |
| PredictRoutes.ModelState.Answer | backend/api/routes/predict.py:199-247 | the answer and the table are those of responding to the score |
| PredictRoutes.ModelState.ScoreRows | backend/api/routes/predict.py:270-276 | batch scoring returns ScoreAll on the loaded objects |
| PredictRoutes.ModelState.PredictBatch | backend/api/routes/predict.py:250-314 | 503 and nothing stored when the models cannot be loaded; otherwise the answer and the table are those of serving the batch |
| PredictRoutes.ModelState.PredictBatchLoaded | backend/api/routes/predict.py:262-314 | with models loaded, the answer and the table are those of serving the batch |
| PredictRoutes.FillTotal | backend/api/routes/predict.py:159-164 | the input dict is request.dict() with total_charges filled in |
| PredictRoutes.Store | backend/api/routes/predict.py:216-243 | the single prediction is recorded and answered as Record describes |
| PredictRoutes.StoreRows | backend/api/routes/predict.py:279-302 | the batch answer and the new table are those of StoreBatch |
| PredictRoutes.AddRows | backend/api/routes/predict.py:289-300 | the loop builds one draft per prediction as BatchDrafts describes |
| PredictRoutes.RecentPredictions | backend/api/routes/predict.py:317-333 | count is the number listed: min(limit, predictions) for a non-negative limit, all of them for a negative one |
| PredictRoutes.RecentNewestFirst | backend/api/routes/predict.py:326-331 | the listed predictions are stored ones ordered newest first, none omitted is newer than a listed one, and each is shown as its to_dict |
| ExplainRoutes.LatestPredictionSpec | backend/api/routes/explain.py:40-42 | nothing is found exactly when the customer has no prediction; otherwise the result is one of the customer's stored predictions, and none of theirs is newer |
| ExplainRoutes.StoredExplanationFields | backend/api/routes/explain.py:48-56 | the explanation repeats the requested id and the stored probability, top features and SHAP values |
| ExplainRoutes.ExplainLatest | backend/api/routes/explain.py:38-56 | 404 "No prediction found" exactly when the customer has no prediction; otherwise the stored explanation of their newest prediction, whose shap_values is null since the prediction route never stores them |
| ExplainRoutes.ExplainPrediction | backend/api/routes/explain.py:26-62 | 503 when the models cannot be loaded, otherwise the answer Explain gives on the prediction table |
| ExplainRoutes.WhatIfAnalysis | backend/api/routes/explain.py:65-155 | 503 when the models cannot be loaded, otherwise the answer WhatIf gives with the loaded objects |
| ExplainRoutes.WhatIfLoaded | backend/api/routes/explain.py:77-155 | with models loaded, the answer WhatIf gives |
| ExplainRoutes.WhatIfFrameCells | backend/api/routes/explain.py:90-119 | the rescored frame is one row under the requested id in which each field takes the changed value if changed, else the stored value, else its default |
| ExplainRoutes.DefaultCell | backend/api/routes/explain.py:98-119 | a field missing from the merged features takes its default |
| ExplainRoutes.WhatIfDefaults | backend/api/routes/explain.py:101-115 | the defaults of SeniorCitizen, PhoneService and PaperlessBilling are 0, "Yes" and "Yes" |
| ExplainRoutes.WhatIfServiceDefaults | backend/api/routes/explain.py:106-113 | the defaults of MultipleLines, OnlineSecurity, TechSupport and StreamingMovies are "No" |
| ExplainRoutes.ImpactMeaning | backend/api/routes/explain.py:131-148 | improvement exactly when the new probability is lower; a risk change exactly when the levels differ; the change is the difference rounded to four places; an improvement never raises the risk level |
| ExplainRoutes.WhatIfOutcome | backend/api/routes/explain.py:77-149 | 404 exactly when the customer has no prediction; a 500 when the newest one has no stored features; on success the original probability and risk, the changes and the id are echoed |
| ExplainRoutes.NewestAppended | backend/api/routes/explain.py:79-81 | a prediction stored later than every earlier one of the customer becomes their newest |
| ExplainRoutes.OriginalUnchanged | backend/api/routes/explain.py:79-91 | with no changes the rescored input is exactly the stored features of the newest prediction |
| ExplainRoutes.RescoreUnchanged | backend/api/routes/explain.py:128-148 | rescoring to the original probability and risk gives a zero change, no risk change and no improvement |
| ExplainRoutes.WhatIfWithoutChanges | backend/api/routes/explain.py:65-149 | right after a successful prediction, a what-if with no changes reproduces it: same probability, zero impact |
| ExplainRoutes.TopRiskFactorsOfStored | backend/api/routes/explain.py:179 | the top risk factors are the first three stored top features, and none when nothing is stored |
| ExplainRoutes.RecommendationsLatest | backend/api/routes/explain.py:166-180 | 404 exactly when the customer has no prediction; otherwise the recommendations, risk level and probability of their newest prediction, with at most three risk factors |
| CustomerRoutes.WhenIsFilter | backend/api/routes/customers.py:36-54 | an optional filter that is not given keeps every row; one that is given keeps exactly the rows passing it |
| CustomerRoutes.FilteredMatches | backend/api/routes/customers.py:33-54 | the chained filters keep exactly the rows matching every given condition, in table order |
| CustomerRoutes.Page | backend/api/routes/customers.py:60 | offset/limit returns min(limit, rows left after skip) rows, the i-th being row skip+i, and nothing past the end |
| CustomerRoutes.CustomersPaged | backend/api/routes/customers.py:18-82 | the request is refused (422) exactly when skip < 0 or limit is outside 1..100; otherwise total counts all matching rows, skip and limit are echoed and the page holds the matching rows skip, skip+1, … as list items, at most limit of them |
| CustomerRoutes.CountedRows | backend/api/routes/customers.py:57 | a customer is counted exactly when it is in the table and matches the query |
| CustomerRoutes.TenureBoundsInclusive | backend/api/routes/customers.py:39-43 | both tenure bounds are inclusive, and a customer with no tenure fails them |
| CustomerRoutes.FindCustomer | backend/api/routes/customers.py:98-100 | the first row whose customer_id equals the id, or the table length when there is none |
| CustomerRoutes.CustomerNotFoundIff | backend/api/routes/customers.py:102-103 | 404 "Customer not found" exactly when no customer has that id |
| CustomerRoutes.CustomerShown | backend/api/routes/customers.py:106-137 | a found customer is returned under its own id with its newest five predictions (fewer if it has fewer), each as to_dict |
| CustomerRoutes.NewestFirstTop | backend/api/routes/customers.py:106-108 | the listed predictions belong to the customer, are ordered newest first, and no omitted prediction of that customer is newer than a listed one |
| CustomerRoutes.Known | backend/api/routes/customers.py:162-163 | SQL AVG sees exactly the non-null values of the column, each once, in table order, so never more values than rows |
| CustomerRoutes.SumBounds | backend/api/routes/customers.py:162-163 | a sum of values within [lo, hi] lies within n·lo and n·hi |
| CustomerRoutes.MeanBetween | backend/api/routes/customers.py:162-163 | the average of a non-empty column lies between its bounds |
| CustomerRoutes.ChurnRateUnit | backend/api/routes/customers.py:156-180 | total is the table size, churned is at most total, the churn rate is 0 for an empty table and otherwise churned/total rounded to four places, and lies in [0, 1] |
| CustomerRoutes.AverageTenureBetween | backend/api/routes/customers.py:162-181 | the average tenure is 0 when no tenure is known, and otherwise lies within the tenure bounds up to rounding to two places |
| CustomerRoutes.DistributionCounts | backend/api/routes/customers.py:166-184 | the distribution has a key exactly for each value occurring in the column (NULL included), and each key's count is the number of rows holding that value |
| MetricsRoutes.NameThenNewestOrders | backend/api/routes/metrics.py:28-31 | ordering by model name, then newest trained_at first, is a total preorder |
| MetricsRoutes.FirstNamed | backend/api/routes/metrics.py:35-37 | the first row carrying the given model name, or the row count when none does |
| MetricsRoutes.FirstNamedUnique | backend/api/routes/metrics.py:35-37 | any index that is a row with the name and has no earlier such row is the first named row |
| MetricsRoutes.FirstNamedInit | backend/api/routes/metrics.py:35-37 | appending a row leaves an existing first occurrence alone, and makes the new row the first occurrence only of its own name |
| MetricsRoutes.FirstPerNameKeys | backend/api/routes/metrics.py:34-37 | the grouped dict has distinct keys, exactly the model names that occur |
| MetricsRoutes.FirstPerNameValues | backend/api/routes/metrics.py:34-37 | each grouped value is the to_dict of the first row with that name |
| MetricsRoutes.GetModelMetrics | backend/api/routes/metrics.py:19-42 | the handler answers from the metric table alone, as ModelMetrics describes |
| MetricsRoutes.QueryOrdered | backend/api/routes/metrics.py:28-31 | the ordered query returns every stored row and no other, sorted by name then newest first |
| MetricsRoutes.FirstPerNameNames | backend/api/routes/metrics.py:28-37 | the grouped keys are exactly the model names in the table |
| MetricsRoutes.ModelMetricsNames | backend/api/routes/metrics.py:39-42 | count is the number of distinct model names and the metrics dict has exactly those keys |
| MetricsRoutes.FirstNamedNewest | backend/api/routes/metrics.py:28-37 | the first row of a name in the ordered query is a newest row of that name |
| MetricsRoutes.ModelMetricsLatest | backend/api/routes/metrics.py:33-42 | every listed model maps to the to_dict of one of its newest rows |
| MetricsRoutes.LatestOfNewest | backend/api/routes/metrics.py:61-63 | the filtered newest-first query finds nothing exactly when no row has the name, and otherwise a newest row of it |
| MetricsRoutes.ScoresOf | backend/api/routes/metrics.py:66-73 | rounding fails exactly when one of the five scores is NULL; otherwise each of accuracy, precision, recall, f1_score and roc_auc is its stored value rounded half to even to four places, within 0.00005 of it, and trained_at is the isoformat text of the stored time, null exactly when absent |
| MetricsRoutes.CompareFromErr | backend/api/routes/metrics.py:60-73 | the comparison loop fails exactly when some remaining stored model has a NULL score |
| MetricsRoutes.CompareFromKeys | backend/api/routes/metrics.py:60-66 | on success the keys are the earlier keys followed by the remaining names that have a stored row, in list order |
| MetricsRoutes.CompareFromEntries | backend/api/routes/metrics.py:60-73 | every entry the loop adds holds the rounded scores of that model's newest row |
| MetricsRoutes.BestOf | backend/api/routes/metrics.py:77 | None exactly for an empty comparison; otherwise the first model with the largest rounded ROC-AUC |
| MetricsRoutes.GetModelComparison | backend/api/routes/metrics.py:49-78 | the handler answers from the metric table alone, as ModelComparison describes |
| MetricsRoutes.ComparisonCovers | backend/api/routes/metrics.py:58-78 | the request fails exactly when a stored compared model has a NULL score; otherwise the comparison lists exactly the compared models with a stored row, in the fixed order, and best_model is None exactly when none of them is stored |
| MetricsRoutes.ComparisonNewest | backend/api/routes/metrics.py:61-73 | every compared entry holds the rounded scores of that model's newest row |
| MetricsRoutes.RiskCount | backend/api/routes/metrics.py:106-116 | a risk count never exceeds the number of predictions |
| MetricsRoutes.CountSince | backend/api/routes/metrics.py:97-100 | the recent count never exceeds the number of predictions |
| MetricsRoutes.DashboardMetrics | backend/api/routes/metrics.py:85-154 | total is the number of predictions, and the recent and the three risk counts lie between 0 and that total |
| MetricsRoutes.DashboardDistribution | backend/api/routes/metrics.py:149-153 | risk_distribution has exactly the keys HIGH, MEDIUM, LOW, holding the three KPI counts |
| MetricsRoutes.RiskCountsPartition | backend/api/routes/metrics.py:106-116 | when every prediction carries one of the three levels, the three counts add up to the total |
| MetricsRoutes.SumProbabilityBounds | backend/api/routes/metrics.py:103 | the sum of probabilities in [0, 1] lies between 0 and the row count |
| MetricsRoutes.DashboardAverageUnit | backend/api/routes/metrics.py:103-143 | the average churn probability, 0 when there is none, stays in [0, 1] after rounding |
| MetricsRoutes.FeatureImportanceOf | backend/api/routes/metrics.py:161-181 | 404 exactly when no row has the model name; otherwise the name, the feature importance and trained_at of a newest row |
| MetricsRoutes.ConfusionMatrixOf | backend/api/routes/metrics.py:190-214 | 404 exactly when no row has the model name; otherwise the confusion matrix, the four counts and trained_at of a newest row |
| TrainRoutes.FindJob | backend/api/routes/train.py:50 | the first job with the given job_id, or the job count when there is none |
| TrainRoutes.TrainModels | backend/api/routes/train.py:190-231 | a fresh job id adds one pending job for the three models and answers pending with the start message, leaving the other tables alone; a job id already stored breaks the unique constraint on `job_id` and fails with 500 carrying the integrity error's text, changing nothing |
| TrainRoutes.NewJobPending | backend/api/routes/train.py:203-210 | the new job is pending at progress 0 for Logistic Regression, Random Forest and XGBoost, and the job table keeps distinct ids and job ids |
| TrainRoutes.MetricRow | backend/api/routes/train.py:139-157 | a stored metric row carries the model name, the next id, the model's ROC-AUC and trained_at taken when the rows are flushed (its own column default, a clock separate from the job's completion time); building it fails exactly when the model has no feature importance |
| TrainRoutes.CollectFromOk | backend/api/routes/train.py:138-158 | collecting the rows succeeds exactly when every remaining row could be built |
| TrainRoutes.CollectFromValues | backend/api/routes/train.py:138-158 | collected rows keep the earlier ones and append the built rows in order |
| TrainRoutes.CollectAll | backend/api/routes/train.py:138-158 | all rows are collected, one per model in order, exactly when each could be built |
| TrainRoutes.RowResults | backend/api/routes/train.py:138-157 | one row attempt per evaluated model, in metrics order, numbered on from the first free id |
| TrainRoutes.MetricRows | backend/api/routes/train.py:138-158 | the rows are built exactly when every model has a feature importance, one per model with its name and consecutive ids |
| TrainRoutes.CollectedRows | backend/api/routes/train.py:138-158 | collecting the row attempts agrees with MetricRows |
| TrainRoutes.BestOfThree | backend/api/routes/train.py:169 | with three evaluated models the best model by ROC-AUC always exists |
| TrainRoutes.Pipeline | backend/api/routes/train.py:61-171 | a run that raises stops after one of the eight progress steps; engineering runs on the loaded frame and `process_pipeline` cleans afterwards |
| TrainRoutes.FromLoaded | backend/api/routes/train.py:70-171 | a run from the loaded frame, engineered before it is cleaned, that raises stops after one of the eight progress steps |
| TrainRoutes.FromEngineered | backend/api/routes/train.py:79-171 | a run from the engineered frame that raises stops after one of the eight progress steps: a failed engineering at step 2 and a failing `process_pipeline` at step 3, each with its error and no stored row |
| TrainRoutes.FromFeatures | backend/api/routes/train.py:88-171 | a run from the processed features that raises stops after one of the eight progress steps |
| TrainRoutes.FromModels | backend/api/routes/train.py:105-171 | a run from the fitted models that raises stops after one of the eight progress steps |
| TrainRoutes.FromMetrics | backend/api/routes/train.py:114-171 | a run from the evaluated metrics that raises stops after one of the eight progress steps |
| TrainRoutes.FromRows | backend/api/routes/train.py:137-171 | a run stops exactly when its metric rows cannot be built, then after the last progress step with that error and with the rows added before the failure; otherwise it finishes with all rows, the metrics, the feature count and the best model by ROC-AUC |
| TrainRoutes.OkPrefix | backend/api/routes/train.py:138-158 | the rows added before the first failing one: each matches its attempt, and the attempt after them (if any) failed |
| TrainRoutes.OkPrefixUnique | backend/api/routes/train.py:138-158 | any rows matching the attempts up to the first failure are exactly that prefix |
| TrainRoutes.AddedRows | backend/api/routes/train.py:138-158 | the rows the saving loop adds to the session before it stops |
| TrainRoutes.AddedBeforeFailure | backend/api/routes/train.py:138-158 | all rows are added when all can be built; otherwise fewer than the models, and the model at the stopping position has no feature importance; each added row has its model's name, id baseId + i and a model with importances |
| TrainRoutes.Snapshots | backend/api/routes/train.py:55-135 | the first n committed states are the job at the first n progress steps |
| TrainRoutes.CommitsLifecycle | backend/api/routes/train.py:55-184 | every commit but the last shows the job running since the start time; the last is completed exactly when the run finished and failed exactly when it raised, with the completion time set; id, creation time and model list never change |
| TrainRoutes.CommitsProgress | backend/api/routes/train.py:58-184 | progress strictly rises through the running commits; a finished run commits nine times ending at 1.0 with every earlier value below 1.0; a failed run keeps the progress it reached and records the error text |
| TrainRoutes.ProgressIncreasing | backend/api/routes/train.py:58-133 | the eight progress values strictly increase |
| TrainRoutes.CompletedResults | backend/api/routes/train.py:166-171 | a completed job's results hold the metrics under the evaluated model names, the best model and the feature count |
| TrainRoutes.PipelineFinished | backend/api/routes/train.py:61-171 | a finished run has metrics for exactly the three trained models, the evaluator's best model by ROC-AUC, and three metric rows in training order with consecutive ids |
| TrainRoutes.LoadedFinished | backend/api/routes/train.py:70-171 | the same shape holds for a run from a loaded frame, engineered as written before cleaning |
| TrainRoutes.FeaturesFinished | backend/api/routes/train.py:88-171 | the same shape holds for a run from processed features |
| TrainRoutes.MetricsFinished | backend/api/routes/train.py:114-171 | the same shape holds for a run from evaluated metrics |
| TrainRoutes.TrainModelsTask | backend/api/routes/train.py:41-187 | an unknown job id changes nothing; otherwise the job's commits follow the run, its final state replaces it in place, the metric rows of a finished run are appended, and customers and predictions are untouched |
| TrainRoutes.RunLoaded | backend/api/routes/train.py:66-184 | from the loaded data on, the commits and the new tables are those of the run that engineers the loaded frame and then calls the processor's `process_pipeline` |
| TrainRoutes.RunFeatured | backend/api/routes/train.py:84-184 | from the processed features on, the commits and the new tables are those of the run from them |
| TrainRoutes.RunTrained | backend/api/routes/train.py:101-184 | from the fitted models on, the commits and the new tables are those of the run from them |
| TrainRoutes.RunEvaluated | backend/api/routes/train.py:110-184 | from the evaluated metrics on, the commits and the new tables are those of the run from them |
| TrainRoutes.StoreRows | backend/api/routes/train.py:133-184 | storing the metric rows commits them and completes the job; when a row cannot be built, the rows added before it are flushed by the failure handler's query and stored by its commit, and the job fails |
| TrainRoutes.Step | backend/api/routes/train.py:66-68 | one progress step commits the job at the next stage and changes no other table |
| TrainRoutes.Fail | backend/api/routes/train.py:176-184 | a raise marks the job failed with the error text and the completion time, and stores no metric row |
| TrainRoutes.BuildMetricRows | backend/api/routes/train.py:138-158 | the loop builds exactly MetricRows and returns the rows it added before it stopped, which are AddedRows |
| TrainRoutes.TrainingStatus | backend/api/routes/train.py:234-248 | 404 "Training job not found" exactly when no job has the id; otherwise the to_dict of a job with that id |
| TrainRoutes.TrainingJobs | backend/api/routes/train.py:257-273 | count is the number of listed jobs: min(limit, jobs) for a non-negative limit, all jobs for a negative one |
| TrainRoutes.TrainingJobsNewestFirst | backend/api/routes/train.py:266-271 | the listed jobs are stored jobs ordered newest first, no omitted job is newer than a listed one, and each is shown as its to_dict |
| TrainRoutes.BlankTotalChargesStopsTraining | backend/api/routes/train.py:73 | engineering the raw frame stops on a blank TotalCharges, which the Telco file has for new customers, so the training run stops at step 2 |
| TrainRoutes.CleanFirstCharges | backend/api/routes/train.py:73-82 | when cleaning runs first, every row with a numeric, non-negative tenure and numeric monthly charges gets its charge features |

## Left out

- Fitting and inference of scikit-learn, XGBoost, SHAP and SMOTE are library code. A fitted estimator is the `Classifier` value of its `predict`, `predict_proba` and fitted attributes. A SHAP explainer is the `ShapEngine` value of its SHAP rows. Hyperparameter search, class balancing and the training of each model are inputs.
- `ModelTrainer.prepare_train_test_split` (backend/src/model_trainer.py:35-68) is random splitting and SMOTE resampling. The training task receives the split and fitted models from a parameter.
- `DataProcessor.scale_features` (backend/src/data_processor.py:131-149) is the scaler's `fit_transform`/`transform`. The fitted scaler is a function parameter (`PredictRoutes.Scaler`). `DataProcessing.Pipeline` stops before scaling.
- `DataProcessor.process_single_input` (backend/src/data_processor.py:182-198) has no caller in the backend. It is `process_pipeline` on a one-row frame, which the prediction route already models.
- `Predictor.load_scaler` (backend/src/predictor.py:55-67) is not modelled. No predictor method reads the scaler it stores. The route state keeps the scaler it loads (`PredictRoutes.ModelState.scaler`).
- `ModelEvaluator.get_roc_curve_data` (backend/src/model_evaluator.py:155-180) is not modelled. It only reformats the curve scikit-learn computes.
- `FeatureEngineer.get_feature_importance_names` (backend/src/feature_engineer.py:199-211) is not modelled. It returns a fixed list that no other code reads.
- Reading and writing CSV, pickle and JSON files is not modelled. A loaded file is its parsed value, and a saved file is an entry in a map from path to content. `DataLoader.save_processed_data` is modelled only for the path it writes to.
- Background data drawn with `np.random.randn` for the explainer is not modelled. Only whether an explainer exists is kept.
- The training metadata file is not modelled. Logging is not modelled either.
- Database sessions, transactions, rollbacks and `refresh` are not modelled. Each commit replaces the table with its new contents.
- A failing commit of the batch insert leaves the table unchanged.
- Row ids are the next integer.
- Timestamps are a tick count paired with their `isoformat` text. `datetime.now`/`utcnow` and the `strftime` stamps are parameters.
- FastAPI's `BackgroundTasks` scheduling is not modelled. The training task is a separate method that runs from the job's creation to its end.
- Concurrent requests are not modelled.
- `backend/app/main.py` (application setup and CORS middleware), `backend/train_models.py`, `backend/check_health.py` and the tests are not part of this model.
- Floating point is modelled as exact reals. Python's `round` is modelled exactly on reals, ties to even. Division by zero and NaN arithmetic are not modelled beyond the cases the code guards.
- Decoding and parsing the uploaded CSV are not modelled. The upload is given as the frame `pd.read_csv` would produce, or as the error it would raise.
- A `customerID` cell that is not text, such as a number or NaN, counts as a missing id. The commit of the whole batch then fails.
- The daily churn trend of `GET /metrics/dashboard` (backend/api/routes/metrics.py:118-137) is not modelled, because grouping by calendar date needs a date arithmetic the timestamps do not carry.
- PredictRoutes.ModelState.ShowExplanation: the fallback recommendation "Unable to generate recommendations at this time" for an explanation that raises is not modelled. `explain_with_recommendations` catches its own SHAP failures and answers with no explanation, and nothing else in it raises in this model, so that branch has no input here.
- `pd.get_dummies` is not modelled. Encoding takes the one-hot step as a parameter, and the statements about the pipeline's target and SeniorCitizen assume of it only `DummiesKeep`: rows kept, the listed columns replaced by indicator columns named after them, every other column and its cells kept.
- Strings.Lower: lower-cases ASCII letters only. Python's `str.lower` also folds non-ASCII letters, which the Telco column names and values do not contain. The feature-keyword rules, model file names and customer search use this lower-casing.
- Inference.NoRows: the text of the numpy error for an empty matrix is written out as numpy words it. The model does not derive it, and another numpy version may word it differently.
- ExplainRoutes.NotADict: the texts of the `AttributeError` raised on stored features that are not an object are written out as CPython words them. The model does not derive them, and another version may word them differently.
- ExplainRoutes.TopRiskFactors: the texts raised when slicing stored top features that are neither a list nor a text are written out as CPython 3.12 words them (`NotSliceable`). A stored whole number is read as a float, and before 3.12 a dict gives "unhashable type: 'slice'" instead of the `KeyError` on the slice.
- MetricsRoutes.DashboardMetrics: states bounds on the counts rather than their exact values. `RiskCountsPartition` and `DashboardDistribution` give the rest.
- TrainRoutes.Pipeline: its own ensures only bounds the step at which a run stops. `PipelineFinished`, `CommitsLifecycle` and `CommitsProgress` state what a run yields.
- CustomerRoutes.GetCustomers: `search` is matched with SQLite's case-insensitive `LIKE` as substring containment. The wildcard characters `%` and `_` inside the search text itself are taken literally.
- Strings.IsSpace: holds for the ASCII white-space characters only. Python's `str.strip`, which `cors_origins_list` applies to each origin, also strips non-ASCII white space such as U+00A0 and U+2028.
- Strings.ParseNumber: reads an optional sign, decimal digits with an optional fraction and an optional exponent, between ASCII white space. The texts "inf", "infinity" and "nan", which `pandas.to_numeric` also reads, are not read because a real cannot hold them; "nan" still ends as NaN, as coercion makes it. Non-ASCII digits are not read, and the control characters U+001C to U+001F, which `Strings.IsSpace` counts as white space, are skipped although pandas does not skip them.
- Frames.Numeric: the `TypeError` raised by arithmetic on a text cell is written "unsupported operand type(s)". pandas and CPython go on to name the operator and the operand types, which the model does not carry.
- Evaluation.Unpack: the unpacking errors are written out as CPython words them for an iterable that is not a list or tuple. Another version may word them differently.
- Evaluation.UnpackSingleClass: follows scikit-learn 1.6 or later, where `roc_auc_score` warns and returns NaN on single-class labels. Older versions raise "Only one class present in y_true" at backend/src/model_evaluator.py:55, before the matrix is computed and stored; the model does not capture that order.
- Evaluation.FeatureImportance: the `IndexError` for a `coef_` without rows is written out as numpy words it. Another numpy version may word it differently.
- Evaluation.BestModel: the `KeyError` text of an unknown metric is the name between single quotes. Python's `repr` picks double quotes for a name that holds a single quote.
- Records.NullCustomerId: only the first line of SQLAlchemy's text for the failed insert is kept. The lines with the SQL statement, its parameters and the link to the documentation are not modelled.
- TrainRoutes.TrainModels: only the first line of SQLAlchemy's text for the failed insert of a job id already in use is kept. The lines with the SQL statement, its parameters and the link to the documentation are not modelled. In the source the id is a fresh uuid4, so the case does not arise in practice.
- DataLoading.ListText: the `repr` of the missing column names is built for names without quotes. Every name it is given comes from the fixed list of required columns.
- CustomerRoutes.CustomerSummary: for an empty table the source's churn_rate is the integer 0, which JSON writes as `0`. The model gives the real 0.0.
- CustomerRoutes.Distribution: a distribution is a map, so the order of its keys is not kept. The source's object lists them in the order SQLite returns the groups.
- The Boolean customer columns (churn_status, senior_citizen and the service flags) are nullable in the database, with False as their default. The model stores them as `bool`, so a NULL flag cannot occur. A NULL churn_status would count as not churned in the summary, as False does.
- The `trained_at` of a stored metric row is its column default, read when the rows are flushed. The metadata file's `trained_at` is a separate clock reading, and it is not modelled with that file.

## Findings

| source | as written | input that shows it | evidently intended | confidence | as-written member | corrected member |
|---|---|---|---|---|---|---|
| backend/api/routes/predict.py:159-160 | `input_data.get('customer_id', fallback)` never falls back, because `request.dict()` always has the key; an omitted id stays None and the NOT NULL insert fails with a 500 | a valid request body without `customer_id` | a request without an id is stored and answered under `CUST_<timestamp>` | high; not executed | PredictRoutes.OmittedIdAsWritten | PredictRoutes.OmittedIdIntended |
| backend/src/data_loader.py:87 | processed files are written to `data_path.parent / "processed"`, a `processed` directory beside the data directory | the default loader, whose `data_path` is the backend's `data` directory | the settings' `PROCESSED_DATA_DIR`, `DATA_DIR/processed` | medium; not executed | DataLoading.ProcessedOutputOutsideDataDir | DataLoading.ProcessedOutputIntendedIsSettings |
| backend/api/routes/train.py:73 | features are engineered on the raw frame, before `process_pipeline` cleans it, so the division by `tenure + 1` meets a blank TotalCharges text | a Telco row with tenure 0 and TotalCharges `" "` | clean first, then engineer, as the standalone training script `backend/train_models.py` does | medium; not executed | TrainRoutes.BlankTotalChargesStopsTraining | TrainRoutes.CleanFirstCharges |

The route members follow the code as written: `PredictRoutes.ModelState.PredictChurn` keeps the omitted id and `TrainRoutes.RunLoaded` engineers before cleaning. The corrected members state the intended behaviour beside them.
