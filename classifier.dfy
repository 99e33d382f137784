/**
 * A fitted scikit-learn or XGBoost estimator, seen from the outside. Training and
 * inference are library code, so an estimator is the pair of answers it gives for
 * a feature vector plus the fitted attributes the backend inspects.
 */
module Estimators {
  import opened Wrappers

  datatype Classifier = Classifier(
    /** `predict` on one row: the predicted class, churn or not. */
    predict: seq<real> -> bool,
    /** `predict_proba` on one row: (probability of class 0, probability of class 1). */
    proba: seq<real> -> (real, real),
    /** `feature_importances_`, present on tree ensembles. */
    featureImportances: Option<seq<real>>,
    /** `coef_`, one row of weights per class, present on linear models. */
    coef: Option<seq<seq<real>>>)
}
