/**
 * The library calls the modelled code makes (OpenCV, MediaPipe, scikit-image,
 * scikit-learn). Their behaviour is not modelled: each is a function value the
 * caller supplies, and the model states only what is done with its result.
 */
module Foreign {
  import opened Wrappers
  import opened Values

  datatype Vision = Vision(
    /** `edge_detection`, `cv2.findContours`, the largest contour by
        `cv2.contourArea` and `cv2.boundingRect`; `None` when there is no
        contour. */
    largestContourBox: Image -> Option<Rect>,
    /** `Hands(static_image_mode=True, max_num_hands=1,
        min_detection_confidence=0.5).process`. */
    detectHands: Image -> DetectorResult,
    /** `MinMaxScaler().fit_transform` on the coordinate matrix. */
    minMaxScale: seq<Point> -> seq<Point>,
    /** `skimage.feature.hog(image, orientations=9, pixels_per_cell=(8, 8),
        cells_per_block=(2, 2), block_norm='L2-Hys', visualize=True)`. */
    hog: Image -> (seq<real>, Image),
    /** `exposure.rescale_intensity(features, in_range=(0, 10))`. */
    rescaleIntensity: seq<real> -> seq<real>
  )

  datatype Learning = Learning(
    /** `LabelEncoder.fit` */
    fitEncoder: seq<string> -> Encoder,
    /** `LabelEncoder.transform` */
    encode: (Encoder, seq<string>) -> seq<int>,
    /** `LabelEncoder.inverse_transform` */
    decode: (Encoder, seq<int>) -> seq<string>,
    /** `RandomizedSearchCV(...).fit(X, y).best_estimator_` */
    search: (SearchConfig, seq<seq<real>>, seq<int>) -> Estimator,
    /** `estimator.predict` */
    predict: (Estimator, seq<seq<real>>) -> seq<int>,
    /** `estimator.predict_proba` */
    predictProba: (Estimator, seq<seq<real>>) -> seq<seq<real>>,
    /** `classification_report(y_true, y_pred)` */
    classificationReport: (seq<string>, seq<string>) -> string,
    /** `confusion_matrix(y_true, y_pred)` */
    confusionMatrix: (seq<string>, seq<string>) -> seq<seq<int>>,
    /** `label_binarize` of the test labels by their own distinct labels, the
        per-class `auc` over `roc_curve`, and `roc_auc_score` one-vs-rest and
        one-vs-one; these raise when the binarized labels and the probability
        columns disagree */
    rocAuc: (seq<string>, seq<seq<real>>) -> Result<AucScores>
  )
}
