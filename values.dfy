/**
 * The values the feature-extraction and training code passes around. Pixel
 * buffers are not modelled: an image is its shape, the buffer it was decoded
 * from and the list of pixel operations applied to it since.
 */
module Values {
  import opened Wrappers

  /** numpy's `image.shape`: (height, width) for a single-channel image,
      (height, width, channels) otherwise. */
  datatype Shape = Shape(height: nat, width: nat, channels: Option<nat>)

  /** An OpenCV rectangle `(x, y, w, h)`. */
  datatype Rect = Rect(x: int, y: int, w: int, h: int)

  /** One hand landmark in MediaPipe's normalised image coordinates. */
  datatype Landmark = Landmark(x: real, y: real)

  type Hand = seq<Landmark>

  /** What `Hands.process` returns: `multi_hand_landmarks` is a list of hands,
      or `None` when no hand was found. */
  datatype DetectorResult = DetectorResult(multiHandLandmarks: Option<seq<Hand>>)

  /** A pixel operation already applied to an image. */
  datatype Op =
    | Resized(pixels: nat)
    | Grayscaled
    | ChannelsSwapped
    | Blurred
    | GrabCut(rect: Rect)
    | LandmarksDrawn(hand: Hand)

  datatype Image = Image(shape: Shape, origin: nat, history: seq<Op>)

  /** One row of the landmark coordinate matrix `coords` (an (n, 2) float array). */
  datatype Point = Point(x: real, y: real)

  /** A cell of a CSV row: the label and source path are text, features are numbers. */
  datatype Cell = Text(text: string) | Number(number: real)

  /** The arguments of one `DataFrame([row], columns=header).to_csv(target, mode='a', ...)`. */
  datatype CsvAppend = CsvAppend(target: string, header: seq<string>, row: seq<Cell>)

  /** The classifiers `model_trainer` sets up, and the tuned estimator a search returns. */
  datatype Estimator =
    | KNeighborsClassifier
    | RandomForestClassifier(randomState: int)
    | BestEstimator(id: nat)

  /** The `param_distributions` handed to the randomized search. */
  datatype ParamSpace =
    | NeighborsSpace(nNeighbors: seq<int>, weights: seq<string>, metric: seq<string>)
    | ForestSpace(nEstimators: seq<int>, maxFeatures: seq<string>, maxDepth: seq<Option<int>>,
                  minSamplesSplit: seq<int>, minSamplesLeaf: seq<int>)

  datatype SearchConfig = SearchConfig(estimator: Estimator, space: ParamSpace, nIter: nat, cv: nat, randomState: int)

  /** A fitted `LabelEncoder`. */
  datatype Encoder = Encoder(classes: seq<string>)

  /** One split of a dataset once loaded: feature rows and their labels. */
  datatype Dataset = Dataset(features: seq<seq<real>>, labels: seq<string>)

  datatype AucScores = AucScores(perClass: seq<real>, ovr: real, ovo: real)

  /** The confusion matrix as a DataFrame: its counts, with the same labels
      on rows and columns. */
  datatype ConfusionFrame = ConfusionFrame(labels: seq<string>, counts: seq<seq<int>>)
}
