# QoL feature extraction and model training, modelled in Dafny

`QoL.py` prepares images of the American Sign Language alphabet for classification. It then trains and evaluates classifiers on the features it extracts.

This project models the core of that file:

- **Image preprocessing.** The `image_preprocessing` transforms affect an image's shape, colour tag and history. The padded hand rectangle used for segmentation is modelled too. So is the `__to_self` decorator, which either overwrites the instance or returns a new one.
- **Landmark extractor.** The `mediapipe_landmarks` extractor:
  - picks the detector result that found a hand (`select_lists`);
  - turns the hand's landmarks into pixel coordinates, or 21 zero rows when no hand is found;
  - normalises them at most once;
  - builds the labelled 44-column CSV row, whose label and target file come from the image path.
- **HOG extractor.** The `hog_transform` extractor has a fixed resize–segment–grayscale chain, a feature row and a header generated from the row's length.
- **Trainer.** `model_trainer` is modelled through:
  - the keyword check, made before any file is read;
  - the dataset paths and the order of the two reads;
  - the randomized-search spaces;
  - the trained/untrained gate on `train_model`, `predict` and `generate_error_reports`.
- **Persistence.** `dump_object` appends to a pickled list.

Images are not pixel buffers here. An `Image` is its shape, an identifier of the buffer it was decoded from, and the list of pixel operations applied since.

Library calls become function-typed fields of two records, `Foreign.Vision` and `Foreign.Learning`. These cover OpenCV contours, MediaPipe detection, HOG, the scalers, `LabelEncoder`, `RandomizedSearchCV`, prediction and the metrics. The model states what the code does with their results, not what they compute.

Python's own behaviour that the code relies on is written out in `PyText`:

- `str(n)`;
- `str.split` followed by negative indexing, with the IndexError;
- `ntpath.join`.

Exceptions are `Result` values. The model keeps each exception's class and, where the code or Python fixes it, its message.

Module layout: `Wrappers`, `PyText`, `Values`, `Foreign`, `Imaging` (image_preprocessing), `FeatureRows` (what both extractors share), `Landmarks` (mediapipe_landmarks), `Gradients` (hog_transform), `Trainer` (model_trainer) and `Persistence` (dump_object). The extractor classes hold their `image_preprocessing` part as a field `pre` rather than inheriting from it.

## Model

| member | source | states |
|---|---|---|
| PyText.NatToString | QoL.py:360-361 | `str(i)` of a column index is a non-empty string of decimal digits with no leading zero |
| PyText.ParseNatToString | QoL.py:360-361 | reading the decimal text back gives the index again |
| PyText.NatToStringInjective | QoL.py:360-361 | different indices give different column suffixes |
| PyText.Split | QoL.py:304 | `split('\\')` gives at least one part, and no part contains the separator |
| PyText.SplitCount | QoL.py:304 | there is one part more than the path has separators |
| PyText.SplitWithoutSeparator | QoL.py:304 | a component without a separator splits into itself |
| PyText.SplitAround | QoL.py:304 | splitting at a separator splits the two sides independently |
| PyText.SplitJoin | QoL.py:304 | splitting the join of separator-free parts gives the parts back |
| PyText.JoinSplit | QoL.py:304 | joining the parts of a split gives the string back |
| PyText.JoinPath | QoL.py:435-436 | `os.path.join` keeps the directory as prefix and the relative part as suffix, and inserts a backslash exactly when the directory is non-empty, lacks a trailing separator and is not a bare drive |
| PyText.JoinPathSplit | QoL.py:435-436 | the joined path's components are the directory's followed by the relative part's |
| FeatureRows.LabelOf | QoL.py:304 | the label `split('\\')[-2]` exists exactly when the path has a separator, holds no separator, and otherwise IndexError is raised |
| FeatureRows.SplitOf | QoL.py:364 | the split name `split('\\')[-3]` exists exactly when the path has two separators, otherwise IndexError |
| FeatureRows.DatasetPathComponents | QoL.py:357-364 | for `<root>\<split>\<letter>\<file>` the label is the letter directory and the CSV is named after the split directory |
| FeatureRows.NormalizedAtMostOnce | QoL.py:352-355 | over any series of `to_csv`/`extract_values` calls the features are scaled at most once: exactly once if not yet normalised and some call asks for it |
| Imaging.PadHandRectangle | QoL.py:273-277 | the padded rectangle starts at column and row 1 or later, ends inside the image, and grows by at most 10 pixels per dimension |
| Imaging.PaddedRectangleWellFormed | QoL.py:273-277 | for a box inside a non-empty image the padded sides are non-negative |
| Imaging.PaddedRectangleCoversBox | QoL.py:274-275 | the padded rectangle covers the box if and only if the box does not touch column 0 or row 0 |
| Imaging.PaddingAwayFromBorders | QoL.py:273-277 | away from the borders the box grows by exactly 5 pixels on every side |
| Imaging.PaddingAtLeftBorder | QoL.py:274-276 | at the left border the start clamps to 1 while the width still grows by 10, capped by the image |
| Imaging.FindHandRectangle | QoL.py:261-280 | with no contour, `max` raises ValueError; otherwise the rectangle starts at column and row 1 or later, ends inside the image, is at most 10 pixels wider and taller than the largest contour's box, and covers that box when the box does not touch the first column or row |
| Imaging.Transform | QoL.py:168-297 | for resize, grayscale, RGB, blur (168-186) and segment (282-297): resizing raises OpenCV's error exactly when the target side or the image is empty; the conversions raise unless the image has 3 or 4 channels; segmentation also raises the `max` ValueError without a contour and the grabCut error on 4 channels; success appends one operation and keeps the origin; only resizing changes height and width; RGB has 3 channels and grayscale one; only the conversions change the colour tag |
| Imaging.ResizeSegmentGrayscale | QoL.py:383-385 | resizing succeeds exactly for a non-empty image and side; then segmenting and converting to grayscale fails exactly when the image is not 3-channel or has no contour, and otherwise gives a square single-channel "gray" image with those three operations appended |
| Imaging.ImagePreprocessing.constructor | QoL.py:145-152 | image and original image are the given array; `size` is its shape |
| Imaging.ImagePreprocessing.Apply | QoL.py:154-166 | with `to_self` the instance takes the transform's image and colour and `size` follows; without it a fresh instance is returned and this one is unchanged; an exception changes nothing |
| Landmarks.WithLandmarks | QoL.py:78 | the filtered list holds only results with a hand list, and is empty exactly when no argument has one |
| Landmarks.SelectLists | QoL.py:77-83 | `None` exactly when no argument has a hand list; otherwise a result that has one |
| Landmarks.SelectListsPicksFirst | QoL.py:77-83 | the result picked is the first in argument order that has a hand list |
| Landmarks.Trunc | QoL.py:328 | `int()` truncates toward zero |
| Landmarks.OneHandRows | QoL.py:324-329 | with one hand, row i of the coordinates is landmark i in pixels |
| Landmarks.CollectCoordinates | QoL.py:320-333 | the nested loop stacks exactly the pixel points of every landmark, hand after hand |
| Landmarks.Flatten | QoL.py:374 | flattening is row-major: value 2i is x and value 2i+1 is y of row i |
| Landmarks.FlattenZeros | QoL.py:374 | flattening zero rows gives twice as many zeros |
| Landmarks.NoHandValues | QoL.py:331-333 | with no hand the extracted values are 42 zeros |
| Landmarks.DrawHands | QoL.py:330 | drawing the landmarks keeps the image's shape and origin |
| Landmarks.CoordinateColumns | QoL.py:360-361 | two columns per landmark |
| Landmarks.CoordinateColumnsAt | QoL.py:360-361 | the coordinate columns come in pairs `x_i`, `y_i`, landmark by landmark |
| Landmarks.CoordinateColumn | QoL.py:360-361 | coordinate column k is `x_` or `y_` by the parity of k, followed by k/2 |
| Landmarks.CoordinateColumnsDistinct | QoL.py:360-361 | no two coordinate columns share a name |
| Landmarks.HeaderInitial | QoL.py:359-362 | only the first header column starts with `l` and only the last with `o` |
| Landmarks.HeaderColumns | QoL.py:359-362 | the header is `letra`, `x_i`/`y_i` for each landmark, then `origen` |
| Landmarks.HeaderDistinct | QoL.py:359-362 | no two header columns share a name |
| Landmarks.LandmarkHeaderColumns | QoL.py:359-362 | the landmark header has 44 distinct columns |
| Landmarks.BuildLandmarkHeader | QoL.py:359-362 | the column loop builds exactly that header |
| Landmarks.LandmarkRow | QoL.py:357 | the row is the label, the x/y of every coordinate row in order, then the path |
| Landmarks.LandmarkCsvShape | QoL.py:357-367 | `to_csv` succeeds exactly when the path names a split and there are 21 coordinate rows; then row and header both have 44 cells and the target is `graph-processing\processed_data\<split>.csv` |
| Landmarks.MediapipeLandmarks.constructor | QoL.py:300-337 | the instance is converted to RGB; with no hand, 21 zero rows and `results` false; otherwise the coordinates of the selected hands and the landmarks drawn |
| Landmarks.MediapipeLandmarks.NormalizeCoords | QoL.py:346-350 | the coordinates are min-max scaled and the flag set |
| Landmarks.MediapipeLandmarks.NormalizeIfAsked | QoL.py:353-355 | scales only when asked and not yet normalised |
| Landmarks.MediapipeLandmarks.ToCsv | QoL.py:352-367 | normalises at most once, then returns the labelled row whose label is the instance's letter, or the exception |
| Landmarks.MediapipeLandmarks.ExtractValues | QoL.py:369-374 | normalises at most once, then returns the flattened coordinates |
| Landmarks.NewMediapipeLandmarks | QoL.py:300-337 | IndexError when the path has no separator; otherwise OpenCV's error unless the image has 3 or 4 channels; otherwise a fresh, unnormalised extractor labelled from its path, holding the loaded image as original, its 3-channel RGB conversion as image, and either 21 zero rows with `results` false or the selected hands' pixel coordinates with the landmarks drawn |
| Gradients.PreprocessOutcome | QoL.py:383-385 | the chain fails exactly when the image is empty or not 3-channel, or the resized image has no contour; otherwise it gives a 64x64 single-channel "gray" image |
| Gradients.HogHeaderDistinct | QoL.py:409 | no two HOG header columns share a name |
| Gradients.HogCsvShape | QoL.py:403-413 | `to_csv` succeeds exactly when the path names a split; header and row then both have one column per feature plus the label, and the target is `gradient-processing\processed_data\<split>.csv` |
| Gradients.HogTransform.constructor | QoL.py:377-389 | the image is the preprocessing chain's result, 64x64 single-channel, and the features and their picture are HOG of it |
| Gradients.HogTransform.NormalizeHog | QoL.py:398-401 | the features are rescaled and the flag set |
| Gradients.HogTransform.NormalizeIfAsked | QoL.py:404-406 | rescales only when asked and not yet normalised |
| Gradients.HogTransform.ToCsv | QoL.py:403-413 | normalises at most once, then returns the labelled row or the exception |
| Gradients.HogTransform.ExtractValues | QoL.py:415-421 | normalises at most once, shows the HOG picture as the image while `size` stays, and returns the features |
| Gradients.NewHogTransform | QoL.py:377-389 | fails exactly when the preprocessing chain does, with its exception; otherwise a fresh, unnormalised extractor whose image is the chain's 64x64 gray result, whose original is the loaded image, and whose features and picture are HOG of that image |
| Trainer.ParseTechnique | QoL.py:429 | recognises exactly the three technique keywords |
| Trainer.ParseModel | QoL.py:429 | recognises exactly the three model keywords |
| Trainer.CheckKeywords | QoL.py:429-433 | accepted exactly when the technique is graph, gradient or neural and the model knn, rf or ann; otherwise the ValueError with its message |
| Trainer.KeywordsRoundTrip | QoL.py:429-433 | every technique and model name is accepted as itself |
| Trainer.DatasetFiles.ReadCsv | QoL.py:439-440 | every read is logged; a missing file raises FileNotFoundError |
| Trainer.StepCountBounds | QoL.py:509 | the number of `np.arange` values is the first step count that reaches stop |
| Trainer.Arange | QoL.py:509 | `np.arange(start, stop, step)` holds start + i·step for each i, all below stop, and covers up to stop |
| Trainer.ArangeLength | QoL.py:518 | `np.arange` has n values when the n-th step is the first to reach stop |
| Trainer.ArangeUnit | QoL.py:509 | with step 1 there is one value per integer from start up to stop |
| Trainer.SteppedBounds | QoL.py:518 | `[None] + list(np.arange(...))` is no bound followed by n bounds growing by step |
| Trainer.NeighborsParamsValues | QoL.py:505-512 | the k-NN search tries 1 to 30 neighbours, two weightings and three metrics |
| Trainer.ForestTreeParams | QoL.py:513-517 | the forest search tries 10 to 199 trees and the feature rules auto, sqrt and log2 |
| Trainer.ForestDepthParams | QoL.py:518 | the forest search tries no depth bound, then depths 5 to 45 in steps of 5 |
| Trainer.ForestSampleParams | QoL.py:519-520 | the forest search tries 2 to 10 samples to split and 1 to 10 per leaf |
| Trainer.UniqueInOrder | QoL.py:564-565 | the confusion-matrix labels are the test labels, each exactly once |
| Trainer.UniqueInOrderPrefix | QoL.py:564-565 | they are in order of first appearance: a prefix's unique labels are a prefix of the whole's |
| Trainer.UniqueInOrderCovered | QoL.py:564-565 | labels that already occurred leave the unique labels unchanged |
| Trainer.UniqueInOrderExtends | QoL.py:564-565 | the labels of test and predictions together are as many as the test labels exactly when every prediction is a test label |
| Trainer.ModelTrainer.constructor | QoL.py:476-482 | a new trainer is untrained with no model, search space, fitted encoder or reports |
| Trainer.ModelTrainer.TrainModel | QoL.py:525-548 | a trained instance is unchanged; otherwise the encoder is fitted on the training labels; for knn and rf the search runs with 100 iterations, 5 folds and seed 42, and its best estimator is kept and marked trained; for ann it raises and stays untrained |
| Trainer.ModelTrainer.Predict | QoL.py:596-602 | untrained raises ValueError "Modelo no entrenado."; trained returns the decoded predictions |
| Trainer.ModelTrainer.GenerateErrorReports | QoL.py:550-589 | untrained raises SystemError "No hay modelo entrenado." and changes nothing; trained stores the report first; when a predicted label is not a test label the DataFrame raises its shape ValueError and nothing else changes; otherwise the confusion matrix labelled by the test labels in order of appearance is stored, then the AUC scores, or the AUC calls' exception with the matrix kept; it succeeds exactly when every prediction is a test label and the AUC calls succeed |
| Trainer.NewModelTrainer | QoL.py:425-482 | unknown keywords raise before any file is read; then the train file and the test file are read in that order, and a missing one raises FileNotFoundError; on success the trainer holds both datasets and both paths, untrained, with no model, search space, fitted encoder or reports |
| Persistence.Dumped | QoL.py:85-94 | after a dump the file's list is what it held, or nothing, followed by the object; other files are untouched |
| Persistence.DumpAllAppends | QoL.py:85-94 | successive dumps keep every object in dump order after the file's earlier contents |
| Persistence.DumpAllOthers | QoL.py:85-94 | successive dumps into one file leave every other file as it was |
| Persistence.ObjectFiles.DumpObject | QoL.py:85-94 | the files become exactly those after one dump |

## Left out

- Pixel arithmetic is not modelled. This covers resizing, colour conversion, blurring, GrabCut masks, edge detection, HOG and drawing. Each shows up only as its effect on shape and colour tag plus an entry in the image's history.
- Image loading (`cv2.imread` of a path, and the ValueError for an argument that is neither a path nor an array) is left out because it is file I/O. Constructors take the decoded image.
- `manual_adjust_luminosity`, `auto_adjust_luminosity`, `edge_enhancement` and `histogram_equalization` are left out because they are pixel arithmetic. The last two return a bare array into a decorator that unpacks it as a pair along its first axis. So they fail unless the image has exactly two rows, and then take row 0 as the image and row 1 as the colour. An unknown `contrast` raises ValueError first.
- `edge_detection`'s grayscale-blur-Canny chain and `findContours` are folded into the library call `Vision.largestContourBox`.
- `visualize_landmarks`, `visualize_gradients`, `show_CM` and `class_counts` are left out because they only display or tabulate.
- `create_files`, `get_file_paths`, `retrieve_raw_paths`, `dataset_exists`, `load_model`, `export_model`, `device_configuration` and the `__main__` block are left out. They are file-system walking, downloads, pickling of the trainer, hardware probing and multiprocessing.
- `DataFrame.to_csv` is left out because it is file I/O. It includes the append and the `header=not os.path.exists(ruta)` rule. Both `to_csv` methods return the target path, header and row they would append.
- The data-cleaning pass of `model_trainer.__init__` is left out: line counting, `dropna`, numeric coercion and the byte-string label stripping. It is file and DataFrame manipulation. The datasets are given as they are after cleaning.
- `MinMaxScaler`, `exposure.rescale_intensity`, `LabelEncoder`, `RandomizedSearchCV`, prediction, `classification_report`, `confusion_matrix`, `roc_curve`, `auc` and `roc_auc_score` are library calls. Only how the code wires them together is modelled.
- The verbosity and parallelism (`verbose`, `n_jobs`) of the search are left out because they do not affect the result.
- Landmark `z` coordinates are left out because the code never reads them.
- MediaPipe's detector options are folded into `Vision.detectHands`.
- The `print` in `train_model` for an already trained model is left out because it is console output.
- Landmarks.MediapipeLandmarks.constructor: the landmarks are drawn after all coordinates are collected, not after each hand. The two orders give the same state: the drawn entries come in hand order either way, and drawing changes neither the coordinates nor the image shape.
- Landmarks.MediapipeLandmarks.NormalizeCoords: the code sets the flag before `fit_transform`, so a scaler exception would leave the flag set. The scaler is total in the model, so this is not captured.
- Trainer.ModelTrainer.TrainModel: for `ann` the search gets no estimator and raises inside scikit-learn. The model gives that a placeholder ValueError, not the library's exact exception and message.
- Trainer.ModelTrainer.TrainModel: the search and the encoder are total in the model, so an exception raised by the fit itself is not captured.
- Imaging.Transform: segmentation on a single-channel image is not modelled beyond its error. NumPy broadcasting of the mask would give a different shape, but OpenCV raises first.
- PyText.JoinPath: only a relative second part without drive or root is modelled. UNC prefixes of the first part are not distinguished from ordinary directories.
- `max_features` is modelled as the code writes it: `['auto', 'sqrt', 'log2']`.
- Imaging.Transform: only resizing rejects an empty (zero-height or zero-width) image. `cvtColor`, `GaussianBlur` and `grabCut` also reject one in OpenCV, but the model lets them through. The resize side is a natural number, so a negative `pixels` is not modelled.
- Landmarks.NewMediapipeLandmarks: a 4-channel image succeeds in the model. In the code every image comes from `cv2.imread`, which gives 3 channels, and MediaPipe's `process` would reject the 4-channel original image anyway.
- Landmarks.PixelPoint: landmark coordinates, features and scaler outputs are exact reals, not IEEE doubles. `int(landmark.x * w)` rounds the product before truncating, so where rounding reaches an integer the model's pixel coordinate can be one lower than Python's.
- Trainer.ModelTrainer.GenerateErrorReports: `label_binarize`, `roc_curve`, `auc` and `roc_auc_score` are one library call, `Learning.rocAuc`, that may raise. The conditions under which they raise are not stated. In the code they raise when the test set has fewer than three distinct labels, or a different number of distinct labels from the classes the model was fitted on.
