/**
 * `hog_transform`: the fixed preprocessing chain, the HOG feature vector and
 * its visualisation, and the labelled CSV row whose header is generated from
 * the number of features.
 */
module Gradients {
  import opened Wrappers
  import opened PyText
  import opened Values
  import opened Foreign
  import opened Imaging
  import opened FeatureRows

  /** The side, in pixels, images are resized to before HOG. */
  const HogSide := 64

  /** `resize_image(64)`, `segment_image()`, `to_grayscale()`, each with
      `to_self=True`: the image and colour tag HOG is computed on. */
  function Preprocess(loaded: Image, color: string, vision: Vision): Result<(Image, string)>
  {
    var (resized, c1) :- Transform(Resize(HogSide), loaded, color, vision);
    var (segmented, c2) :- Transform(Segment, resized, c1, vision);
    Transform(ToGrayscale, segmented, c2, vision)
  }

  /** The chain fails exactly when the image is empty, does not have three
      channels, or no contour is found in the resized image, and otherwise
      gives a 64x64 single-channel image tagged "gray". */
  lemma PreprocessOutcome(loaded: Image, color: string, vision: Vision)
    ensures var resized := loaded.(shape := Shape(HogSide, HogSide, loaded.shape.channels), history := loaded.history + [Resized(HogSide)]);
      Preprocess(loaded, color, vision).Err? <==>
        loaded.shape.height == 0 || loaded.shape.width == 0 ||
        loaded.shape.channels != Some(3) || vision.largestContourBox(resized).None?
    ensures Preprocess(loaded, color, vision).Ok? ==>
      Preprocess(loaded, color, vision).value.0.shape == Shape(HogSide, HogSide, None) &&
      Preprocess(loaded, color, vision).value.1 == "gray"
  {
    ResizeSegmentGrayscale(loaded, color, HogSide, vision);
  }

  /** `['letra'] + [f'cell_{i}' for i in range(n)]` */
  function HogHeader(n: nat): (columns: seq<string>)
    ensures |columns| == n + 1 && columns[0] == "letra"
    ensures forall i :: 0 <= i < n ==> columns[i + 1] == "cell_" + NatToString(i)
  {
    ["letra"] + seq(n, i requires 0 <= i => "cell_" + NatToString(i))
  }

  /** No two columns of the HOG header have the same name. */
  lemma HogHeaderDistinct(n: nat)
    ensures forall j, k :: 0 <= j < k <= n ==> HogHeader(n)[j] != HogHeader(n)[k]
  {
    var header := HogHeader(n);
    forall j, k | 0 <= j < k <= n
      ensures header[j] != header[k]
    {
      if j == 0 {
        assert header[j][0] == 'l' && header[k][0] == 'c';
      } else if header[j] == header[k] {
        PrefixedEqual("cell_", NatToString(j - 1), NatToString(k - 1));
        NatToStringInjective(j - 1, k - 1);
      }
    }
  }

  /** `[label] + hog_features.flatten().tolist()` */
  function HogRow(rowLabel: string, features: seq<real>): (row: seq<Cell>)
    ensures |row| == |features| + 1 && row[0] == Text(rowLabel)
    ensures forall i :: 0 <= i < |features| ==> row[i + 1] == Number(features[i])
  {
    [Text(rowLabel)] + Numbers(features)
  }

  /** What `hog_transform.to_csv` hands to `DataFrame.to_csv`, or the
      IndexError it raises when the path is too short. The header is made
      from the row's own length. */
  function HogCsv(path: string, features: seq<real>, venv: string): Result<CsvAppend>
  {
    var rowLabel :- LabelOf(path);
    var row := HogRow(rowLabel, features);
    var header := HogHeader(|row| - 1);
    var split :- SplitOf(path);
    Ok(CsvAppend(CsvTarget(venv, "gradient", split), header, row))
  }

  /** The HOG row always fits its header: it succeeds exactly when the path
      names a split directory, and then header and row both have one column
      per feature plus the label. */
  lemma HogCsvShape(path: string, features: seq<real>, venv: string)
    ensures HogCsv(path, features, venv).Ok? <==> SplitOf(path).Ok?
    ensures HogCsv(path, features, venv).Ok? ==>
      var append := HogCsv(path, features, venv).value;
      && append.target == CsvTarget(venv, "gradient", SplitOf(path).value)
      && append.header == HogHeader(|features|)
      && append.row == HogRow(LabelOf(path).value, features)
      && |append.header| == |append.row| == |features| + 1
  {
  }

  class HogTransform {
    const imagePath: string
    /** The `image_preprocessing` part of the instance. */
    const pre: ImagePreprocessing
    var hogFeatures: seq<real>
    var hogImage: Image
    var isNormalized: bool

    /** `hog_transform.__init__` once segmentation is known to find a contour. */
    constructor (path: string, loaded: Image, color: string, vision: Vision)
      requires Preprocess(loaded, color, vision).Ok?
      ensures imagePath == path && fresh(pre)
      ensures pre.originalImage == loaded
      ensures (pre.image, pre.color) == Preprocess(loaded, color, vision).value
      ensures pre.size == Shape(HogSide, HogSide, None)
      ensures (hogFeatures, hogImage) == vision.hog(pre.image)
      ensures !isNormalized
    {
      imagePath := path;
      pre := new ImagePreprocessing(loaded, color);
      new;
      PreprocessOutcome(loaded, color, vision);
      var resized := pre.Apply(Resize(HogSide), true, vision);
      var segmented := pre.Apply(Segment, true, vision);
      var gray := pre.Apply(ToGrayscale, true, vision);
      hogFeatures, hogImage := vision.hog(pre.image).0, vision.hog(pre.image).1;
      isNormalized := false;
    }

    /** `normalize_hog`: rescale the features and set the flag. */
    method NormalizeHog(vision: Vision)
      modifies this
      ensures hogFeatures == vision.rescaleIntensity(old(hogFeatures)) && isNormalized
      ensures hogImage == old(hogImage)
    {
      hogFeatures := vision.rescaleIntensity(hogFeatures);
      isNormalized := true;
    }

    /** The guard shared by `to_csv` and `extract_values`. */
    method NormalizeIfAsked(normalize: bool, vision: Vision)
      modifies this
      ensures (hogFeatures, isNormalized) == NormalizeGuard(old(hogFeatures), old(isNormalized), normalize, vision.rescaleIntensity)
      ensures hogImage == old(hogImage)
    {
      if normalize && !isNormalized {
        NormalizeHog(vision);
      }
    }

    /** `to_csv`: normalise unless already done, then build the labelled row
        for the split's CSV file. */
    method ToCsv(normalize: bool, venv: string, vision: Vision) returns (r: Result<CsvAppend>)
      modifies this
      ensures (hogFeatures, isNormalized) == NormalizeGuard(old(hogFeatures), old(isNormalized), normalize, vision.rescaleIntensity)
      ensures hogImage == old(hogImage)
      ensures r == HogCsv(imagePath, hogFeatures, venv)
    {
      NormalizeIfAsked(normalize, vision);
      r := HogCsv(imagePath, hogFeatures, venv);
    }

    /** `extract_values`: normalise unless already done, show the HOG
        visualisation as the instance's image (its `size` is left as it was)
        and return the features. */
    method ExtractValues(normalize: bool, vision: Vision) returns (values: seq<real>)
      modifies this, pre
      ensures (hogFeatures, isNormalized) == NormalizeGuard(old(hogFeatures), old(isNormalized), normalize, vision.rescaleIntensity)
      ensures hogImage == old(hogImage)
      ensures pre.image == hogImage
      ensures pre.size == old(pre.size) && pre.color == old(pre.color) && pre.originalImage == old(pre.originalImage)
      ensures values == hogFeatures
    {
      NormalizeIfAsked(normalize, vision);
      pre.image := hogImage;
      values := hogFeatures;
    }
  }

  /** `hog_transform(image_path, color)`: raises what the preprocessing chain
      raises. */
  method NewHogTransform(path: string, loaded: Image, color: string, vision: Vision)
    returns (r: Result<HogTransform>)
    ensures r.Err? <==> Preprocess(loaded, color, vision).Err?
    ensures r.Err? ==> r.error == Preprocess(loaded, color, vision).error
    ensures r.Ok? ==>
      && fresh(r.value) && fresh(r.value.pre) && r.value.imagePath == path && !r.value.isNormalized
      && r.value.pre.originalImage == loaded
      && (r.value.pre.image, r.value.pre.color) == Preprocess(loaded, color, vision).value
      && r.value.pre.size == Shape(HogSide, HogSide, None)
      && (r.value.hogFeatures, r.value.hogImage) == vision.hog(r.value.pre.image)
  {
    var chain := Preprocess(loaded, color, vision);
    if chain.Err? {
      return Err(chain.error);
    }
    var extractor := new HogTransform(path, loaded, color, vision);
    r := Ok(extractor);
  }
}
