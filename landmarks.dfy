/**
 * `select_lists` and `mediapipe_landmarks`: choosing the detector result that
 * found a hand, turning its landmarks into pixel coordinates (or 21 zero rows
 * when there is none), and the labelled 44-column CSV row.
 */
module Landmarks {
  import opened Wrappers
  import opened PyText
  import opened Values
  import opened Foreign
  import opened Imaging
  import opened FeatureRows

  // ---------------------------------------------------------------------
  // select_lists

  /** `isinstance(result.multi_hand_landmarks, list)` */
  predicate HasLandmarks(result: DetectorResult) { result.multiHandLandmarks.Some? }

  /** `[lst for lst in args if isinstance(lst.multi_hand_landmarks, list)]` */
  function WithLandmarks(args: seq<DetectorResult>): (valid: seq<DetectorResult>)
    ensures forall i :: 0 <= i < |valid| ==> HasLandmarks(valid[i])
    ensures valid == [] <==> forall i :: 0 <= i < |args| ==> !HasLandmarks(args[i])
    decreases |args|
  {
    if args == [] then []
    else if HasLandmarks(args[0]) then [args[0]] + WithLandmarks(args[1..])
    else WithLandmarks(args[1..])
  }

  /** `select_lists(*args)`: the first argument that holds a list of hands, if any. */
  function SelectLists(args: seq<DetectorResult>): (r: Option<DetectorResult>)
    ensures r.None? <==> forall i :: 0 <= i < |args| ==> !HasLandmarks(args[i])
    ensures r.Some? ==> HasLandmarks(r.value)
  {
    var valid := WithLandmarks(args);
    if valid != [] then Some(valid[0]) else None
  }

  /** The result `select_lists` picks is the first in argument order that has
      landmarks. */
  lemma {:induction false} SelectListsPicksFirst(args: seq<DetectorResult>, k: nat)
    requires k < |args| && HasLandmarks(args[k])
    requires forall j :: 0 <= j < k ==> !HasLandmarks(args[j])
    ensures SelectLists(args) == Some(args[k])
    decreases k
  {
    if k > 0 {
      SelectListsPicksFirst(args[1..], k - 1);
    }
  }

  // ---------------------------------------------------------------------
  // Landmark coordinates

  /** Python's `int()` on a float: truncation toward zero. */
  function Trunc(r: real): (t: int)
    ensures r >= 0.0 ==> 0 <= t && t as real <= r < t as real + 1.0
    ensures r < 0.0 ==> t <= 0 && t as real - 1.0 < r <= t as real
  {
    if r >= 0.0 then r.Floor else -((-r).Floor)
  }

  /** `(int(landmark.x * w), int(landmark.y * h))` as a row of the float matrix. */
  function PixelPoint(landmark: Landmark, width: nat, height: nat): Point
  {
    Point(Trunc(landmark.x * width as real) as real, Trunc(landmark.y * height as real) as real)
  }

  function HandPoints(hand: Hand, width: nat, height: nat): (points: seq<Point>)
    ensures |points| == |hand|
    ensures forall i :: 0 <= i < |hand| ==> points[i] == PixelPoint(hand[i], width, height)
  {
    seq(|hand|, i requires 0 <= i < |hand| => PixelPoint(hand[i], width, height))
  }

  /** The coordinate rows the extraction loop stacks: one per landmark, hand
      after hand, each in detector order. */
  function CoordinateRows(hands: seq<Hand>, width: nat, height: nat): seq<Point>
    decreases |hands|
  {
    if hands == [] then []
    else CoordinateRows(hands[..|hands| - 1], width, height) + HandPoints(hands[|hands| - 1], width, height)
  }

  /** With a single hand (MediaPipe is asked for at most one) row `i` is
      landmark `i` in pixels. */
  lemma OneHandRows(hand: Hand, width: nat, height: nat)
    ensures var rows := CoordinateRows([hand], width, height);
      |rows| == |hand| && forall i :: 0 <= i < |hand| ==> rows[i] == PixelPoint(hand[i], width, height)
  {
    assert [hand][..0] == [];
  }

  /** The nested loop of `mediapipe_landmarks.__init__` that grows `coords`
      with `np.vstack`, one row per landmark. */
  method CollectCoordinates(hands: seq<Hand>, width: nat, height: nat) returns (coords: seq<Point>)
    ensures coords == CoordinateRows(hands, width, height)
  {
    coords := [];
    var k := 0;
    while k < |hands|
      invariant 0 <= k <= |hands|
      invariant coords == CoordinateRows(hands[..k], width, height)
    {
      var hand := hands[k];
      var i := 0;
      while i < |hand|
        invariant 0 <= i <= |hand|
        invariant coords == CoordinateRows(hands[..k], width, height) + HandPoints(hand[..i], width, height)
      {
        coords := coords + [PixelPoint(hand[i], width, height)];
        i := i + 1;
        assert HandPoints(hand[..i], width, height) == HandPoints(hand[..i - 1], width, height) + [PixelPoint(hand[i - 1], width, height)];
      }
      assert hand[..i] == hand;
      assert hands[..k + 1][..k] == hands[..k];
      k := k + 1;
    }
    assert hands[..k] == hands;
  }

  /** `np.zeros((21, 2))`, recorded when no hand is detected. */
  const LandmarkCount := 21

  function NoHandCoordinates(): (coords: seq<Point>)
    ensures |coords| == LandmarkCount
    ensures forall i :: 0 <= i < |coords| ==> coords[i] == Point(0.0, 0.0)
  {
    seq(LandmarkCount, _ => Point(0.0, 0.0))
  }

  /** `coords.flatten().tolist()`: row-major, `x` before `y`. */
  function Flatten(coords: seq<Point>): (values: seq<real>)
    ensures |values| == 2 * |coords|
    ensures forall i :: 0 <= i < |coords| ==> values[2 * i] == coords[i].x && values[2 * i + 1] == coords[i].y
    decreases |coords|
  {
    if coords == [] then [] else [coords[0].x, coords[0].y] + Flatten(coords[1..])
  }

  /** Flattening rows of zeros gives twice as many zeros. */
  lemma {:induction false} FlattenZeros(coords: seq<Point>)
    requires forall i :: 0 <= i < |coords| ==> coords[i] == Point(0.0, 0.0)
    ensures Flatten(coords) == seq(2 * |coords|, _ => 0.0)
    decreases |coords|
  {
    if coords != [] {
      FlattenZeros(coords[1..]);
    }
  }

  /** With no hand detected the flattened coordinates are 42 zeros. */
  lemma NoHandValues()
    ensures Flatten(NoHandCoordinates()) == seq(2 * LandmarkCount, _ => 0.0)
  {
    FlattenZeros(NoHandCoordinates());
  }

  /** `draw_landmarks(self.image, hand_landmarks, ...)` for each hand, in place. */
  function DrawHands(image: Image, hands: seq<Hand>): (drawn: Image)
    ensures drawn.shape == image.shape && drawn.origin == image.origin
  {
    image.(history := image.history + seq(|hands|, i requires 0 <= i < |hands| => LandmarksDrawn(hands[i])))
  }

  /** The detector results the constructor compares: first the view made by
      `to_rgb(to_self=False)` of the instance already converted by
      `to_rgb(to_self=True)` (so channels swapped twice), then the image as
      loaded. */
  function Detect(loaded: Image, vision: Vision): Option<DetectorResult>
    requires ColorImage(loaded.shape)
  {
    var rgbView := SwapToRgb(SwapToRgb(loaded));
    SelectLists([vision.detectHands(rgbView), vision.detectHands(loaded)])
  }

  // ---------------------------------------------------------------------
  // Header and row

  /** `x_0, y_0, ..., x_{n-1}, y_{n-1}` */
  function CoordinateColumns(n: nat): (columns: seq<string>)
    ensures |columns| == 2 * n
    decreases n
  {
    if n == 0 then [] else CoordinateColumns(n - 1) + ["x_" + NatToString(n - 1), "y_" + NatToString(n - 1)]
  }

  /** `letra`, the coordinate columns for `n` landmarks, `origen`. */
  function Header(n: nat): seq<string>
  {
    ["letra"] + CoordinateColumns(n) + ["origen"]
  }

  /** The landmark CSV header, for the 21 landmarks of a hand. */
  function LandmarkHeader(): seq<string>
  {
    Header(LandmarkCount)
  }

  /** The coordinate columns come in pairs, `x_i` then `y_i`, for each landmark. */
  lemma {:induction false} CoordinateColumnsAt(n: nat)
    ensures forall i :: 0 <= i < n ==>
      CoordinateColumns(n)[2 * i] == "x_" + NatToString(i) && CoordinateColumns(n)[2 * i + 1] == "y_" + NatToString(i)
    decreases n
  {
    if n > 0 {
      CoordinateColumnsAt(n - 1);
      var previous, columns := CoordinateColumns(n - 1), CoordinateColumns(n);
      forall i | 0 <= i < n
        ensures columns[2 * i] == "x_" + NatToString(i) && columns[2 * i + 1] == "y_" + NatToString(i)
      {
        if i < n - 1 {
          assert columns[2 * i] == previous[2 * i] && columns[2 * i + 1] == previous[2 * i + 1];
        }
      }
    }
  }

  /** Every coordinate column is an `x_` or `y_` prefix followed by the
      landmark index: column `k` belongs to landmark `k / 2`. */
  lemma CoordinateColumn(n: nat, k: nat)
    requires k < 2 * n
    ensures CoordinateColumns(n)[k] == (if k % 2 == 0 then "x_" else "y_") + NatToString(k / 2)
  {
    CoordinateColumnsAt(n);
    var i := k / 2;
    assert k == 2 * i || k == 2 * i + 1;
  }

  lemma HeaderColumns(n: nat)
    ensures |Header(n)| == 2 * n + 2
    ensures Header(n)[0] == "letra" && Header(n)[2 * n + 1] == "origen"
    ensures forall i :: 0 <= i < n ==>
      Header(n)[1 + 2 * i] == "x_" + NatToString(i) && Header(n)[2 + 2 * i] == "y_" + NatToString(i)
  {
    CoordinateColumnsAt(n);
    var columns := CoordinateColumns(n);
    assert forall k :: 0 <= k < 2 * n ==> Header(n)[1 + k] == columns[k];
  }

  /** Two coordinate columns with the same name are the same column. */
  lemma CoordinateColumnsDistinct(n: nat, j: nat, k: nat)
    requires j < k < 2 * n
    ensures CoordinateColumns(n)[j] != CoordinateColumns(n)[k]
  {
    CoordinateColumn(n, j);
    CoordinateColumn(n, k);
    var a, b := CoordinateColumns(n)[j], CoordinateColumns(n)[k];
    if a == b {
      assert a[0] == b[0];
      var p := if j % 2 == 0 then "x_" else "y_";
      assert k % 2 == j % 2;
      PrefixedEqual(p, NatToString(j / 2), NatToString(k / 2));
      NatToStringInjective(j / 2, k / 2);
    }
  }

  /** Only the first header column starts with `l` and only the last with `o`. */
  lemma HeaderInitial(n: nat, k: nat)
    requires k < 2 * n + 2
    ensures |Header(n)[k]| >= 1
    ensures Header(n)[k][0] == 'l' <==> k == 0
    ensures Header(n)[k][0] == 'o' <==> k == 2 * n + 1
  {
    if 1 <= k <= 2 * n {
      assert Header(n)[k] == CoordinateColumns(n)[k - 1];
      CoordinateColumn(n, k - 1);
    }
  }

  lemma HeaderDistinct(n: nat)
    ensures forall j, k :: 0 <= j < k < |Header(n)| ==> Header(n)[j] != Header(n)[k]
  {
    var header := Header(n);
    forall j, k | 0 <= j < k < |header|
      ensures header[j] != header[k]
    {
      HeaderInitial(n, j);
      HeaderInitial(n, k);
      if j != 0 && k != 2 * n + 1 {
        assert header[j] == CoordinateColumns(n)[j - 1] && header[k] == CoordinateColumns(n)[k - 1];
        CoordinateColumnsDistinct(n, j - 1, k - 1);
      }
    }
  }

  /** The landmark header has 44 columns, all different: `letra`, `x_i` and
      `y_i` for `i` in 0..20, `origen`. */
  lemma LandmarkHeaderColumns()
    ensures |LandmarkHeader()| == 2 * LandmarkCount + 2 == 44
    ensures LandmarkHeader()[0] == "letra" && LandmarkHeader()[43] == "origen"
    ensures forall i :: 0 <= i < LandmarkCount ==>
      LandmarkHeader()[1 + 2 * i] == "x_" + NatToString(i) && LandmarkHeader()[2 + 2 * i] == "y_" + NatToString(i)
    ensures forall j, k :: 0 <= j < k < 44 ==> LandmarkHeader()[j] != LandmarkHeader()[k]
  {
    HeaderColumns(LandmarkCount);
    HeaderDistinct(LandmarkCount);
  }

  /** The header loop of `to_csv`, which extends a list column pair by column pair. */
  method BuildLandmarkHeader() returns (columns: seq<string>)
    ensures columns == LandmarkHeader()
  {
    columns := ["letra"];
    var i := 0;
    while i < LandmarkCount
      invariant 0 <= i <= LandmarkCount
      invariant columns == ["letra"] + CoordinateColumns(i)
    {
      columns := columns + ["x_" + NatToString(i), "y_" + NatToString(i)];
      i := i + 1;
    }
    columns := columns + ["origen"];
  }

  /** `[label] + coords.flatten().tolist() + [image_path]` */
  function LandmarkRow(rowLabel: string, coords: seq<Point>, path: string): (row: seq<Cell>)
    ensures |row| == 2 * |coords| + 2
    ensures row[0] == Text(rowLabel) && row[|row| - 1] == Text(path)
    ensures forall i :: 0 <= i < |coords| ==>
      row[1 + 2 * i] == Number(coords[i].x) && row[2 + 2 * i] == Number(coords[i].y)
  {
    [Text(rowLabel)] + Numbers(Flatten(coords)) + [Text(path)]
  }

  /** What `mediapipe_landmarks.to_csv` hands to `DataFrame.to_csv`, or the
      exception it raises on the way: an IndexError when the path has fewer
      than three components, a ValueError from pandas when the row does not
      have one cell per header column. */
  function LandmarkCsv(path: string, coords: seq<Point>, venv: string): Result<CsvAppend>
  {
    var rowLabel :- LabelOf(path);
    var row := LandmarkRow(rowLabel, coords, path);
    var header := LandmarkHeader();
    var split :- SplitOf(path);
    if |row| != |header| then
      Err(ValueError(NatToString(|header|) + " columns passed, passed data had " + NatToString(|row|) + " columns"))
    else
      Ok(CsvAppend(CsvTarget(venv, "graph", split), header, row))
  }

  /** The landmark row fits the 44-column header exactly when there are 21
      coordinate rows; then the row is the label, the coordinates in order and
      the path, and it goes to `graph-processing\processed_data\<split>.csv`. */
  lemma LandmarkCsvShape(path: string, coords: seq<Point>, venv: string)
    ensures LandmarkCsv(path, coords, venv).Ok? <==> SplitOf(path).Ok? && |coords| == LandmarkCount
    ensures LandmarkCsv(path, coords, venv).Ok? ==>
      var append := LandmarkCsv(path, coords, venv).value;
      && append.target == CsvTarget(venv, "graph", SplitOf(path).value)
      && append.header == LandmarkHeader()
      && append.row == LandmarkRow(LabelOf(path).value, coords, path)
      && |append.row| == |append.header| == 44
  {
    HeaderColumns(LandmarkCount);
    var r := LandmarkCsv(path, coords, venv);
    if SplitOf(path).Err? {
      assert r.Err?;
    } else {
      var row := LandmarkRow(LabelOf(path).value, coords, path);
      if |coords| != LandmarkCount {
        assert |row| != |LandmarkHeader()|;
        assert r.Err?;
      } else {
        assert r == Ok(CsvAppend(CsvTarget(venv, "graph", SplitOf(path).value), LandmarkHeader(), row));
      }
    }
  }

  // ---------------------------------------------------------------------
  // The extractor

  class MediapipeLandmarks {
    const imagePath: string
    const letter: string
    /** The `image_preprocessing` part of the instance. */
    const pre: ImagePreprocessing
    var results: bool
    var coords: seq<Point>
    var isNormalized: bool

    ghost predicate Valid()
      reads this
    {
      LabelOf(imagePath) == Ok(letter)
    }

    /** `mediapipe_landmarks.__init__` once the label has been read from the path. */
    constructor (path: string, loaded: Image, color: string, vision: Vision)
      requires LabelOf(path).Ok?
      requires ColorImage(loaded.shape)
      ensures Valid() && imagePath == path && fresh(pre)
      ensures pre.originalImage == loaded && pre.color == "rgb" && pre.size == SwapToRgb(loaded).shape
      ensures var rgb := SwapToRgb(loaded);
        match Detect(loaded, vision)
        case None =>
          !results && coords == NoHandCoordinates() && pre.image == rgb
        case Some(found) =>
          var hands := found.multiHandLandmarks.value;
          && results
          && coords == CoordinateRows(hands, loaded.shape.width, loaded.shape.height)
          && pre.image == DrawHands(rgb, hands)
      ensures !isNormalized
    {
      imagePath := path;
      letter := LabelOf(path).value;
      pre := new ImagePreprocessing(loaded, color);
      new;
      var converted := pre.Apply(ToRgb, true, vision);
      var rgbView := pre.Apply(ToRgb, false, vision);
      var detected := SelectLists([vision.detectHands(rgbView.value.image), vision.detectHands(pre.originalImage)]);
      if detected.Some? {
        results := true;
        var hands := detected.value.multiHandLandmarks.value;
        coords := CollectCoordinates(hands, pre.image.shape.width, pre.image.shape.height);
        pre.image := DrawHands(pre.image, hands);
      } else {
        results := false;
        coords := NoHandCoordinates();
      }
      isNormalized := false;
    }

    /** `normalize_coords`: min-max scale the coordinates and set the flag. */
    method NormalizeCoords(vision: Vision)
      modifies this
      ensures coords == vision.minMaxScale(old(coords)) && isNormalized
      ensures results == old(results)
    {
      isNormalized := true;
      coords := vision.minMaxScale(coords);
    }

    /** The guard shared by `to_csv` and `extract_values`. */
    method NormalizeIfAsked(normalize: bool, vision: Vision)
      modifies this
      ensures (coords, isNormalized) == NormalizeGuard(old(coords), old(isNormalized), normalize, vision.minMaxScale)
      ensures results == old(results)
    {
      if normalize && !isNormalized {
        NormalizeCoords(vision);
      }
    }

    /** `to_csv`: normalise unless already done, then build the labelled row
        for the split's CSV file. */
    method ToCsv(normalize: bool, venv: string, vision: Vision) returns (r: Result<CsvAppend>)
      requires Valid()
      modifies this
      ensures (coords, isNormalized) == NormalizeGuard(old(coords), old(isNormalized), normalize, vision.minMaxScale)
      ensures results == old(results)
      ensures r == LandmarkCsv(imagePath, coords, venv)
      ensures r.Ok? ==> r.value.row[0] == Text(letter)
    {
      NormalizeIfAsked(normalize, vision);
      var rowLabel := LabelOf(imagePath).value;
      var row := LandmarkRow(rowLabel, coords, imagePath);
      var columns := BuildLandmarkHeader();
      var split := SplitOf(imagePath);
      if split.Err? {
        return Err(split.error);
      }
      if |row| != |columns| {
        return Err(ValueError(NatToString(|columns|) + " columns passed, passed data had " + NatToString(|row|) + " columns"));
      }
      r := Ok(CsvAppend(CsvTarget(venv, "graph", split.value), columns, row));
    }

    /** `extract_values`: normalise unless already done, then the flattened coordinates. */
    method ExtractValues(normalize: bool, vision: Vision) returns (values: seq<real>)
      modifies this
      ensures (coords, isNormalized) == NormalizeGuard(old(coords), old(isNormalized), normalize, vision.minMaxScale)
      ensures results == old(results)
      ensures values == Flatten(coords)
    {
      NormalizeIfAsked(normalize, vision);
      values := Flatten(coords);
    }
  }

  /** `mediapipe_landmarks(image_path, color)`: an IndexError when the path has
      no directory component to take the label from, and then OpenCV's error
      when the image cannot be converted from BGR. */
  method NewMediapipeLandmarks(path: string, loaded: Image, color: string, vision: Vision)
    returns (r: Result<MediapipeLandmarks>)
    ensures r.Err? <==> Occurrences(path, PathSeparator) == 0 || !ColorImage(loaded.shape)
    ensures Occurrences(path, PathSeparator) == 0 ==> r == Err(IndexError(ListIndexOutOfRange))
    ensures Occurrences(path, PathSeparator) >= 1 && !ColorImage(loaded.shape) ==> r == Err(OpenCvError("cvtColor"))
    ensures r.Ok? ==>
      && fresh(r.value) && fresh(r.value.pre) && r.value.Valid() && r.value.imagePath == path && !r.value.isNormalized
      && r.value.pre.originalImage == loaded && r.value.pre.color == "rgb" && r.value.pre.size == SwapToRgb(loaded).shape
      && var rgb := SwapToRgb(loaded);
        match Detect(loaded, vision)
        case None =>
          !r.value.results && r.value.coords == NoHandCoordinates() && r.value.pre.image == rgb
        case Some(found) =>
          var hands := found.multiHandLandmarks.value;
          && r.value.results
          && r.value.coords == CoordinateRows(hands, loaded.shape.width, loaded.shape.height)
          && r.value.pre.image == DrawHands(rgb, hands)
  {
    var rowLabel := LabelOf(path);
    if rowLabel.Err? {
      return Err(rowLabel.error);
    }
    if !ColorImage(loaded.shape) {
      return Err(OpenCvError("cvtColor"));
    }
    var extractor := new MediapipeLandmarks(path, loaded, color, vision);
    r := Ok(extractor);
  }
}
