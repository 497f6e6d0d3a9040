/**
 * What the two feature extractors share: the label and the split file taken
 * from the image path, the CSV path they append to, and the guard that
 * normalises the features at most once before they are serialised.
 */
module FeatureRows {
  import opened Wrappers
  import opened PyText
  import opened Values

  const PathSeparator := '\\'

  /** `image_path.split('\\')[-2]`: the class directory, used as the row label. */
  function LabelOf(path: string): (r: Result<string>)
    ensures r.Ok? <==> Occurrences(path, PathSeparator) >= 1
    ensures r.Err? ==> r.error == IndexError(ListIndexOutOfRange)
    ensures r.Ok? ==> PathSeparator !in r.value
  {
    SplitCount(path, PathSeparator);
    FromEnd(Split(path, PathSeparator), 2)
  }

  /** `image_path.split('\\')[-3]`: the split directory, which names the CSV file. */
  function SplitOf(path: string): (r: Result<string>)
    ensures r.Ok? <==> Occurrences(path, PathSeparator) >= 2
    ensures r.Err? ==> r.error == IndexError(ListIndexOutOfRange)
    ensures r.Ok? ==> PathSeparator !in r.value
  {
    SplitCount(path, PathSeparator);
    FromEnd(Split(path, PathSeparator), 3)
  }

  /** For an image stored as `<root>\<split>\<letter>\<file>`, the label is the
      letter directory and the CSV file is named after the split directory. */
  lemma {:induction false} DatasetPathComponents(root: string, split: string, letter: string, file: string)
    requires PathSeparator !in split && PathSeparator !in letter && PathSeparator !in file
    ensures var path := root + "\\" + split + "\\" + letter + "\\" + file;
      LabelOf(path) == Ok(letter) && SplitOf(path) == Ok(split)
  {
    var sep := PathSeparator;
    var path := root + "\\" + split + "\\" + letter + "\\" + file;
    var tail := letter + [sep] + file;
    var middle := split + [sep] + tail;
    assert path == root + [sep] + middle;
    SplitAround(root, sep, middle);
    SplitAround(split, sep, tail);
    SplitAround(letter, sep, file);
    SplitWithoutSeparator(split, sep);
    SplitWithoutSeparator(letter, sep);
    SplitWithoutSeparator(file, sep);
    var parts := Split(path, sep);
    assert parts == Split(root, sep) + [split, letter, file];
  }

  /** `venv + r'\<technique>-processing\processed_data\{}.csv'.format(split)`. */
  function CsvTarget(venv: string, technique: string, split: string): string
  {
    venv + "\\" + technique + "-processing\\processed_data\\" + split + ".csv"
  }

  /** `[Number(x) for x in values]`: the feature part of a CSV row. */
  function Numbers(values: seq<real>): (cells: seq<Cell>)
    ensures |cells| == |values|
    ensures forall i :: 0 <= i < |values| ==> cells[i] == Number(values[i])
  {
    seq(|values|, i requires 0 <= i < |values| => Number(values[i]))
  }

  // ---------------------------------------------------------------------
  // Normalise at most once

  /** The state after `if normalize == True and self.__is_normalized == False:
      normalize()` in `to_csv` and `extract_values`: the features and the
      normalised flag. */
  function NormalizeGuard<T>(features: T, normalized: bool, normalize: bool, scale: T -> T): (T, bool)
  {
    if normalize && !normalized then (scale(features), true) else (features, normalized)
  }

  /** The state after a series of serialisations, each with its own
      `normalize` argument. */
  function Serialisations<T>(features: T, normalized: bool, requests: seq<bool>, scale: T -> T): (T, bool)
    decreases |requests|
  {
    if requests == [] then (features, normalized)
    else
      var (f, n) := NormalizeGuard(features, normalized, requests[0], scale);
      Serialisations(f, n, requests[1..], scale)
  }

  /** However often an extractor is serialised, its features are scaled at most
      once: not at all when they were already normalised or no call asked for
      it, and exactly once otherwise. */
  lemma {:induction false} NormalizedAtMostOnce<T>(features: T, normalized: bool, requests: seq<bool>, scale: T -> T)
    ensures Serialisations(features, normalized, requests, scale) ==
      if !normalized && true in requests then (scale(features), true) else (features, normalized)
    decreases |requests|
  {
    if requests != [] {
      var (f, n) := NormalizeGuard(features, normalized, requests[0], scale);
      NormalizedAtMostOnce(f, n, requests[1..], scale);
      assert requests == [requests[0]] + requests[1..];
    }
  }
}
