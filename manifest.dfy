/**
 * The manifest builder: image paths built from image ids, and the column
 * projections (`df[[...]]`) that produce the rows of each output CSV.
 */
module Manifest {
  import opened Wrappers
  import opened Schema
  import opened Canon

  /** A row of `train_labeled.csv`: columns `file, label`. */
  datatype FileLabelRow = FileLabelRow(file: string, labelName: string)

  /** A row of `train_unlabeled.csv`: the single column `file`. */
  datatype FileRow = FileRow(file: string)

  /** A row of a two-column `image, label` frame. */
  datatype NamedRow = NamedRow(image: string, labelName: string)

  /** A row of `image, label, label_idx` whose index came through `Series.map`
      and so may be NaN (`None`). */
  datatype MappedRow = MappedRow(image: string, labelName: string, labelIdx: Option<int>)

  const Extension: string := ".jpg"

  /** The image path of an id: the configured prefix, the id, then `.jpg`.
      The id can be read back from between the prefix and the extension. */
  function ImageFile(prefix: string, id: string): (path: string)
    ensures |path| == |prefix| + |id| + |Extension|
    ensures path[..|prefix|] == prefix
    ensures path[|prefix|..|prefix| + |id|] == id
    ensures path[|prefix| + |id|..] == Extension
  {
    prefix + id + Extension
  }

  /** Distinct image ids give distinct paths under one prefix. */
  lemma ImageFileInjective(prefix: string, a: string, b: string)
    ensures ImageFile(prefix, a) == ImageFile(prefix, b) <==> a == b
  {
  }

  /** The path list comprehension: one path per id, in id order. */
  function ImagePaths(prefix: string, ids: seq<string>): (paths: seq<string>)
    ensures |paths| == |ids|
    ensures forall k :: 0 <= k < |ids| ==> paths[k] == ImageFile(prefix, ids[k])
  {
    if ids == [] then [] else [ImageFile(prefix, ids[0])] + ImagePaths(prefix, ids[1..])
  }

  /** A manifest of distinct ids has distinct paths, and conversely. */
  lemma ImagePathsDistinct(prefix: string, ids: seq<string>)
    ensures Distinct(ImagePaths(prefix, ids)) <==> Distinct(ids)
  {
  }

  /** `df[['image', 'label', 'label_idx']]`: same rows, same order. */
  function SelectImageLabelIdx(image: seq<string>, names: seq<string>, idx: seq<int>): (rows: seq<CanonRow>)
    requires |names| == |image| && |idx| == |image|
    ensures |rows| == |image|
    ensures forall k :: 0 <= k < |rows| ==> rows[k] == CanonRow(image[k], names[k], idx[k])
  {
    if image == [] then []
    else [CanonRow(image[0], names[0], idx[0])] + SelectImageLabelIdx(image[1..], names[1..], idx[1..])
  }

  /** `df[['file', 'label']]`: same rows, same order. */
  function SelectFileLabel(file: seq<string>, names: seq<string>): (rows: seq<FileLabelRow>)
    requires |names| == |file|
    ensures |rows| == |file|
    ensures forall k :: 0 <= k < |rows| ==> rows[k] == FileLabelRow(file[k], names[k])
  {
    if file == [] then [] else [FileLabelRow(file[0], names[0])] + SelectFileLabel(file[1..], names[1..])
  }

  /** `df[['file']]`, or a one-column frame built from a path list. */
  function SelectFile(file: seq<string>): (rows: seq<FileRow>)
    ensures |rows| == |file|
    ensures forall k :: 0 <= k < |rows| ==> rows[k].file == file[k]
  {
    if file == [] then [] else [FileRow(file[0])] + SelectFile(file[1..])
  }

  /** `df[['image', 'label']]`: same rows, same order. */
  function SelectImageLabel(image: seq<string>, names: seq<string>): (rows: seq<NamedRow>)
    requires |names| == |image|
    ensures |rows| == |image|
    ensures forall k :: 0 <= k < |rows| ==> rows[k] == NamedRow(image[k], names[k])
  {
    if image == [] then [] else [NamedRow(image[0], names[0])] + SelectImageLabel(image[1..], names[1..])
  }

  /** The three columns of a frame whose `label_idx` was produced by `Series.map`. */
  function SelectMapped(image: seq<string>, names: seq<string>, idx: seq<Option<int>>): (rows: seq<MappedRow>)
    requires |names| == |image| && |idx| == |image|
    ensures |rows| == |image|
    ensures forall k :: 0 <= k < |rows| ==> rows[k] == MappedRow(image[k], names[k], idx[k])
  {
    if image == [] then []
    else [MappedRow(image[0], names[0], idx[0])] + SelectMapped(image[1..], names[1..], idx[1..])
  }
}
