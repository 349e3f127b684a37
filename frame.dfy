/**
 * pandas DataFrames as the scripts use them: a table read from a one-hot CSV
 * that gains `label`, `label_idx` and `file` columns by assignment in place,
 * and the two-column `image, label` frame that the validation pass of
 * create_idx_csv.py extends with a mapped `label_idx`.
 */
module Frames {
  import opened Wrappers
  import opened Schema
  import opened Canon
  import opened Manifest

  class Frame {
    var image: seq<string>
    /** The category columns of each row, in schema order (`df[label_cols].values`). */
    var scores: seq<seq<int>>
    var labelName: seq<string>
    var labelIdx: seq<int>
    var file: seq<string>
    /** Which of the derived columns have been assigned. */
    var hasLabel: bool
    var hasLabelIdx: bool
    var hasFile: bool

    /** Every present column has one entry per row. */
    ghost predicate Valid()
      reads this
    {
      && |scores| == |image|
      && (forall i :: 0 <= i < |scores| ==> |scores[i]| == |Categories|)
      && (hasLabel ==> |labelName| == |image|)
      && (hasLabelIdx ==> |labelIdx| == |image|)
      && (hasFile ==> |file| == |image|)
    }

    /** The frame `pd.read_csv` yields for a one-hot label table. */
    constructor FromRows(rows: seq<OneHotRow>)
      requires WellFormed(rows)
      ensures Valid()
      ensures |image| == |rows|
      ensures forall i :: 0 <= i < |rows| ==> image[i] == rows[i].image && scores[i] == rows[i].scores
      ensures !hasLabel && !hasLabelIdx && !hasFile
    {
      image := seq(|rows|, i requires 0 <= i < |rows| => rows[i].image);
      scores := seq(|rows|, i requires 0 <= i < |rows| => rows[i].scores);
      labelName, labelIdx, file := [], [], [];
      hasLabel, hasLabelIdx, hasFile := false, false, false;
    }

    /** The sub-frame of the rows at positions `ix`, in that order, with every
        column the source frame has (the frames a splitter returns). */
    constructor Take(src: Frame, ix: seq<nat>)
      requires src.Valid()
      requires forall k :: 0 <= k < |ix| ==> ix[k] < |src.image|
      ensures Valid()
      ensures |image| == |ix|
      ensures forall k :: 0 <= k < |ix| ==> image[k] == src.image[ix[k]] && scores[k] == src.scores[ix[k]]
      ensures hasLabel == src.hasLabel && hasLabelIdx == src.hasLabelIdx && hasFile == src.hasFile
      ensures hasLabel ==> forall k :: 0 <= k < |ix| ==> labelName[k] == src.labelName[ix[k]]
      ensures hasLabelIdx ==> forall k :: 0 <= k < |ix| ==> labelIdx[k] == src.labelIdx[ix[k]]
      ensures hasFile ==> forall k :: 0 <= k < |ix| ==> file[k] == src.file[ix[k]]
    {
      var srcImage, srcScores, srcLabel, srcIdx, srcFile :=
        src.image, src.scores, src.labelName, src.labelIdx, src.file;
      image := seq(|ix|, k requires 0 <= k < |ix| => srcImage[ix[k]]);
      scores := seq(|ix|, k requires 0 <= k < |ix| => srcScores[ix[k]]);
      labelName := if src.hasLabel then seq(|ix|, k requires 0 <= k < |ix| => srcLabel[ix[k]]) else [];
      labelIdx := if src.hasLabelIdx then seq(|ix|, k requires 0 <= k < |ix| => srcIdx[ix[k]]) else [];
      file := if src.hasFile then seq(|ix|, k requires 0 <= k < |ix| => srcFile[ix[k]]) else [];
      hasLabel, hasLabelIdx, hasFile := src.hasLabel, src.hasLabelIdx, src.hasFile;
    }

    /** `df['label'] = df[cols].idxmax(axis=1)` */
    method AssignLabel(cols: seq<string>)
      requires Valid() && cols == Categories
      modifies this`labelName, this`hasLabel
      ensures Valid() && hasLabel
      ensures forall i :: 0 <= i < |image| ==> labelName[i] == Idxmax(cols, scores[i])
    {
      var v := scores;
      labelName := seq(|v|, i requires 0 <= i < |v| => Idxmax(cols, v[i]));
      hasLabel := true;
    }

    /** `df['label_idx'] = df[cols].values.argmax(axis=1)` */
    method AssignLabelIdx()
      requires Valid()
      modifies this`labelIdx, this`hasLabelIdx
      ensures Valid() && hasLabelIdx
      ensures forall i :: 0 <= i < |image| ==> labelIdx[i] == Argmax(scores[i])
    {
      var v := scores;
      labelIdx := seq(|v|, i requires 0 <= i < |v| => Argmax(v[i]));
      hasLabelIdx := true;
    }

    /** `df['file'] = prefix + df['image'] + '.jpg'` */
    method AssignFile(prefix: string)
      requires Valid()
      modifies this`file, this`hasFile
      ensures Valid() && hasFile
      ensures file == ImagePaths(prefix, image)
    {
      file := ImagePaths(prefix, image);
      hasFile := true;
    }
  }

  /** A frame of the columns `image, label` and, once mapped, `label_idx`. */
  class NamedFrame {
    var image: seq<string>
    var labelName: seq<string>
    var labelIdx: seq<Option<int>>
    var hasLabelIdx: bool

    ghost predicate Valid()
      reads this
    {
      |labelName| == |image| && (hasLabelIdx ==> |labelIdx| == |image|)
    }

    /** `df[['image', 'label']]` of a frame that has a `label` column. */
    constructor Select(src: Frame)
      requires src.Valid() && src.hasLabel
      ensures Valid() && !hasLabelIdx
      ensures image == src.image && labelName == src.labelName
    {
      image, labelName := src.image, src.labelName;
      labelIdx, hasLabelIdx := [], false;
    }

    /** `df['label_idx'] = df['label'].map(d)`: a name missing from `d` gives NaN. */
    method MapLabelIdx(d: map<string, int>)
      requires Valid()
      modifies this`labelIdx, this`hasLabelIdx
      ensures Valid() && hasLabelIdx
      ensures forall i :: 0 <= i < |image| ==> labelIdx[i] == Lookup(d, labelName[i])
    {
      var names := labelName;
      labelIdx := seq(|names|, i requires 0 <= i < |names| => Lookup(d, names[i]));
      hasLabelIdx := true;
    }
  }
}
