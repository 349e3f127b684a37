/**
 * train_labels.py: the training table's one-hot labels become a category
 * name, each image id becomes a path, and two manifests are cut from the
 * frame: `file, label` and `file` alone.
 */
module TrainLabels {
  import opened Schema
  import opened Canon
  import opened Manifest
  import opened Frames

  /** The script's own category list. */
  const LabelCols: seq<string> := ["MEL", "NV", "BCC", "AKIEC", "BKL", "DF", "VASC"]

  /** The path prefix the script concatenates, trailing slash included. */
  const TrainPrefix: string := "data/isic2018/train/"

  lemma LabelColsAreCategories()
    ensures LabelCols == Categories
  {
  }

  /** Example: the path of image ISIC_0000001 under the script's prefix. */
  lemma PathExample()
    ensures ImageFile(TrainPrefix, "ISIC_0000001") == "data/isic2018/train/ISIC_0000001.jpg"
  {
  }

  /** The whole script on a table `rows` read from `train_labels.csv`: returns the
      rows of `train_labeled.csv` and of `train_unlabeled.csv`. */
  method Run(rows: seq<OneHotRow>, prefix: string) returns (labeled: seq<FileLabelRow>, unlabeled: seq<FileRow>)
    requires WellFormed(rows)
    ensures |labeled| == |rows| && |unlabeled| == |rows|
    ensures forall i :: 0 <= i < |rows| ==>
              labeled[i].file == ImageFile(prefix, rows[i].image) &&
              labeled[i].labelName == Canonicalise(rows[i]).labelName
    ensures forall i :: 0 <= i < |rows| ==> unlabeled[i].file == labeled[i].file
  {
    var df := new Frame.FromRows(rows);
    df.AssignLabel(LabelCols);
    df.AssignFile(prefix);
    labeled := SelectFileLabel(df.file, df.labelName);
    unlabeled := SelectFile(df.file);
    forall i | 0 <= i < |rows|
      ensures Idxmax(LabelCols, rows[i].scores) == Canonicalise(rows[i]).labelName
    {
      IdxmaxAgreesWithArgmax(LabelCols, rows[i].scores);
    }
  }
}
