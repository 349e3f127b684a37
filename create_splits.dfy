/**
 * create_splits.py: canonicalise the training table, split it into a small
 * labeled part and a large unlabeled part, write a path manifest for the
 * unlabeled part and `image, label, label_idx` tables for the labeled part
 * and for the validation table.
 */
module CreateSplits {
  import opened Schema
  import opened Canon
  import opened Manifest
  import opened Frames

  /** The script's own category list. */
  const LabelCols: seq<string> := ["MEL", "NV", "BCC", "AKIEC", "BKL", "DF", "VASC"]

  /** The image directory the unlabeled paths start with. */
  const TrainDir: string := "../data/isic2018/train"

  lemma LabelColsAreCategories()
    ensures LabelCols == Categories
  {
  }

  /** Example: the unlabeled path of image ISIC_0000001 under the script's directory. */
  lemma PathExample()
    ensures ImageFile(TrainDir + "/", "ISIC_0000001") == "../data/isic2018/train/ISIC_0000001.jpg"
  {
  }

  /** The splitter's result as row positions: together `lab` and `unl` list
      each of the `n` rows exactly once. */
  predicate IsPartition(lab: seq<nat>, unl: seq<nat>, n: nat) {
    && |lab| + |unl| == n
    && (forall k :: 0 <= k < |lab| ==> lab[k] < n)
    && (forall k :: 0 <= k < |unl| ==> unl[k] < n)
    && (forall k, m :: 0 <= k < m < |lab| ==> lab[k] != lab[m])
    && (forall k, m :: 0 <= k < m < |unl| ==> unl[k] != unl[m])
    && (forall k, m :: 0 <= k < |lab| && 0 <= m < |unl| ==> lab[k] != unl[m])
  }

  /** A one-hot table read into a frame that gains `label` and `label_idx`
      over `LabelCols`, as the script does for the training and the validation
      table alike. */
  method CanonicalFrame(rows: seq<OneHotRow>) returns (df: Frame)
    requires WellFormed(rows)
    ensures fresh(df) && df.Valid() && df.hasLabel && df.hasLabelIdx
    ensures |df.image| == |rows|
    ensures forall i :: 0 <= i < |rows| ==>
              && df.image[i] == rows[i].image && df.scores[i] == rows[i].scores
              && CanonRow(df.image[i], df.labelName[i], df.labelIdx[i]) == Canonicalise(rows[i])
  {
    df := new Frame.FromRows(rows);
    df.AssignLabel(LabelCols);
    df.AssignLabelIdx();
    forall i | 0 <= i < |rows| ensures df.labelName[i] == Categories[Argmax(rows[i].scores)] {
      IdxmaxAgreesWithArgmax(LabelCols, rows[i].scores);
    }
  }

  /** The manifests of the script. `lab` and `unl` are the row positions, in the
      splitter's output order, of the labeled and unlabeled parts of the
      training table. */
  method Run(train: seq<OneHotRow>, val: seq<OneHotRow>, lab: seq<nat>, unl: seq<nat>, trainDir: string)
    returns (unlabeledCsv: seq<FileRow>, labeledCsv: seq<CanonRow>, valCsv: seq<CanonRow>)
    requires WellFormed(train) && WellFormed(val)
    requires IsPartition(lab, unl, |train|)
    ensures |unlabeledCsv| + |labeledCsv| == |train|
    ensures |unlabeledCsv| == |unl|
    ensures forall k :: 0 <= k < |unl| ==> unlabeledCsv[k].file == ImageFile(trainDir + "/", train[unl[k]].image)
    ensures |labeledCsv| == |lab|
    ensures forall k :: 0 <= k < |lab| ==> labeledCsv[k] == Canonicalise(train[lab[k]])
    ensures |valCsv| == |val|
    ensures forall i :: 0 <= i < |val| ==> valCsv[i] == Canonicalise(val[i])
  {
    var dfTrain := CanonicalFrame(train);
    var dfLabeled := new Frame.Take(dfTrain, lab);
    var dfUnlabeled := new Frame.Take(dfTrain, unl);

    var paths := ImagePaths(trainDir + "/", dfUnlabeled.image);
    unlabeledCsv := SelectFile(paths);
    labeledCsv := SelectImageLabelIdx(dfLabeled.image, dfLabeled.labelName, dfLabeled.labelIdx);

    var dfVal := CanonicalFrame(val);
    valCsv := SelectImageLabelIdx(dfVal.image, dfVal.labelName, dfVal.labelIdx);
  }

  /** Each training row lands in exactly one of the two parts. */
  lemma PartitionCoversRows(lab: seq<nat>, unl: seq<nat>, n: nat, i: nat)
    requires IsPartition(lab, unl, n) && i < n
    ensures (i in lab) != (i in unl)
  {
    var all := lab + unl;
    forall k, m | 0 <= k < m < |all| ensures all[k] != all[m] {
      if m < |lab| {
      } else if k >= |lab| {
        assert all[k] == unl[k - |lab|] && all[m] == unl[m - |lab|];
      } else {
        assert all[m] == unl[m - |lab|];
      }
    }
    NoRoomForMissing(all, n, i);
  }

  /** `n` distinct values below `n` leave none out (pigeonhole). */
  lemma NoRoomForMissing(all: seq<nat>, n: nat, i: nat)
    requires |all| == n && i < n
    requires forall k :: 0 <= k < |all| ==> all[k] < n
    requires forall k, m :: 0 <= k < m < |all| ==> all[k] != all[m]
    ensures i in all
  {
    var s := set k | 0 <= k < |all| :: all[k];
    DistinctCard(all);
    if i !in all {
      CardBound(s + {i}, n);
    }
  }

  lemma {:induction false} DistinctCard(all: seq<nat>)
    requires forall k, m :: 0 <= k < m < |all| ==> all[k] != all[m]
    ensures |set k | 0 <= k < |all| :: all[k]| == |all|
  {
    if all != [] {
      var init := all[..|all| - 1];
      DistinctCard(init);
      var s := set k | 0 <= k < |all| :: all[k];
      var t := set k | 0 <= k < |init| :: init[k];
      assert s == t + {all[|all| - 1]};
      assert all[|all| - 1] !in t;
    }
  }

  /** A set of naturals below `n` has at most `n` members. */
  lemma {:induction false} CardBound(s: set<nat>, n: nat)
    requires forall x :: x in s ==> x < n
    ensures |s| <= n
  {
    if n > 0 {
      CardBound(s - {n - 1}, n - 1);
    }
  }
}
