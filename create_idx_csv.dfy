/**
 * create_idx_csv.py: `image, label, label_idx` tables for the train, val and
 * test label files. Train and test take the index from argmax; val takes the
 * name from idxmax, drops to `image, label`, and maps the name through the
 * literal dictionary `label2idx`.
 */
module CreateIdxCsv {
  import opened Wrappers
  import opened Schema
  import opened Canon
  import opened Manifest
  import opened Frames

  /** The category list of the train pass. */
  const LabelColumns: seq<string> := ["MEL", "NV", "BCC", "AKIEC", "BKL", "DF", "VASC"]
  /** The category list of the val pass. */
  const ValLabelCols: seq<string> := ["MEL", "NV", "BCC", "AKIEC", "BKL", "DF", "VASC"]
  /** The category list of the test pass. */
  const TestLabelCols: seq<string> := ["MEL", "NV", "BCC", "AKIEC", "BKL", "DF", "VASC"]

  /** The three literal lists are one schema, so an index means the same
      category in all three outputs. */
  lemma SchemaListsIdentical()
    ensures LabelColumns == ValLabelCols == TestLabelCols == Categories
  {
  }

  /** The train pass: `label_idx` by argmax, then `label` by idxmax, then the
      projection to `image, label, label_idx`. */
  method TrainIdx(rows: seq<OneHotRow>) returns (out: seq<CanonRow>)
    requires WellFormed(rows)
    ensures |out| == |rows|
    ensures forall i :: 0 <= i < |rows| ==> out[i] == Canonicalise(rows[i])
  {
    var df := new Frame.FromRows(rows);
    df.AssignLabelIdx();
    df.AssignLabel(LabelColumns);
    out := SelectImageLabelIdx(df.image, df.labelName, df.labelIdx);
    forall i | 0 <= i < |rows| ensures out[i] == Canonicalise(rows[i]) {
      IdxmaxAgreesWithArgmax(LabelColumns, rows[i].scores);
    }
  }

  /** The val pass: `label` by idxmax and the projection to `image, label`,
      written once (`first`); then `label_idx` through `label2idx`, and the
      three columns written over the same file (`out`). No index is NaN, each
      equals the argmax of its row, and the rewrite keeps the first write's
      rows. */
  method ValIdx(rows: seq<OneHotRow>) returns (first: seq<NamedRow>, out: seq<MappedRow>)
    requires WellFormed(rows)
    ensures |first| == |rows| && |out| == |rows|
    ensures forall i :: 0 <= i < |rows| ==> first[i] == NamedRow(rows[i].image, Canonicalise(rows[i]).labelName)
    ensures forall i :: 0 <= i < |rows| ==>
              var c := Canonicalise(rows[i]);
              out[i] == MappedRow(c.image, c.labelName, Some(c.labelIdx))
    ensures forall i :: 0 <= i < |rows| ==> out[i].image == first[i].image && out[i].labelName == first[i].labelName
  {
    var df := new Frame.FromRows(rows);
    df.AssignLabel(ValLabelCols);
    var named := new NamedFrame.Select(df);
    first := SelectImageLabel(named.image, named.labelName);
    named.MapLabelIdx(Label2Idx);
    out := SelectMapped(named.image, named.labelName, named.labelIdx);
    forall i | 0 <= i < |rows|
      ensures named.labelName[i] == Canonicalise(rows[i]).labelName
      ensures named.labelIdx[i] == Some(Canonicalise(rows[i]).labelIdx)
    {
      IdxmaxAgreesWithArgmax(ValLabelCols, rows[i].scores);
      LabelLookupIsArgmax(rows[i].scores);
    }
  }

  /** The test pass: `label` by idxmax, `label_idx` by argmax, projection. */
  method TestIdx(rows: seq<OneHotRow>) returns (out: seq<CanonRow>)
    requires WellFormed(rows)
    ensures |out| == |rows|
    ensures forall i :: 0 <= i < |rows| ==> out[i] == Canonicalise(rows[i])
  {
    var df := new Frame.FromRows(rows);
    df.AssignLabel(TestLabelCols);
    df.AssignLabelIdx();
    out := SelectImageLabelIdx(df.image, df.labelName, df.labelIdx);
    forall i | 0 <= i < |rows| ensures out[i] == Canonicalise(rows[i]) {
      IdxmaxAgreesWithArgmax(TestLabelCols, rows[i].scores);
    }
  }

  /** The whole script: the rows of `train_labeled_idx.csv`, of the final
      `val_idx.csv` and of `test_idx.csv`. */
  method Run(train: seq<OneHotRow>, val: seq<OneHotRow>, test: seq<OneHotRow>)
    returns (trainCsv: seq<CanonRow>, valCsv: seq<MappedRow>, testCsv: seq<CanonRow>)
    requires WellFormed(train) && WellFormed(val) && WellFormed(test)
    ensures |trainCsv| == |train| && |valCsv| == |val| && |testCsv| == |test|
    ensures forall i :: 0 <= i < |train| ==> trainCsv[i] == Canonicalise(train[i])
    ensures forall i :: 0 <= i < |test| ==> testCsv[i] == Canonicalise(test[i])
    ensures forall i :: 0 <= i < |val| ==>
              && valCsv[i].labelIdx.Some?
              && CanonRow(valCsv[i].image, valCsv[i].labelName, valCsv[i].labelIdx.value) == Canonicalise(val[i])
  {
    trainCsv := TrainIdx(train);
    var valFirst;
    valFirst, valCsv := ValIdx(val);
    testCsv := TestIdx(test);
  }
}
