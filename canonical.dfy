/**
 * The label canonicaliser: a one-hot row over the schema's columns becomes a
 * category name (pandas `idxmax(axis=1)`) and an index (numpy `argmax(axis=1)`).
 */
module Canon {
  import opened Wrappers
  import opened Schema

  /** A row of the one-hot label table: the image id and the values of the
      category columns, in schema order. */
  datatype OneHotRow = OneHotRow(image: string, scores: seq<int>)

  /** A row of the `image, label, label_idx` output tables. */
  datatype CanonRow = CanonRow(image: string, labelName: string, labelIdx: int)

  /** Every row carries one value per category column. */
  predicate WellFormed(rows: seq<OneHotRow>) {
    forall i :: 0 <= i < |rows| ==> |rows[i].scores| == |Categories|
  }

  /** numpy `argmax` of one row: scanning left to right, the running best
      position moves only to a strictly larger value, so the result is the
      first position holding the maximum. */
  function Argmax(v: seq<int>): (k: nat)
    requires |v| > 0
    ensures k < |v|
    ensures forall j :: 0 <= j < |v| ==> v[j] <= v[k]
    ensures forall j :: 0 <= j < k ==> v[j] < v[k]
  {
    if |v| == 1 then 0
    else
      var k := Argmax(v[..|v| - 1]);
      if v[k] < v[|v| - 1] then |v| - 1 else k
  }

  /** pandas `idxmax` of one row, on labelled cells: scanning the (name, value)
      cells left to right, keep the best cell seen and replace it only by a
      strictly larger value. The result is that cell's name and value. */
  function MaxEntry(cols: seq<string>, v: seq<int>): (best: (string, int))
    requires |cols| == |v| > 0
    ensures exists j :: 0 <= j < |v| && best == (cols[j], v[j])
    ensures forall j :: 0 <= j < |v| ==> v[j] <= best.1
  {
    if |v| == 1 then (cols[0], v[0])
    else
      var best := MaxEntry(cols[..|v| - 1], v[..|v| - 1]);
      if best.1 < v[|v| - 1] then (cols[|v| - 1], v[|v| - 1]) else best
  }

  /** The column name `idxmax(axis=1)` gives a row. */
  function Idxmax(cols: seq<string>, v: seq<int>): (name: string)
    requires |cols| == |v| > 0
    ensures name in cols
  {
    MaxEntry(cols, v).0
  }

  /** The labelled reduction stops on the same cell as argmax. */
  lemma {:induction false} MaxEntryAtArgmax(cols: seq<string>, v: seq<int>)
    requires |cols| == |v| > 0
    ensures MaxEntry(cols, v) == (cols[Argmax(v)], v[Argmax(v)])
  {
    if |v| > 1 {
      MaxEntryAtArgmax(cols[..|v| - 1], v[..|v| - 1]);
    }
  }

  /** `label` and `label_idx` agree: the name idxmax picks is the column name
      at the position argmax picks. */
  lemma IdxmaxAgreesWithArgmax(cols: seq<string>, v: seq<int>)
    requires |cols| == |v| > 0
    ensures Idxmax(cols, v) == cols[Argmax(v)]
  {
    MaxEntryAtArgmax(cols, v);
  }

  /** The first maximal position is unique: any position with no larger value
      anywhere and only smaller values before it is argmax's. */
  lemma FirstMaxIsArgmax(v: seq<int>, k: nat)
    requires k < |v|
    requires forall j :: 0 <= j < |v| ==> v[j] <= v[k]
    requires forall j :: 0 <= j < k ==> v[j] < v[k]
    ensures Argmax(v) == k
  {
  }

  predicate ZeroOne(v: seq<int>) {
    forall j :: 0 <= j < |v| ==> v[j] == 0 || v[j] == 1
  }

  /** A well-formed one-hot row: a 1 at position p and 0 elsewhere. */
  predicate IsOneHot(v: seq<int>, p: nat) {
    p < |v| && v[p] == 1 && forall j :: 0 <= j < |v| && j != p ==> v[j] == 0
  }

  /** On a 0/1 row, argmax is the position of the first 1, however many 1s follow. */
  lemma FirstOneIsArgmax(v: seq<int>, p: nat)
    requires ZeroOne(v) && p < |v| && v[p] == 1
    requires forall j :: 0 <= j < p ==> v[j] == 0
    ensures Argmax(v) == p
  {
  }

  /** For a well-formed one-hot row the index is the position of its single 1
      and the name is that column's. */
  lemma OneHotCanonical(cols: seq<string>, v: seq<int>, p: nat)
    requires |cols| == |v|
    requires IsOneHot(v, p)
    ensures Argmax(v) == p && Idxmax(cols, v) == cols[p]
  {
    FirstOneIsArgmax(v, p);
    IdxmaxAgreesWithArgmax(cols, v);
  }

  /** A row with no active category (all zero) still gets an index: the first
      category's. */
  lemma AllZeroIsFirstCategory(v: seq<int>)
    requires |v| > 0
    requires forall j :: 0 <= j < |v| ==> v[j] == 0
    ensures Argmax(v) == 0
  {
  }

  /** The canonical record of a one-hot row: the name and the index of the
      first maximal category. */
  function Canonicalise(r: OneHotRow): (c: CanonRow)
    requires |r.scores| == |Categories|
    ensures c.image == r.image && 0 <= c.labelIdx < |Categories|
    ensures c.labelName == Categories[c.labelIdx]
    ensures forall j :: 0 <= j < c.labelIdx ==> r.scores[j] < r.scores[c.labelIdx]
    ensures forall j :: 0 <= j < |Categories| ==> r.scores[j] <= r.scores[c.labelIdx]
  {
    var k := Argmax(r.scores);
    CanonRow(r.image, Categories[k], k)
  }

  /** The invariant every output row keeps: its name is the category at its index. */
  predicate IsCanonical(c: CanonRow) {
    0 <= c.labelIdx < |Categories| && c.labelName == Categories[c.labelIdx]
  }

  /** Indices are consistent across output tables: two canonical rows carry the
      same name exactly when they carry the same index. */
  lemma SameLabelSameIndex(a: CanonRow, b: CanonRow)
    requires IsCanonical(a) && IsCanonical(b)
    ensures a.labelName == b.labelName <==> a.labelIdx == b.labelIdx
  {
  }

  /** The validation pass's route, name first and then `label2idx`, yields
      argmax's index and never a missing key. */
  lemma LabelLookupIsArgmax(v: seq<int>)
    requires |v| == |Categories|
    ensures Lookup(Label2Idx, Idxmax(Categories, v)) == Some(Argmax(v))
  {
    IdxmaxAgreesWithArgmax(Categories, v);
    Label2IdxInvertsCategories();
  }

  /** Example: image001 with a 1 in the NV column. */
  lemma NevusExample()
    ensures Canonicalise(OneHotRow("image001", [0, 1, 0, 0, 0, 0, 0])) == CanonRow("image001", "NV", 1)
  {
    OneHotCanonical(Categories, [0, 1, 0, 0, 0, 0, 0], 1);
  }
}
