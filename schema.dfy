/**
 * The label schema of the ISIC 2018 task: the seven diagnostic categories in
 * the one column order the scripts use, and the literal name-to-index
 * dictionary of the validation pass of create_idx_csv.py.
 */
module Schema {
  import opened Wrappers

  /** Category names in column order; a category's index is its position here. */
  const Categories: seq<string> := ["MEL", "NV", "BCC", "AKIEC", "BKL", "DF", "VASC"]

  /** The literal dictionary `label2idx`. */
  const Label2Idx: map<string, int> :=
    map["MEL" := 0, "NV" := 1, "BCC" := 2, "AKIEC" := 3, "BKL" := 4, "DF" := 5, "VASC" := 6]

  predicate Distinct(s: seq<string>) {
    forall i, j :: 0 <= i < j < |s| ==> s[i] != s[j]
  }

  /** `Series.map(d)` on one cell: the dictionary's value, or NaN for a key it lacks. */
  function Lookup(d: map<string, int>, name: string): (r: Option<int>)
    ensures r.Some? <==> name in d
    ensures r.Some? ==> r.value == d[name]
  {
    if name in d then Some(d[name]) else None
  }

  /** No category name occurs twice, so a name determines its index. */
  lemma CategoriesDistinct()
    ensures Distinct(Categories)
  {
  }

  /** `label2idx` is the inverse of the schema ordering: it sends each
      category to its position, and it has no key outside the schema. */
  lemma Label2IdxInvertsCategories()
    ensures Label2Idx.Keys == set i | 0 <= i < |Categories| :: Categories[i]
    ensures forall i :: 0 <= i < |Categories| ==> Categories[i] in Label2Idx && Label2Idx[Categories[i]] == i
    ensures forall name :: name in Label2Idx ==>
              0 <= Label2Idx[name] < |Categories| && Categories[Label2Idx[name]] == name
  {
    var names := set i | 0 <= i < |Categories| :: Categories[i];
    forall name | name in Label2Idx ensures name in names {
      assert Categories[Label2Idx[name]] == name;
    }
  }
}
