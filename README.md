# Verified model of the ISIC 2018 label canonicaliser and manifest builder

Three pandas batch scripts prepare label metadata for the skin-lesion
dataset. `train_labels.csv`, `val_labels.csv` and `test_labels.csv` carry one
one-hot column per diagnostic category (MEL, NV, BCC, AKIEC, BKL, DF, VASC).
The scripts turn each row into a category name (`label`, pandas
`idxmax(axis=1)`) and an index (`label_idx`, numpy `argmax(axis=1)`). They
split the training table into a labeled and an unlabeled part, build image
paths from image ids, and cut the output tables out of the frames by column
projection.

This project models that core in Dafny:

- `schema.dfy` (module `Schema`): the category order, the literal
  `label2idx` dictionary and the pandas `Series.map` lookup.
- `canonical.dfy` (`Canon`): argmax as a left-to-right scan that returns the
  first maximal position. Idxmax is defined on its own terms, as a scan over
  the (name, value) cells, and is proved to agree with argmax. The file also
  holds the one-hot, multi-hot and all-zero cases, the canonical record, and
  the consistency of indices across output tables.
- `manifest.dfy` (`Manifest`): path construction, which is injective. It also
  holds the five column projections. Each keeps the row count and order.
- `frame.dfy` (`Frames`): the DataFrames as classes. Their columns are
  assigned in place (`df['label'] = ...`). The sub-frame that a split returns
  is also here.
- `train_labels.dfy`, `create_splits.dfy`, `create_idx_csv.dfy`: one module
  per script. Each script is a method that allocates its frames and returns
  the rows of every CSV it writes, stated in terms of the input rows.

The inputs are parameters: the rows that `read_csv` would return, the path
prefix, and, for create_splits.py, the splitter's result. Every script's
category list is a separate constant, and each is proved equal to
`Schema.Categories`.

Behaviour that follows from what the scripts do and do not check:

- The scripts never check that a row is one-hot. A row with no 1 or with
  several 1s still gets the first maximal position, and the model states that
  outcome (`Canon.FirstOneIsArgmax`, `Canon.AllZeroIsFirstCategory`).
- The scripts build paths by plain concatenation, and differently:
  train_labels.py writes `prefix + image + '.jpg'` with a prefix that ends in
  a slash, and create_splits.py writes `f"{TRAIN_DIR}/{img_id}.jpg"`. Both
  are `Manifest.ImageFile(prefix, id)`, with prefix `TrainDir + "/"` in the
  second case.
- create_splits.py relies on sklearn's stratified split, which stops the
  script with an error for some tables (see "## Left out"). `CreateSplits.Run`
  models the runs in which the split returns.

## Model

| member | source | states |
|---|---|---|
| Schema.CategoriesDistinct | src/create_splits.py:21 | no category name occurs twice in the schema |
| Schema.Label2IdxInvertsCategories | src/create_idx_csv.py:49 | `label2idx` sends each schema name to its position, its keys are exactly the schema names, and indexing the schema with any value gives back the key |
| Schema.Lookup | src/create_idx_csv.py:50 | `Series.map` on one cell: the dictionary's value when the name is a key, NaN (`None`) otherwise |
| Canon.Argmax | src/create_splits.py:25 | the index is within the row, no value exceeds the one at the index, and every earlier value is strictly smaller (first maximal position) |
| Canon.MaxEntry | src/create_splits.py:24 | idxmax's scan returns one cell of the row, its column name together with its value, and that value is the row maximum |
| Canon.Idxmax | src/train_labels.py:10-11 | the `label` picked for a row is always one of the given column names |
| Canon.MaxEntryAtArgmax | src/create_splits.py:24-25 | idxmax's scan stops on the cell at argmax's position |
| Canon.IdxmaxAgreesWithArgmax | src/create_idx_csv.py:17-20 | `label == label_columns[label_idx]` for every row |
| Canon.FirstMaxIsArgmax | src/create_splits.py:25 | any first maximal position is argmax's result (uniqueness) |
| Canon.FirstOneIsArgmax | src/create_splits.py:25 | on a 0/1 row, however many 1s it has, the index is the position of the first 1 |
| Canon.OneHotCanonical | src/create_splits.py:21-25 | on a one-hot row the index is the position of the single 1, and the name is that column's |
| Canon.AllZeroIsFirstCategory | src/train_labels.py:11 | a row with no active category still gets index 0 |
| Canon.Canonicalise | src/create_idx_csv.py:14-20 | the canonical record keeps the image id; its index is in 0..6 and is the row's first maximal position; its name is the schema entry at that index |
| Canon.SameLabelSameIndex | src/create_splits.py:49-50 | two canonical rows, from any two output tables, have the same name if and only if they have the same index |
| Canon.LabelLookupIsArgmax | src/create_idx_csv.py:40-50 | looking up the idxmax name in `label2idx` never misses, and it gives argmax's index |
| Canon.NevusExample | src/create_splits.py:24-25 | example: row image001 = [0,1,0,0,0,0,0] canonicalises to ("NV", 1) |
| Manifest.ImageFile | src/train_labels.py:14 | the path starts with the prefix, continues with the id and ends with `.jpg`, and its length is the sum of the three |
| Manifest.ImageFileInjective | src/train_labels.py:14 | two ids give the same path under one prefix if and only if they are equal |
| Manifest.ImagePaths | src/create_splits.py:36 | the path list has one path per id, in id order, each being that id's image path |
| Manifest.ImagePathsDistinct | src/create_splits.py:36 | the path list has no duplicates if and only if the id list has none |
| Manifest.SelectImageLabelIdx | src/create_splits.py:42 | the projection to `image, label, label_idx` has the same number of rows, in the same order, with row k made of the three columns' k-th entries |
| Manifest.SelectFileLabel | src/train_labels.py:17 | the projection to `file, label` keeps row count and order |
| Manifest.SelectFile | src/train_labels.py:23 | the `file` projection keeps row count and order |
| Manifest.SelectImageLabel | src/create_idx_csv.py:43 | the projection to `image, label` keeps row count and order |
| Manifest.SelectMapped | src/create_idx_csv.py:50-53 | the three columns of the mapped val frame keep row count and order |
| Frames.Frame.FromRows | src/create_splits.py:18 | the frame read from a one-hot table has the rows' ids and category values, in order, and no derived column yet |
| Frames.Frame.Take | src/create_splits.py:28-33 | the sub-frame of the rows at the given positions carries every present column, and row k is source row `ix[k]` |
| Frames.Frame.AssignLabel | src/create_splits.py:24 | after the assignment, `label` holds each row's idxmax name and nothing else changes |
| Frames.Frame.AssignLabelIdx | src/create_splits.py:25 | after the assignment, `label_idx` holds each row's argmax and nothing else changes |
| Frames.Frame.AssignFile | src/train_labels.py:14 | after the assignment, `file` holds the image path of each row's id and nothing else changes |
| Frames.NamedFrame.Select | src/create_idx_csv.py:43 | the reassigned frame has exactly the `image` and `label` columns of its source |
| Frames.NamedFrame.MapLabelIdx | src/create_idx_csv.py:50 | `label_idx` holds the dictionary value of each row's name, or NaN when the name is not a key |
| TrainLabels.LabelColsAreCategories | src/train_labels.py:10 | the script's category list is the schema |
| TrainLabels.PathExample | src/train_labels.py:14 | example: id ISIC_0000001 under the script's prefix `data/isic2018/train/` gives `data/isic2018/train/ISIC_0000001.jpg` |
| TrainLabels.Run | src/train_labels.py:4-24 | `train_labeled.csv` has one `(file, label)` row per input row, in order, with the row's path and its first-maximal category; `train_unlabeled.csv` has the same length and the same `file` column |
| CreateSplits.LabelColsAreCategories | src/create_splits.py:21 | the script's category list is the schema |
| CreateSplits.PathExample | src/create_splits.py:36 | example: id ISIC_0000001 under the script's `TRAIN_DIR` gives `../data/isic2018/train/ISIC_0000001.jpg` |
| CreateSplits.CanonicalFrame | src/create_splits.py:18-25 | the frame keeps the input rows, and each row's `label`, `label_idx` pair is that row's canonical record |
| CreateSplits.Run | src/create_splits.py:7-55 | given a disjoint, exhaustive split: one unlabeled path `TRAIN_DIR/<id>.jpg` per unlabeled row, in split order; one canonical `image, label, label_idx` row per labeled row; the two sizes add up to the training size; `val_idx.csv` is the canonical record of each val row, in order |
| CreateSplits.PartitionCoversRows | src/create_splits.py:28-33 | under the split's precondition, every training row lies in exactly one of the two parts |
| CreateIdxCsv.SchemaListsIdentical | src/create_idx_csv.py:14-57 | `label_columns`, the val `label_cols` and the test `label_cols` are one and the same schema |
| CreateIdxCsv.TrainIdx | src/create_idx_csv.py:11-24 | `train_labeled_idx.csv` is the canonical record of each train row, in order |
| CreateIdxCsv.ValIdx | src/create_idx_csv.py:34-53 | the first write is `(image, idxmax name)` per row; the final `val_idx.csv` adds a `label_idx` that is never NaN and equals the row's argmax, and it keeps the first write's rows |
| CreateIdxCsv.TestIdx | src/create_idx_csv.py:57-65 | `test_idx.csv` is the canonical record of each test row, in order, so `label == label_cols[label_idx]` |
| CreateIdxCsv.Run | src/create_idx_csv.py:1-66 | all three outputs, one canonical row per input row, in order; val indices are present and canonical |

## Left out

- CSV reading and writing (`read_csv`, `to_csv`), `os.makedirs` and `print` are file-system I/O. Input tables are parameters, and output tables are return values.
- The column selection `df[label_cols]` is taken as already done. A row's category values come in schema order, and a missing column (pandas `KeyError`) is excluded by `WellFormed`.
- The internals of sklearn `train_test_split` (src/create_splits.py:28-33) are not modelled. That covers stratification, shuffling, the seed `random_state=42`, and the sizes that `test_size=0.90` implies. The split is an input: two lists of row positions, with the precondition `IsPartition` (disjoint and exhaustive).
- CreateSplits.Run: does not model the split's failure. With `stratify=`, sklearn raises `ValueError` when a category is held by only one training row, or when the 10% part has fewer rows than there are categories present; the script then stops before writing `train_unlabeled.csv`. The split's code is not part of this model, so its failure condition cannot be stated from it.
- Pandas dtypes and NaN in the input table are left out, and label values are integers. NaN appears only where `Series.map` meets a missing key (`Option.None`).
- The hard-coded directories are configuration literals. The path prefix is a parameter; the scripts' defaults are `TrainLabels.TrainPrefix` and `CreateSplits.TrainDir`.
- The first `val_idx.csv` write (src/create_idx_csv.py:47) is overwritten by the write at line 53. `CreateIdxCsv.ValIdx` returns both contents, and `CreateIdxCsv.Run` returns only the final one.
- Output files shared between scripts are I/O and not modelled. create_idx_csv.py:24 and create_splits.py:43 both write `train_labeled_idx.csv` (all training rows, or the 10% labeled part). train_labels.py:24 and create_splits.py:38 both write `train_unlabeled.csv` (all rows under `data/isic2018/train/`, or the 90% part under `../data/isic2018/train`). Whichever script runs last decides the file's content.
- Index and column order of the pandas frames, and the `.copy()` calls, are left out. They carry no data into the outputs.
