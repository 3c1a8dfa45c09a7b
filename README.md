# House price form: feature encoder

This project models the feature encoder of a Streamlit house-price app in
Dafny. The app collects ten numeric property measurements and ten
categorical choices in a form. It turns them into one numeric row over a
fixed, ordered column schema and hands that row to a pre-fitted scaler and
regression model. The model covers everything up to that hand-over, which
is all of the app's logic that is not UI or an opaque library call:

- **The schema** (module `Schema`, `schema.dfy`). The `features` list is
  ten numeric column names followed by one-hot indicator columns named
  `Family_level`.
  - `Features()` lists the ten numeric names, then one block per family.
    Each block is the family prefix joined to the family's trained levels
    (`TrainedLevels`). Families and levels appear in the literal's order.
  - `FeaturesLiteral` (with one lemma per family block) states that this
    list is, entry for entry, the literal of app.py:24-39.
  - `Split` parses a column name back into family and level. `FamilyNamed`
    parses a prefix back into its family.
  - The lemmas derive the size (55 columns: 10 numeric, 45 indicators),
    show that no name repeats, and show that every indicator column is
    `Family_level` for a trained level.
- **The selectors and the key list** (module `Selectors`, `selectors.dfy`).
  - The ten selectbox option lists define `Offered`.
  - `CategoricalKeys` builds the `categorical_features` list of f-strings.
    The fireplace count is an integer and is formatted by `DecimalString`.
    `ParseDecimal` reads it back (`DecimalRoundTrip`).
  - Every offered option is a trained level, and every trained level is
    offered. So every key of a submitted form names a schema column.
- **`preprocess_input`** (module `Encoder`, `encoder.dfy`). `Fill` is the
  method over an `array<int>`. It zero-fills the row, runs the numeric
  pass, then runs the key pass, as in app.py:44-55.
  - It is proved against the cell-wise specification `Encode`. A column
    named by a key holds 1, otherwise a numeric column holds its input,
    otherwise the cell is 0.
  - Lemmas state the one-hot reading of the row, that unknown keys are
    dropped silently, that order and repetition of keys do not matter, and
    the form bounds.
- **Submission** (module `Submission`, `submission.dfy`). For a form
  submitted with offered choices, every family's indicator group holds
  exactly one 1, the indicator columns hold exactly ten 1s, and the numeric
  cells are the numeric inputs.

Two notes on the source:

- The `features` literal at app.py:24-39 has 55 entries: 10 numeric and 45
  indicators.
- The key pass runs after the numeric pass and sets any column a key names,
  numeric columns included. So a key equal to a numeric column name would
  overwrite that input with 1. `Cell` models this as written.
  `NumericCells` needs that no key is a numeric name. `SubmittedNumericCells`
  shows this always holds for keys built by the form, because every key
  contains a '_' and no numeric name does.

## Model

| member | source | states |
|---|---|---|
| Schema.Split | app.py:116-125 | a name has no separator exactly when it splits to None; otherwise the family part is plain and joining the parts gives the name back |
| Schema.SeparatorOfJoin | app.py:116-125 | in `family_level` with a plain family, the first '_' is the one the f-string inserts |
| Schema.SplitJoin | app.py:116-125 | splitting an f-string key with a plain family part returns exactly that family and level |
| Schema.JoinInjective | app.py:116-125 | two keys with plain family parts are equal only if family and level both agree |
| Schema.FamilyName | app.py:116-125 | every family prefix used in a key is free of '_' |
| Schema.FamilyNamed | app.py:116-125 | a prefix that parses to a family is that family's prefix |
| Schema.FamilyNameRoundTrip | app.py:116-125 | every family is recovered from its prefix, so different families have different prefixes |
| Schema.Families | app.py:116-125 | the ten families, in key order, without repeats |
| Schema.FamiliesComplete | app.py:116-125 | every family occurs in that list |
| Schema.TrainedLevels | app.py:27-38 | each family's levels in the schema, without repeats |
| Schema.NumericColumns | app.py:47-49 | the ten numeric names: ten of them, distinct, none containing '_' |
| Schema.Block | app.py:27-38 | a family's block has one column per trained level |
| Schema.ColumnFamily | app.py:27-38 | a name that parses to a family contains '_', so it is no numeric name |
| Schema.BlockMembers | app.py:27-38 | a block has no repeats, and its columns are exactly the names `Family_level` with a trained level |
| Schema.IndicatorsWellFormed | app.py:27-38 | the 45 indicator columns have no repeats, and each is `Family_level` for a trained level of its family |
| Schema.TrainedLevelColumn | app.py:27-38 | the `Family_level` name of every trained level is an indicator column |
| Schema.MasVnrTypeColumns | app.py:27 | the MasVnrType block is, entry for entry, the MasVnrType columns of the literal |
| Schema.HouseStyleColumns | app.py:28-29 | the HouseStyle block is, entry for entry, the HouseStyle columns of the literal |
| Schema.BsmtQualColumns | app.py:30 | the BsmtQual block is, entry for entry, the BsmtQual columns of the literal |
| Schema.BsmtExposureColumns | app.py:31 | the BsmtExposure block is, entry for entry, the BsmtExposure columns of the literal |
| Schema.BsmtFinType1Columns | app.py:32-33 | the BsmtFinType1 block is, entry for entry, the BsmtFinType1 columns of the literal |
| Schema.FireplacesColumns | app.py:33-34 | the Fireplaces block is, entry for entry, the Fireplaces columns of the literal |
| Schema.GarageTypeColumns | app.py:34-35 | the GarageType block is, entry for entry, the GarageType columns of the literal |
| Schema.GarageFinishColumns | app.py:36 | the GarageFinish block is, entry for entry, the GarageFinish columns of the literal |
| Schema.SaleTypeColumns | app.py:37 | the SaleType block is, entry for entry, the SaleType columns of the literal |
| Schema.SaleConditionColumns | app.py:38 | the SaleCondition block is, entry for entry, the SaleCondition columns of the literal |
| Schema.FeaturesLiteral | app.py:24-39 | the schema equals the `features` list literal entry for entry, in order |
| Schema.FeaturesDistinct | app.py:24-39 | no column name occurs twice in the schema |
| Schema.FeatureLayout | app.py:24-39 | the schema has 55 distinct columns: the ten numeric ones first, then the indicator columns |
| Schema.IndicatorColumns | app.py:24-39 | every column after the tenth is `Family_level` for a trained level, and each such name is a column after the tenth |
| Selectors.Digits | app.py:121 | an integer formats as at least one decimal digit, with no leading zero unless it is 0 |
| Selectors.DigitsRoundTrip | app.py:121 | reading back the digits of a natural number gives the number |
| Selectors.DecimalString | app.py:121 | the formatted integer is non-empty and contains no '_' |
| Selectors.DecimalRoundTrip | app.py:121 | formatting an integer loses nothing: parsing the text gives the integer back |
| Selectors.FireplaceLevels | app.py:33-34 | the offered fireplace counts 0..3 format as the four fireplace levels of the schema, in order |
| Selectors.FireplaceCount | app.py:92 | each fireplace level is the text of an offered count |
| Selectors.CategoricalKeys | app.py:115-126 | one key per family, in family order, each `Family_level` with the selected level |
| Selectors.KeyOfFamily | app.py:115-126 | `Family_level` is among the keys exactly when `level` is the choice for that family |
| Selectors.KeysWellFormed | app.py:115-126 | the ten keys are distinct and none is a plain (numeric) name |
| Selectors.OfferedLevelTrained | app.py:85-97 | every option a selector offers is a trained level of its family |
| Selectors.FirstOptions | app.py:85-97 | choosing the first option of every selector is an offered selection |
| Selectors.TrainedLevelOffered | app.py:85-97 | every trained level of every family is chosen by some offered selection |
| Selectors.OfferedKeysInSchema | app.py:115-126 | for offered choices every key is an indicator column of the schema |
| Encoder.Row | app.py:44 | a row has one cell per column |
| Encoder.Encode | app.py:44 | the encoded row has one cell per schema column |
| Encoder.ColumnIndex | app.py:54-55 | the lookup finds nothing exactly when the name is not a column; otherwise it finds a position holding the name |
| Encoder.Fill | app.py:42-57 | a newly allocated row; over distinct columns the zero fill, numeric pass and key pass leave exactly the cell-wise row |
| Encoder.PreprocessInput | app.py:42-57 | the processed row is newly allocated, has one cell per schema column and equals `Encode` of the input |
| Encoder.IndicatorCells | app.py:53-55 | an indicator cell is 1 exactly when its column is named by a key, and 0 exactly when it is not |
| Encoder.NumericCells | app.py:47-50 | if no key is a numeric name, each of the first ten cells is the input of its column |
| Encoder.SchemaKeysOnly | app.py:53-55 | key lists naming the same schema columns give the same row: order and repetition do not matter |
| Encoder.UnknownKeyIgnored | app.py:54 | removing a key that is not a schema column leaves the row unchanged |
| Encoder.FormBoundsCells | app.py:66-78 | within the form's bounds every cell is non-negative and the GarageCars cell is at most 4 |
| Encoder.OnesCountNamedColumns | app.py:53-55 | over distinct indicator columns, the number of 1s is the number of columns some key names |
| Submission.SubmittedNumericCells | app.py:104-127 | for a submitted form the ten numeric cells are the ten numeric inputs |
| Submission.FamilyColumnNamed | app.py:115-126 | a column of a family is among the submitted keys exactly when it is that family's chosen column |
| Submission.ChosenColumn | app.py:85-97 | for offered choices the chosen column of every family is an indicator column of that family |
| Submission.OneHotPerFamily | app.py:115-126 | for offered choices the 1s in a family's group are exactly at the chosen level's column, and there is one |
| Submission.TenIndicatorOnes | app.py:115-126 | for offered choices exactly ten indicator cells hold 1 |

## Left out

- The Streamlit UI: page text, layout, form widgets and the result expander (app.py:1-12, 59-99, 139-147). The widgets enter only as the option lists of `Offered` and the numeric bounds of `WithinFormBounds`.
- Loading the pickled scaler and model with joblib (app.py:14-21). This is file I/O on serialized objects that are not part of this model.
- `scaler.transform` and `model.predict` (app.py:134, 137): floating-point calls into pre-fitted library objects.
- Currency formatting of the prediction (app.py:140), which is float formatting.
- The pandas mechanics at app.py:44 and 130. `FormInput` is the dictionary of app.py:104-127 read as a plain record, and the frame is one array row.
  - `FormInput.categoricalFeatures` stands for the key list built at app.py:115-126, as the loop at app.py:53 evidently means to read it.
  - The model does not follow how pandas stores a dictionary that mixes scalars and a ten-element list under a one-row index, or what iterating the resulting column yields.
  - Assigning to a frame column that does not exist would add a column. This never happens in the numeric pass, since every numeric name is a schema column. In the key pass, the `in processed.columns` test prevents it.
