/**
 * `preprocess_input` (app.py:42-57): turns one submitted form row into a
 * row over the schema, by zero-filling every column, copying the ten
 * numeric inputs into their columns and setting to 1 every column that one
 * of the submitted keys names.
 */
module Encoder {
  import opened Options
  import opened Schema

  /** One form row as `preprocess_input` reads it: the ten numeric inputs and the key list. */
  datatype FormInput = FormInput(
    lotFrontage: int,
    lotArea: int,
    masVnrArea: int,
    bsmtFinSF1: int,
    firstFlrSF: int,
    secondFlrSF: int,
    garageCars: int,
    garageArea: int,
    woodDeckSF: int,
    openPorchSF: int,
    categoricalFeatures: seq<string>)

  /** The input stored under a numeric column name, `input_df[name]`. */
  function NumericValue(input: FormInput, name: string): int
    requires name in NumericColumns()
  {
    match name
    case "LotFrontage" => input.lotFrontage
    case "LotArea" => input.lotArea
    case "MasVnrArea" => input.masVnrArea
    case "BsmtFinSF1" => input.bsmtFinSF1
    case "1stFlrSF" => input.firstFlrSF
    case "2ndFlrSF" => input.secondFlrSF
    case "GarageCars" => input.garageCars
    case "GarageArea" => input.garageArea
    case "WoodDeckSF" => input.woodDeckSF
    case _ => input.openPorchSF
  }

  /**
   * The value the encoder leaves in `column`: 1 when a key names it (the key
   * pass runs last), otherwise the input of a numeric column, otherwise 0.
   */
  function Cell(input: FormInput, column: string): int {
    if column in input.categoricalFeatures then 1
    else if column in NumericColumns() then NumericValue(input, column)
    else 0
  }

  /** The cells of `columns`, in order. */
  function Row(input: FormInput, columns: seq<string>): (row: seq<int>)
    ensures |row| == |columns|
  {
    seq(|columns|, i requires 0 <= i < |columns| => Cell(input, columns[i]))
  }

  /** The encoded row: one cell per schema column, in schema order. */
  function Encode(input: FormInput): (row: seq<int>)
    ensures |row| == |Features()|
  {
    Row(input, Features())
  }

  /** Where `name` sits among `columns`, or None when it is not one of them. */
  function ColumnIndex(columns: seq<string>, name: string): (r: Option<nat>)
    ensures r.None? <==> name !in columns
    ensures r.Some? ==> r.value < |columns| && columns[r.value] == name
  {
    if columns == [] then None
    else if columns[0] == name then Some(0)
    else match ColumnIndex(columns[1..], name)
      case None => None
      case Some(i) => Some(i + 1)
  }

  /**
   * The two passes of `preprocess_input` over a frame with the given
   * columns: a zero-filled row, then the numeric pass, then the key pass.
   * A name the frame lacks finds no cell in either pass.
   */
  method Fill(input: FormInput, columns: seq<string>) returns (processed: array<int>)
    requires Distinct(columns)
    ensures fresh(processed)
    ensures processed.Length == |columns|
    ensures processed[..] == Row(input, columns)
  {
    processed := new int[|columns|](_ => 0);
    var numeric := NumericColumns();
    for k := 0 to |numeric|
      invariant forall i :: 0 <= i < processed.Length ==>
        processed[i] == (if columns[i] in numeric[..k] then NumericValue(input, columns[i]) else 0)
    {
      match ColumnIndex(columns, numeric[k])
      case Some(i) => processed[i] := NumericValue(input, numeric[k]);
      case None =>
    }
    assert numeric[..|numeric|] == numeric;
    var keys := input.categoricalFeatures;
    for m := 0 to |keys|
      invariant forall i :: 0 <= i < processed.Length ==>
        processed[i] == (if columns[i] in keys[..m] then 1
                         else if columns[i] in numeric then NumericValue(input, columns[i])
                         else 0)
    {
      match ColumnIndex(columns, keys[m])
      case Some(i) => processed[i] := 1;
      case None =>
    }
    assert keys[..|keys|] == keys;
  }

  /** `preprocess_input`: the two passes over a frame with the schema's columns. */
  method PreprocessInput(input: FormInput) returns (processed: array<int>)
    ensures fresh(processed)
    ensures processed.Length == |Features()|
    ensures processed[..] == Encode(input)
  {
    FeaturesDistinct();
    processed := Fill(input, Features());
  }

  /** An indicator cell is 1 exactly when a key names its column, and 0 otherwise. */
  lemma IndicatorCells(input: FormInput)
    ensures forall i :: 10 <= i < |Features()| ==>
      && (Encode(input)[i] == 1 <==> Features()[i] in input.categoricalFeatures)
      && (Encode(input)[i] == 0 <==> Features()[i] !in input.categoricalFeatures)
  {
    FeatureLayout();
    IndicatorColumns();
  }

  /** When no key is a numeric column name, the numeric cells are the numeric inputs. */
  lemma NumericCells(input: FormInput)
    requires forall key :: key in input.categoricalFeatures ==> key !in NumericColumns()
    ensures forall k :: 0 <= k < 10 ==> Encode(input)[k] == NumericValue(input, NumericColumns()[k])
  {
    FeatureLayout();
  }

  /**
   * The row depends on the keys only through which schema columns they name:
   * order, repetition and names outside the schema make no difference.
   */
  lemma SchemaKeysOnly(input: FormInput, keys: seq<string>)
    requires forall c :: c in Features() ==> (c in keys <==> c in input.categoricalFeatures)
    ensures Encode(input.(categoricalFeatures := keys)) == Encode(input)
  {
    var other := input.(categoricalFeatures := keys);
    forall i | 0 <= i < |Features()|
      ensures Encode(other)[i] == Encode(input)[i]
    {
      assert Features()[i] in Features();
    }
  }

  /** A key that names no schema column is silently dropped. */
  lemma UnknownKeyIgnored(input: FormInput, p: nat)
    requires p < |input.categoricalFeatures| && input.categoricalFeatures[p] !in Features()
    ensures Encode(input) ==
      Encode(input.(categoricalFeatures := input.categoricalFeatures[..p] + input.categoricalFeatures[p + 1..]))
  {
    var keys := input.categoricalFeatures;
    var rest := keys[..p] + keys[p + 1..];
    forall c | c in Features()
      ensures c in rest <==> c in keys
    {
      if c in keys {
        var j :| 0 <= j < |keys| && keys[j] == c;
        if j < p {
          assert rest[j] == c;
        } else {
          assert j != p && rest[j - 1] == c;
        }
      }
    }
    SchemaKeysOnly(input, rest);
  }

  /** The bounds the form puts on the numeric inputs: none is negative, at most 4 garage cars. */
  predicate WithinFormBounds(input: FormInput) {
    && input.lotFrontage >= 0 && input.lotArea >= 0 && input.masVnrArea >= 0
    && input.bsmtFinSF1 >= 0 && input.firstFlrSF >= 0 && input.secondFlrSF >= 0
    && 0 <= input.garageCars <= 4 && input.garageArea >= 0
    && input.woodDeckSF >= 0 && input.openPorchSF >= 0
  }

  /** Within the form bounds no cell is negative and the GarageCars cell is at most 4. */
  lemma FormBoundsCells(input: FormInput)
    requires WithinFormBounds(input)
    ensures forall i :: 0 <= i < |Features()| ==> Encode(input)[i] >= 0
    ensures Features()[6] == "GarageCars" && Encode(input)[6] <= 4
  {
    FeatureLayout();
    forall i | 0 <= i < |Features()|
      ensures Encode(input)[i] >= 0
    {
      var c := Features()[i];
      if c !in input.categoricalFeatures && c in NumericColumns() {
        assert NumericValue(input, c) >= 0;
      }
    }
  }

  /** How many cells of `row` hold 1. */
  function Ones(row: seq<int>): (n: nat)
    ensures n <= |row|
  {
    if row == [] then 0 else Ones(row[..|row| - 1]) + (if row[|row| - 1] == 1 then 1 else 0)
  }

  /** A column whose name holds a '_' is no numeric column: its cell is 1 or 0 by the keys alone. */
  lemma NamedCell(input: FormInput, column: string)
    requires !Plain(column)
    ensures Cell(input, column) == if column in input.categoricalFeatures then 1 else 0
  {
  }

  /** The 1s of a row are those of its first cells plus one for a last cell holding 1. */
  lemma OnesOfRowSnoc(input: FormInput, columns: seq<string>)
    requires columns != []
    ensures Ones(Row(input, columns)) ==
      Ones(Row(input, columns[..|columns| - 1])) + (if Cell(input, columns[|columns| - 1]) == 1 then 1 else 0)
  {
    assert Row(input, columns)[..|columns| - 1] == Row(input, columns[..|columns| - 1]);
  }

  /** The named columns among `columns + [last]` are those among `columns`, plus `last` when named. */
  lemma NamedColumnsSnoc(keys: seq<string>, columns: seq<string>, last: string)
    ensures (set c | c in columns + [last] && c in keys) ==
      (set c | c in columns && c in keys) + (if last in keys then {last} else {})
  {
  }

  /** Over distinct indicator columns, the 1s count the columns some key names. */
  lemma {:induction false} OnesCountNamedColumns(input: FormInput, columns: seq<string>)
    requires Distinct(columns)
    requires forall c :: c in columns ==> !Plain(c)
    ensures Ones(Row(input, columns)) == |set c | c in columns && c in input.categoricalFeatures|
  {
    if columns != [] {
      var n := |columns| - 1;
      var init, last := columns[..n], columns[n];
      assert columns == init + [last];
      assert Distinct(init) by {
        forall i, j | 0 <= i < j < n ensures init[i] != init[j] {
          assert init[i] == columns[i] && init[j] == columns[j];
        }
      }
      OnesCountNamedColumns(input, init);
      OnesOfRowSnoc(input, columns);
      NamedCell(input, last);
      NamedColumnsSnoc(input.categoricalFeatures, init, last);
    }
  }
}
