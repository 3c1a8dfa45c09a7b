/**
 * The categorical half of the input form: the ten drop-down selectors
 * (app.py:85-97) and the list of indicator keys built from the chosen
 * options when the form is submitted (app.py:115-126).
 */
module Selectors {
  import opened Schema

  /** The character of a decimal digit. */
  function DigitChar(d: nat): char
    requires d < 10
  {
    ('0' as int + d) as char
  }

  /** The numeric value of a digit character. */
  function DigitValue(c: char): int {
    c as int - '0' as int
  }

  /** The decimal digits of `n`, most significant first, without leading zeros. */
  function Digits(n: nat): (s: string)
    ensures |s| >= 1
    ensures forall i :: 0 <= i < |s| ==> '0' <= s[i] <= '9'
    ensures s[0] == '0' ==> n == 0
  {
    if n < 10 then [DigitChar(n)] else Digits(n / 10) + [DigitChar(n % 10)]
  }

  /** The number a string of decimal digits spells. */
  function DigitsValue(s: string): int {
    if s == [] then 0 else DigitsValue(s[..|s| - 1]) * 10 + DigitValue(s[|s| - 1])
  }

  /** Reading the digits of `n` back gives `n`. */
  lemma {:induction false} DigitsRoundTrip(n: nat)
    ensures DigitsValue(Digits(n)) == n
  {
    if n >= 10 {
      var s := Digits(n);
      assert s[..|s| - 1] == Digits(n / 10);
      DigitsRoundTrip(n / 10);
    }
  }

  /** The text an integer takes inside an f-string: its decimal digits, after a '-' when negative. */
  function DecimalString(i: int): (s: string)
    ensures |s| >= 1 && '_' !in s
  {
    if i < 0 then "-" + Digits(-i) else Digits(i)
  }

  /** Reads an optionally signed decimal numeral. */
  function ParseDecimal(s: string): int {
    if s != [] && s[0] == '-' then -DigitsValue(s[1..]) else DigitsValue(s)
  }

  /** Formatting loses nothing: different integers give different texts. */
  lemma DecimalRoundTrip(i: int)
    ensures ParseDecimal(DecimalString(i)) == i
  {
    if i < 0 {
      DigitsRoundTrip(-i);
      assert DecimalString(i)[1..] == Digits(-i);
    } else {
      DigitsRoundTrip(i);
    }
  }

  /** The fireplace counts the form offers format as the fireplace levels of the schema. */
  lemma FireplaceLevels()
    ensures forall k :: 0 <= k < 4 ==> DecimalString(k) == TrainedLevels(Fireplaces)[k]
  {
    assert DecimalString(0) == "0" && DecimalString(1) == "1";
    assert DecimalString(2) == "2" && DecimalString(3) == "3";
  }

  /** The options chosen in the ten selectors; the fireplace count is an integer. */
  datatype Selection = Selection(
    masVnrType: string,
    houseStyle: string,
    bsmtQual: string,
    bsmtExposure: string,
    bsmtFinType1: string,
    fireplaces: int,
    garageType: string,
    garageFinish: string,
    saleType: string,
    saleCondition: string)

  /** Every choice is one of the options its selector lists. */
  predicate Offered(sel: Selection) {
    && sel.masVnrType in ["BrkFace", "Stone", "BrkCmn", "None"]
    && sel.houseStyle in ["1Story", "2Story", "1.5Fin", "1.5Unf", "2.5Fin", "2.5Unf", "SFoyer", "SLvl"]
    && sel.bsmtQual in ["Ex", "Gd", "TA", "Fa"]
    && sel.bsmtExposure in ["Av", "Gd", "Mn", "No"]
    && sel.bsmtFinType1 in ["GLQ", "ALQ", "BLQ", "Rec", "LwQ", "Unf"]
    && sel.fireplaces in [0, 1, 2, 3]
    && sel.garageType in ["Attchd", "Detchd", "BuiltIn", "CarPort", "None"]
    && sel.garageFinish in ["Fin", "RFn", "Unf"]
    && sel.saleType in ["WD", "New", "COD", "CWD"]
    && sel.saleCondition in ["Normal", "Partial", "Abnorml"]
  }

  /** The text the key of family `f` carries after its '_'. */
  function SelectedLevel(sel: Selection, f: Family): string {
    match f
    case MasVnrType => sel.masVnrType
    case HouseStyle => sel.houseStyle
    case BsmtQual => sel.bsmtQual
    case BsmtExposure => sel.bsmtExposure
    case BsmtFinType1 => sel.bsmtFinType1
    case Fireplaces => DecimalString(sel.fireplaces)
    case GarageType => sel.garageType
    case GarageFinish => sel.garageFinish
    case SaleType => sel.saleType
    case SaleCondition => sel.saleCondition
  }

  /** The `categorical_features` list of a submission: one key per family, in family order. */
  function CategoricalKeys(sel: Selection): (keys: seq<string>)
    ensures |keys| == |Families()|
    ensures forall k :: 0 <= k < |keys| ==>
      keys[k] == Join(FamilyName(Families()[k]), SelectedLevel(sel, Families()[k]))
  {
    [Join("MasVnrType", sel.masVnrType),
     Join("HouseStyle", sel.houseStyle),
     Join("BsmtQual", sel.bsmtQual),
     Join("BsmtExposure", sel.bsmtExposure),
     Join("BsmtFinType1", sel.bsmtFinType1),
     Join("Fireplaces", DecimalString(sel.fireplaces)),
     Join("GarageType", sel.garageType),
     Join("GarageFinish", sel.garageFinish),
     Join("SaleType", sel.saleType),
     Join("SaleCondition", sel.saleCondition)]
  }

  /** The keys name family `f` exactly once, with the level chosen for it. */
  lemma KeyOfFamily(sel: Selection, f: Family, level: string)
    ensures Join(FamilyName(f), level) in CategoricalKeys(sel) <==> level == SelectedLevel(sel, f)
  {
    var keys, fs := CategoricalKeys(sel), Families();
    if level == SelectedLevel(sel, f) {
      FamiliesComplete(f);
      var k :| 0 <= k < |fs| && fs[k] == f;
      assert keys[k] == Join(FamilyName(f), level);
    }
    if Join(FamilyName(f), level) in keys {
      var k :| 0 <= k < |keys| && keys[k] == Join(FamilyName(f), level);
      JoinInjective(FamilyName(f), level, FamilyName(fs[k]), SelectedLevel(sel, fs[k]));
      FamilyNameRoundTrip(f);
      FamilyNameRoundTrip(fs[k]);
    }
  }

  /** No key is built twice, and none is a plain (numeric) column name. */
  lemma KeysWellFormed(sel: Selection)
    ensures Distinct(CategoricalKeys(sel))
    ensures forall key :: key in CategoricalKeys(sel) ==> !Plain(key)
  {
    var keys, fs := CategoricalKeys(sel), Families();
    forall i, j | 0 <= i < j < |keys|
      ensures keys[i] != keys[j]
    {
      if keys[i] == keys[j] {
        JoinInjective(FamilyName(fs[i]), SelectedLevel(sel, fs[i]), FamilyName(fs[j]), SelectedLevel(sel, fs[j]));
        FamilyNameRoundTrip(fs[i]);
        FamilyNameRoundTrip(fs[j]);
      }
    }
    forall key | key in keys
      ensures !Plain(key)
    {
      var k :| 0 <= k < |keys| && keys[k] == key;
      assert key[|FamilyName(fs[k])|] == '_';
    }
  }

  /** Every option a selector offers is a level the schema has a column for. */
  lemma OfferedLevelTrained(sel: Selection, f: Family)
    requires Offered(sel)
    ensures SelectedLevel(sel, f) in TrainedLevels(f)
  {
    if f == Fireplaces {
      FireplaceLevels();
      assert SelectedLevel(sel, f) == TrainedLevels(f)[sel.fireplaces];
    }
  }

  /** The first option of every selector. */
  function FirstOptions(): (sel: Selection)
    ensures Offered(sel)
  {
    Selection("BrkFace", "1Story", "Ex", "Av", "GLQ", 0, "Attchd", "Fin", "WD", "Normal")
  }

  /** Every fireplace level is the text of a count the fireplace selector offers. */
  lemma FireplaceCount(level: string) returns (count: int)
    requires level in TrainedLevels(Fireplaces)
    ensures count in [0, 1, 2, 3] && DecimalString(count) == level
  {
    FireplaceLevels();
    count :| 0 <= count < 4 && TrainedLevels(Fireplaces)[count] == level;
  }

  /** An offered selection that picks `level` for `f` shows that `level` is offered. */
  lemma Witness(sel: Selection, f: Family, level: string)
    requires Offered(sel) && SelectedLevel(sel, f) == level
    ensures exists s :: Offered(s) && SelectedLevel(s, f) == level
  {
  }

  /** Conversely, every trained level of a family is offered by its selector. */
  lemma TrainedLevelOffered(f: Family, level: string)
    requires level in TrainedLevels(f)
    ensures exists sel :: Offered(sel) && SelectedLevel(sel, f) == level
  {
    var first := FirstOptions();
    match f {
      case MasVnrType => Witness(first.(masVnrType := level), f, level);
      case HouseStyle => Witness(first.(houseStyle := level), f, level);
      case BsmtQual => Witness(first.(bsmtQual := level), f, level);
      case BsmtExposure => Witness(first.(bsmtExposure := level), f, level);
      case BsmtFinType1 => Witness(first.(bsmtFinType1 := level), f, level);
      case Fireplaces =>
        var count := FireplaceCount(level);
        Witness(first.(fireplaces := count), f, level);
      case GarageType => Witness(first.(garageType := level), f, level);
      case GarageFinish => Witness(first.(garageFinish := level), f, level);
      case SaleType => Witness(first.(saleType := level), f, level);
      case SaleCondition => Witness(first.(saleCondition := level), f, level);
    }
  }

  /** For an offered selection every key names an indicator column of the schema. */
  lemma OfferedKeysInSchema(sel: Selection)
    requires Offered(sel)
    ensures forall key :: key in CategoricalKeys(sel) ==> key in Indicators()
  {
    var keys, fs := CategoricalKeys(sel), Families();
    forall key | key in keys
      ensures key in Indicators()
    {
      var k :| 0 <= k < |keys| && keys[k] == key;
      OfferedLevelTrained(sel, fs[k]);
      TrainedLevelColumn(fs[k], SelectedLevel(sel, fs[k]));
    }
  }
}
