/**
 * The fixed, ordered column schema the price model was fitted on
 * (app.py:24-39): ten numeric columns followed by one-hot indicator
 * columns, each named `Family_level` after a categorical family and one of
 * the levels the model saw for it.
 */
module Schema {
  import opened Options

  /** No element occurs twice in `s`. */
  predicate Distinct<T(==)>(s: seq<T>) {
    forall i, j :: 0 <= i < j < |s| ==> s[i] != s[j]
  }

  /** A name without the separator '_'; every family and numeric column name is one. */
  predicate Plain(name: string) {
    '_' !in name
  }

  /** The indicator column name for `level` of `family`, the string f"{family}_{level}". */
  function Join(family: string, level: string): string {
    family + "_" + level
  }

  /** Position of the first '_' in `s`, or |s| when `s` has none. */
  function SeparatorIndex(s: string): (p: nat)
    ensures p <= |s|
    ensures p < |s| ==> s[p] == '_'
    ensures Plain(s[..p])
  {
    if s == [] then 0
    else if s[0] == '_' then 0
    else
      var q := SeparatorIndex(s[1..]);
      assert s[..q + 1] == [s[0]] + s[1..][..q];
      q + 1
  }

  /** Splits a column name at its first '_' into (family, level); None for a plain name. */
  function Split(column: string): (r: Option<(string, string)>)
    ensures r.None? <==> Plain(column)
    ensures r.Some? ==> Plain(r.value.0) && Join(r.value.0, r.value.1) == column
  {
    var p := SeparatorIndex(column);
    if p == |column| then
      assert column[..p] == column;
      None
    else
      assert column == column[..p] + "_" + column[p + 1..];
      Some((column[..p], column[p + 1..]))
  }

  /** The first '_' of `family + "_" + level` is the one after a plain family. */
  lemma {:induction false} SeparatorOfJoin(family: string, level: string)
    requires Plain(family)
    ensures SeparatorIndex(Join(family, level)) == |family|
  {
    if family != [] {
      assert Join(family, level)[1..] == Join(family[1..], level);
      SeparatorOfJoin(family[1..], level);
    }
  }

  /** Splitting undoes joining whenever the family part is plain. */
  lemma SplitJoin(family: string, level: string)
    requires Plain(family)
    ensures Split(Join(family, level)) == Some((family, level))
  {
    var c := Join(family, level);
    SeparatorOfJoin(family, level);
    assert c[..|family|] == family && c[|family| + 1..] == level;
  }

  /** Two indicator names with plain family parts are equal only if both parts are. */
  lemma JoinInjective(f1: string, l1: string, f2: string, l2: string)
    requires Plain(f1) && Plain(f2)
    requires Join(f1, l1) == Join(f2, l2)
    ensures f1 == f2 && l1 == l2
  {
    SplitJoin(f1, l1);
    SplitJoin(f2, l2);
  }

  /** The ten categorical families of the form. */
  datatype Family =
    | MasVnrType | HouseStyle | BsmtQual | BsmtExposure | BsmtFinType1
    | Fireplaces | GarageType | GarageFinish | SaleType | SaleCondition

  /** The prefix of a family's indicator columns. */
  function FamilyName(f: Family): (name: string)
    ensures Plain(name)
  {
    match f
    case MasVnrType => "MasVnrType"
    case HouseStyle => "HouseStyle"
    case BsmtQual => "BsmtQual"
    case BsmtExposure => "BsmtExposure"
    case BsmtFinType1 => "BsmtFinType1"
    case Fireplaces => "Fireplaces"
    case GarageType => "GarageType"
    case GarageFinish => "GarageFinish"
    case SaleType => "SaleType"
    case SaleCondition => "SaleCondition"
  }

  /** The family whose prefix is `name`, if any: the inverse of FamilyName. */
  function FamilyNamed(name: string): (r: Option<Family>)
    ensures r.Some? ==> FamilyName(r.value) == name
  {
    match name
    case "MasVnrType" => Some(MasVnrType)
    case "HouseStyle" => Some(HouseStyle)
    case "BsmtQual" => Some(BsmtQual)
    case "BsmtExposure" => Some(BsmtExposure)
    case "BsmtFinType1" => Some(BsmtFinType1)
    case "Fireplaces" => Some(Fireplaces)
    case "GarageType" => Some(GarageType)
    case "GarageFinish" => Some(GarageFinish)
    case "SaleType" => Some(SaleType)
    case "SaleCondition" => Some(SaleCondition)
    case _ => None
  }

  /** Every family is found again from its prefix, so different families have different prefixes. */
  lemma FamilyNameRoundTrip(f: Family)
    ensures FamilyNamed(FamilyName(f)) == Some(f)
  {
  }

  /** The families in the order their keys are built and their columns appear. */
  function Families(): (fs: seq<Family>)
    ensures Distinct(fs)
  {
    [MasVnrType, HouseStyle, BsmtQual, BsmtExposure, BsmtFinType1,
     Fireplaces, GarageType, GarageFinish, SaleType, SaleCondition]
  }

  /** Every family is one of the ten listed. */
  lemma FamiliesComplete(f: Family)
    ensures f in Families()
  {
    var fs := Families();
    match f
    case MasVnrType => assert fs[0] == f;
    case HouseStyle => assert fs[1] == f;
    case BsmtQual => assert fs[2] == f;
    case BsmtExposure => assert fs[3] == f;
    case BsmtFinType1 => assert fs[4] == f;
    case Fireplaces => assert fs[5] == f;
    case GarageType => assert fs[6] == f;
    case GarageFinish => assert fs[7] == f;
    case SaleType => assert fs[8] == f;
    case SaleCondition => assert fs[9] == f;
  }

  /** The levels of a family that have a schema column, in schema order. */
  function TrainedLevels(f: Family): (levels: seq<string>)
    ensures Distinct(levels)
  {
    match f
    case MasVnrType => ["BrkCmn", "BrkFace", "None", "Stone"]
    case HouseStyle => ["1.5Fin", "1.5Unf", "1Story", "2.5Fin", "2.5Unf", "2Story", "SFoyer", "SLvl"]
    case BsmtQual => ["Ex", "Fa", "Gd", "TA"]
    case BsmtExposure => ["Av", "Gd", "Mn", "No"]
    case BsmtFinType1 => ["ALQ", "BLQ", "GLQ", "LwQ", "Rec", "Unf"]
    case Fireplaces => ["0", "1", "2", "3"]
    case GarageType => ["Attchd", "Detchd", "BuiltIn", "CarPort", "None"]
    case GarageFinish => ["Fin", "RFn", "Unf"]
    case SaleType => ["WD", "New", "COD", "CWD"]
    case SaleCondition => ["Normal", "Partial", "Abnorml"]
  }

  /** The numeric columns, in the order the encoder copies them. */
  function NumericColumns(): (names: seq<string>)
    ensures |names| == 10 && Distinct(names)
    ensures forall c :: c in names ==> Plain(c)
  {
    ["LotFrontage", "LotArea", "MasVnrArea", "BsmtFinSF1", "1stFlrSF",
     "2ndFlrSF", "GarageCars", "GarageArea", "WoodDeckSF", "OpenPorchSF"]
  }

  /** The indicator columns of one family: its prefix joined to each trained level. */
  function Block(f: Family): (cols: seq<string>)
    ensures |cols| == |TrainedLevels(f)|
  {
    seq(|TrainedLevels(f)|, k requires 0 <= k < |TrainedLevels(f)| => Join(FamilyName(f), TrainedLevels(f)[k]))
  }

  /** The indicator columns: the ten family blocks in the order of app.py:27-38. */
  function Indicators(): seq<string> {
    Block(MasVnrType) + Block(HouseStyle) + Block(BsmtQual) + Block(BsmtExposure)
    + Block(BsmtFinType1) + Block(Fireplaces) + Block(GarageType) + Block(GarageFinish)
    + Block(SaleType) + Block(SaleCondition)
  }

  /** The schema: the numeric columns, then the indicator columns. */
  function Features(): seq<string> {
    NumericColumns() + Indicators()
  }

  /** The MasVnrType block, written out as in the `features` literal. */
  lemma MasVnrTypeColumns()
    ensures Block(MasVnrType) == ["MasVnrType_BrkCmn", "MasVnrType_BrkFace", "MasVnrType_None", "MasVnrType_Stone"]
  {
    assert Block(MasVnrType)[0] == Join("MasVnrType", "BrkCmn") == "MasVnrType_BrkCmn";
    assert Block(MasVnrType)[1] == Join("MasVnrType", "BrkFace") == "MasVnrType_BrkFace";
    assert Block(MasVnrType)[2] == Join("MasVnrType", "None") == "MasVnrType_None";
    assert Block(MasVnrType)[3] == Join("MasVnrType", "Stone") == "MasVnrType_Stone";
  }

  /** The HouseStyle block, written out as in the `features` literal. */
  lemma HouseStyleColumns()
    ensures Block(HouseStyle) ==
      ["HouseStyle_1.5Fin", "HouseStyle_1.5Unf", "HouseStyle_1Story", "HouseStyle_2.5Fin",
       "HouseStyle_2.5Unf", "HouseStyle_2Story", "HouseStyle_SFoyer", "HouseStyle_SLvl"]
  {
    assert Block(HouseStyle)[0] == Join("HouseStyle", "1.5Fin") == "HouseStyle_1.5Fin";
    assert Block(HouseStyle)[1] == Join("HouseStyle", "1.5Unf") == "HouseStyle_1.5Unf";
    assert Block(HouseStyle)[2] == Join("HouseStyle", "1Story") == "HouseStyle_1Story";
    assert Block(HouseStyle)[3] == Join("HouseStyle", "2.5Fin") == "HouseStyle_2.5Fin";
    assert Block(HouseStyle)[4] == Join("HouseStyle", "2.5Unf") == "HouseStyle_2.5Unf";
    assert Block(HouseStyle)[5] == Join("HouseStyle", "2Story") == "HouseStyle_2Story";
    assert Block(HouseStyle)[6] == Join("HouseStyle", "SFoyer") == "HouseStyle_SFoyer";
    assert Block(HouseStyle)[7] == Join("HouseStyle", "SLvl") == "HouseStyle_SLvl";
  }

  /** The BsmtQual block, written out as in the `features` literal. */
  lemma BsmtQualColumns()
    ensures Block(BsmtQual) == ["BsmtQual_Ex", "BsmtQual_Fa", "BsmtQual_Gd", "BsmtQual_TA"]
  {
    assert Block(BsmtQual)[0] == Join("BsmtQual", "Ex") == "BsmtQual_Ex";
    assert Block(BsmtQual)[1] == Join("BsmtQual", "Fa") == "BsmtQual_Fa";
    assert Block(BsmtQual)[2] == Join("BsmtQual", "Gd") == "BsmtQual_Gd";
    assert Block(BsmtQual)[3] == Join("BsmtQual", "TA") == "BsmtQual_TA";
  }

  /** The BsmtExposure block, written out as in the `features` literal. */
  lemma BsmtExposureColumns()
    ensures Block(BsmtExposure) == ["BsmtExposure_Av", "BsmtExposure_Gd", "BsmtExposure_Mn", "BsmtExposure_No"]
  {
    assert Block(BsmtExposure)[0] == Join("BsmtExposure", "Av") == "BsmtExposure_Av";
    assert Block(BsmtExposure)[1] == Join("BsmtExposure", "Gd") == "BsmtExposure_Gd";
    assert Block(BsmtExposure)[2] == Join("BsmtExposure", "Mn") == "BsmtExposure_Mn";
    assert Block(BsmtExposure)[3] == Join("BsmtExposure", "No") == "BsmtExposure_No";
  }

  /** The BsmtFinType1 block, written out as in the `features` literal. */
  lemma BsmtFinType1Columns()
    ensures Block(BsmtFinType1) ==
      ["BsmtFinType1_ALQ", "BsmtFinType1_BLQ", "BsmtFinType1_GLQ", "BsmtFinType1_LwQ",
       "BsmtFinType1_Rec", "BsmtFinType1_Unf"]
  {
    assert Block(BsmtFinType1)[0] == Join("BsmtFinType1", "ALQ") == "BsmtFinType1_ALQ";
    assert Block(BsmtFinType1)[1] == Join("BsmtFinType1", "BLQ") == "BsmtFinType1_BLQ";
    assert Block(BsmtFinType1)[2] == Join("BsmtFinType1", "GLQ") == "BsmtFinType1_GLQ";
    assert Block(BsmtFinType1)[3] == Join("BsmtFinType1", "LwQ") == "BsmtFinType1_LwQ";
    assert Block(BsmtFinType1)[4] == Join("BsmtFinType1", "Rec") == "BsmtFinType1_Rec";
    assert Block(BsmtFinType1)[5] == Join("BsmtFinType1", "Unf") == "BsmtFinType1_Unf";
  }

  /** The Fireplaces block, written out as in the `features` literal. */
  lemma FireplacesColumns()
    ensures Block(Fireplaces) == ["Fireplaces_0", "Fireplaces_1", "Fireplaces_2", "Fireplaces_3"]
  {
    assert Block(Fireplaces)[0] == Join("Fireplaces", "0") == "Fireplaces_0";
    assert Block(Fireplaces)[1] == Join("Fireplaces", "1") == "Fireplaces_1";
    assert Block(Fireplaces)[2] == Join("Fireplaces", "2") == "Fireplaces_2";
    assert Block(Fireplaces)[3] == Join("Fireplaces", "3") == "Fireplaces_3";
  }

  /** The GarageType block, written out as in the `features` literal. */
  lemma GarageTypeColumns()
    ensures Block(GarageType) ==
      ["GarageType_Attchd", "GarageType_Detchd", "GarageType_BuiltIn", "GarageType_CarPort",
       "GarageType_None"]
  {
    assert Block(GarageType)[0] == Join("GarageType", "Attchd") == "GarageType_Attchd";
    assert Block(GarageType)[1] == Join("GarageType", "Detchd") == "GarageType_Detchd";
    assert Block(GarageType)[2] == Join("GarageType", "BuiltIn") == "GarageType_BuiltIn";
    assert Block(GarageType)[3] == Join("GarageType", "CarPort") == "GarageType_CarPort";
    assert Block(GarageType)[4] == Join("GarageType", "None") == "GarageType_None";
  }

  /** The GarageFinish block, written out as in the `features` literal. */
  lemma GarageFinishColumns()
    ensures Block(GarageFinish) == ["GarageFinish_Fin", "GarageFinish_RFn", "GarageFinish_Unf"]
  {
    assert Block(GarageFinish)[0] == Join("GarageFinish", "Fin") == "GarageFinish_Fin";
    assert Block(GarageFinish)[1] == Join("GarageFinish", "RFn") == "GarageFinish_RFn";
    assert Block(GarageFinish)[2] == Join("GarageFinish", "Unf") == "GarageFinish_Unf";
  }

  /** The SaleType block, written out as in the `features` literal. */
  lemma SaleTypeColumns()
    ensures Block(SaleType) == ["SaleType_WD", "SaleType_New", "SaleType_COD", "SaleType_CWD"]
  {
    assert Block(SaleType)[0] == Join("SaleType", "WD") == "SaleType_WD";
    assert Block(SaleType)[1] == Join("SaleType", "New") == "SaleType_New";
    assert Block(SaleType)[2] == Join("SaleType", "COD") == "SaleType_COD";
    assert Block(SaleType)[3] == Join("SaleType", "CWD") == "SaleType_CWD";
  }

  /** The SaleCondition block, written out as in the `features` literal. */
  lemma SaleConditionColumns()
    ensures Block(SaleCondition) == ["SaleCondition_Normal", "SaleCondition_Partial", "SaleCondition_Abnorml"]
  {
    assert Block(SaleCondition)[0] == Join("SaleCondition", "Normal") == "SaleCondition_Normal";
    assert Block(SaleCondition)[1] == Join("SaleCondition", "Partial") == "SaleCondition_Partial";
    assert Block(SaleCondition)[2] == Join("SaleCondition", "Abnorml") == "SaleCondition_Abnorml";
  }

  /** The schema, written out entry for entry as the `features` list literal. */
  lemma FeaturesLiteral()
    ensures Features() ==
      ["LotFrontage", "LotArea", "MasVnrArea", "BsmtFinSF1", "1stFlrSF",
       "2ndFlrSF", "GarageCars", "GarageArea", "WoodDeckSF", "OpenPorchSF"]
      + ["MasVnrType_BrkCmn", "MasVnrType_BrkFace", "MasVnrType_None", "MasVnrType_Stone"]
      + ["HouseStyle_1.5Fin", "HouseStyle_1.5Unf", "HouseStyle_1Story", "HouseStyle_2.5Fin",
         "HouseStyle_2.5Unf", "HouseStyle_2Story", "HouseStyle_SFoyer", "HouseStyle_SLvl"]
      + ["BsmtQual_Ex", "BsmtQual_Fa", "BsmtQual_Gd", "BsmtQual_TA"]
      + ["BsmtExposure_Av", "BsmtExposure_Gd", "BsmtExposure_Mn", "BsmtExposure_No"]
      + ["BsmtFinType1_ALQ", "BsmtFinType1_BLQ", "BsmtFinType1_GLQ", "BsmtFinType1_LwQ",
         "BsmtFinType1_Rec", "BsmtFinType1_Unf"]
      + ["Fireplaces_0", "Fireplaces_1", "Fireplaces_2", "Fireplaces_3"]
      + ["GarageType_Attchd", "GarageType_Detchd", "GarageType_BuiltIn", "GarageType_CarPort",
         "GarageType_None"]
      + ["GarageFinish_Fin", "GarageFinish_RFn", "GarageFinish_Unf"]
      + ["SaleType_WD", "SaleType_New", "SaleType_COD", "SaleType_CWD"]
      + ["SaleCondition_Normal", "SaleCondition_Partial", "SaleCondition_Abnorml"]
  {
    MasVnrTypeColumns();
    HouseStyleColumns();
    BsmtQualColumns();
    BsmtExposureColumns();
    BsmtFinType1Columns();
    FireplacesColumns();
    GarageTypeColumns();
    GarageFinishColumns();
    SaleTypeColumns();
    SaleConditionColumns();
  }

  /** The family a column name belongs to: the family whose prefix precedes its first '_'. */
  function ColumnFamily(column: string): (r: Option<Family>)
    ensures r.Some? ==> !Plain(column)
  {
    match Split(column)
    case None => None
    case Some((family, _)) => FamilyNamed(family)
  }

  /** `column` is the indicator of one of the trained levels of `f`. */
  predicate IsColumnOf(column: string, f: Family) {
    ColumnFamily(column) == Some(f) && Split(column).value.1 in TrainedLevels(f)
  }

  /** `column` is the indicator of a trained level of the family it names. */
  predicate IsIndicator(column: string) {
    ColumnFamily(column).Some? && IsColumnOf(column, ColumnFamily(column).value)
  }

  /** The columns of a family's block are exactly the columns of that family, each once. */
  lemma BlockMembers(f: Family)
    ensures Distinct(Block(f))
    ensures forall column :: column in Block(f) <==> IsColumnOf(column, f)
  {
    var name, levels := FamilyName(f), TrainedLevels(f);
    FamilyNameRoundTrip(f);
    forall i, j | 0 <= i < j < |levels|
      ensures Block(f)[i] != Block(f)[j]
    {
      if Block(f)[i] == Block(f)[j] {
        JoinInjective(name, levels[i], name, levels[j]);
      }
    }
    forall column
      ensures column in Block(f) <==> IsColumnOf(column, f)
    {
      if column in Block(f) {
        var k :| 0 <= k < |levels| && Block(f)[k] == column;
        SplitJoin(name, levels[k]);
      }
      if IsColumnOf(column, f) {
        var family, level := Split(column).value.0, Split(column).value.1;
        var k :| 0 <= k < |levels| && levels[k] == level;
        assert Block(f)[k] == column;
      }
    }
  }

  /** Joining two sequences without common elements keeps them free of repeats. */
  lemma DistinctAppend<T>(a: seq<T>, b: seq<T>)
    requires Distinct(a) && Distinct(b)
    requires forall x :: x in a ==> x !in b
    ensures Distinct(a + b)
  {
    forall i, j | 0 <= i < j < |a + b|
      ensures (a + b)[i] != (a + b)[j]
    {
      if j >= |a| && i < |a| {
        assert (a + b)[i] in a && (a + b)[j] in b;
      }
    }
  }

  /** Indicator columns, without repeats, all of families in `seen`. */
  predicate IndicatorsOf(columns: seq<string>, seen: set<Family>) {
    && Distinct(columns)
    && forall x :: x in columns ==> IsIndicator(x) && ColumnFamily(x).value in seen
  }

  /** Appending the block of a family not seen yet keeps the columns free of repeats. */
  lemma ExtendIndicators(prefix: seq<string>, seen: set<Family>, f: Family)
    requires IndicatorsOf(prefix, seen) && f !in seen
    ensures IndicatorsOf(prefix + Block(f), seen + {f})
  {
    BlockMembers(f);
    DistinctAppend(prefix, Block(f));
  }

  /** The indicator columns are well formed and none is listed twice. */
  lemma IndicatorsWellFormed()
    ensures Distinct(Indicators())
    ensures forall x :: x in Indicators() ==> IsIndicator(x)
  {
    BlockMembers(MasVnrType);
    var p := Block(MasVnrType);
    ExtendIndicators(p, {MasVnrType}, HouseStyle);
    p := p + Block(HouseStyle);
    ExtendIndicators(p, {MasVnrType, HouseStyle}, BsmtQual);
    p := p + Block(BsmtQual);
    ExtendIndicators(p, {MasVnrType, HouseStyle, BsmtQual}, BsmtExposure);
    p := p + Block(BsmtExposure);
    ExtendIndicators(p, {MasVnrType, HouseStyle, BsmtQual, BsmtExposure}, BsmtFinType1);
    p := p + Block(BsmtFinType1);
    ExtendIndicators(p, {MasVnrType, HouseStyle, BsmtQual, BsmtExposure, BsmtFinType1}, Fireplaces);
    p := p + Block(Fireplaces);
    ExtendIndicators(p, {MasVnrType, HouseStyle, BsmtQual, BsmtExposure, BsmtFinType1, Fireplaces}, GarageType);
    p := p + Block(GarageType);
    ExtendIndicators(p, {MasVnrType, HouseStyle, BsmtQual, BsmtExposure, BsmtFinType1, Fireplaces,
                         GarageType}, GarageFinish);
    p := p + Block(GarageFinish);
    ExtendIndicators(p, {MasVnrType, HouseStyle, BsmtQual, BsmtExposure, BsmtFinType1, Fireplaces,
                         GarageType, GarageFinish}, SaleType);
    p := p + Block(SaleType);
    ExtendIndicators(p, {MasVnrType, HouseStyle, BsmtQual, BsmtExposure, BsmtFinType1, Fireplaces,
                         GarageType, GarageFinish, SaleType}, SaleCondition);
  }

  /** Every block is part of the indicator columns. */
  lemma BlockInIndicators(f: Family, column: string)
    requires column in Block(f)
    ensures column in Indicators()
  {
    match f
    case MasVnrType =>
    case HouseStyle =>
    case BsmtQual =>
    case BsmtExposure =>
    case BsmtFinType1 =>
    case Fireplaces =>
    case GarageType =>
    case GarageFinish =>
    case SaleType =>
    case SaleCondition =>
  }

  /** The indicator of every trained level of every family is an indicator column. */
  lemma TrainedLevelColumn(f: Family, level: string)
    requires level in TrainedLevels(f)
    ensures Join(FamilyName(f), level) in Indicators()
  {
    var k :| 0 <= k < |TrainedLevels(f)| && TrainedLevels(f)[k] == level;
    assert Block(f)[k] == Join(FamilyName(f), level);
    BlockInIndicators(f, Join(FamilyName(f), level));
  }

  /** No column name is listed twice. */
  lemma FeaturesDistinct()
    ensures Distinct(Features())
  {
    IndicatorsWellFormed();
    DistinctAppend(NumericColumns(), Indicators());
  }

  /**
   * The schema has 55 columns, none listed twice: the ten numeric columns
   * first, in the order the encoder copies them, then 45 indicator columns.
   */
  lemma FeatureLayout()
    ensures |Features()| == 55 && Distinct(Features())
    ensures Features()[..10] == NumericColumns() && Features()[10..] == Indicators()
  {
    FeaturesDistinct();
  }

  /**
   * The columns after the ten numeric ones are exactly the names
   * `Family_level` of a family and a level trained for it.
   */
  lemma IndicatorColumns()
    ensures forall i :: 10 <= i < |Features()| ==> IsIndicator(Features()[i])
    ensures forall f, level :: level in TrainedLevels(f) ==> Join(FamilyName(f), level) in Features()[10..]
  {
    IndicatorsWellFormed();
    FeatureLayout();
    forall i | 10 <= i < |Features()|
      ensures IsIndicator(Features()[i])
    {
      assert Features()[i] == Indicators()[i - 10];
    }
    forall f, level | level in TrainedLevels(f)
      ensures Join(FamilyName(f), level) in Features()[10..]
    {
      TrainedLevelColumn(f, level);
    }
  }
}
