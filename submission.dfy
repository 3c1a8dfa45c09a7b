/**
 * What happens on submit (app.py:102-131): the form's numeric inputs and
 * the keys built from the ten selectors go through `preprocess_input`.
 * For offered selections the row is one-hot within every family.
 */
module Submission {
  import opened Schema
  import opened Selectors
  import opened Encoder

  /** A form row whose key list is the one built from the selection `sel`. */
  predicate SubmittedWith(input: FormInput, sel: Selection) {
    input.categoricalFeatures == CategoricalKeys(sel)
  }

  /** Submitted keys never name a numeric column, so the numeric cells are the numeric inputs. */
  lemma SubmittedNumericCells(input: FormInput, sel: Selection)
    requires SubmittedWith(input, sel)
    ensures forall k :: 0 <= k < 10 ==> Encode(input)[k] == NumericValue(input, NumericColumns()[k])
  {
    KeysWellFormed(sel);
    NumericCells(input);
  }

  /** A column of family `f` is named by a submitted key exactly when it is the chosen level's column. */
  lemma FamilyColumnNamed(sel: Selection, f: Family, column: string)
    requires IsColumnOf(column, f)
    ensures column in CategoricalKeys(sel) <==> column == Join(FamilyName(f), SelectedLevel(sel, f))
  {
    var level := Split(column).value.1;
    assert column == Join(FamilyName(f), level);
    KeyOfFamily(sel, f, level);
  }

  /** For an offered selection the chosen level of `f` has an indicator column. */
  lemma ChosenColumn(sel: Selection, f: Family) returns (i: nat)
    requires Offered(sel)
    ensures 10 <= i < |Features()| && Features()[i] == Join(FamilyName(f), SelectedLevel(sel, f))
    ensures IsColumnOf(Features()[i], f)
  {
    var level := SelectedLevel(sel, f);
    var chosen := Join(FamilyName(f), level);
    OfferedLevelTrained(sel, f);
    TrainedLevelColumn(f, level);
    FeatureLayout();
    var j :| 0 <= j < |Indicators()| && Indicators()[j] == chosen;
    i := 10 + j;
    SplitJoin(FamilyName(f), level);
    FamilyNameRoundTrip(f);
  }

  /**
   * For an offered selection, among the columns of family `f` exactly the
   * column of the chosen level holds 1.
   */
  lemma OneHotPerFamily(input: FormInput, sel: Selection, f: Family)
    requires Offered(sel) && SubmittedWith(input, sel)
    ensures forall i :: 10 <= i < |Features()| && IsColumnOf(Features()[i], f) ==>
      (Encode(input)[i] == 1 <==> Features()[i] == Join(FamilyName(f), SelectedLevel(sel, f)))
    ensures exists i :: 10 <= i < |Features()| && IsColumnOf(Features()[i], f) && Encode(input)[i] == 1
  {
    IndicatorCells(input);
    forall i | 10 <= i < |Features()| && IsColumnOf(Features()[i], f)
      ensures Encode(input)[i] == 1 <==> Features()[i] == Join(FamilyName(f), SelectedLevel(sel, f))
    {
      FamilyColumnNamed(sel, f, Features()[i]);
    }
    var i := ChosenColumn(sel, f);
    FamilyColumnNamed(sel, f, Features()[i]);
  }

  /** A sequence without repeats has as many distinct elements as entries. */
  lemma {:induction false} DistinctCardinality<T>(s: seq<T>)
    requires Distinct(s)
    ensures |set x | x in s| == |s|
  {
    if s != [] {
      var n := |s| - 1;
      assert Distinct(s[..n]) by {
        forall i, j | 0 <= i < j < n ensures s[..n][i] != s[..n][j] {
          assert s[..n][i] == s[i] && s[..n][j] == s[j];
        }
      }
      DistinctCardinality(s[..n]);
      assert s == s[..n] + [s[n]];
      assert (set x | x in s) == (set x | x in s[..n]) + {s[n]};
    }
  }

  /** When every key is one of `columns`, the columns some key names are just the keys. */
  lemma NamedColumnsAllKeys(columns: seq<string>, keys: seq<string>)
    requires forall key :: key in keys ==> key in columns
    ensures (set c | c in columns && c in keys) == set c | c in keys
  {
  }

  /** For an offered selection exactly ten indicator cells hold 1, one per family. */
  lemma TenIndicatorOnes(input: FormInput, sel: Selection)
    requires Offered(sel) && SubmittedWith(input, sel)
    ensures Ones(Encode(input)[10..]) == 10
  {
    var keys := CategoricalKeys(sel);
    FeatureLayout();
    IndicatorsWellFormed();
    assert Encode(input)[10..] == Row(input, Indicators());
    OnesCountNamedColumns(input, Indicators());
    OfferedKeysInSchema(sel);
    NamedColumnsAllKeys(Indicators(), keys);
    KeysWellFormed(sel);
    DistinctCardinality(keys);
  }
}
