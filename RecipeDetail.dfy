/** The recipe detail modal: a form loaded from a recipe, saved back as one update of the
  * recipe's row, with an optional new entry for the recipe's arrangement log. The database
  * client, its reply, the confirmation dialog and today's ISO date are parameters. */
module RecipeDetail {
  import opened Wrappers
  import opened SeqUtil
  import opened Strings
  import opened MealTypes

  const ErrorPrefix := "エラーが発生しました: "
  const DeleteFailed := "削除に失敗しました"

  /** The values of the form's inputs. */
  datatype FormFields = FormFields(
    name: string,
    url: string,
    category: Category,
    memo: string,
    rating: int,
    frequency: Frequency,
    workDuration: int,
    ingredients: string,
    isHibernating: bool)

  /** The form before any recipe is loaded. */
  const EmptyForm := FormFields("", "", MainDish, "", 3, NoFrequency, 0, "", false)

  /** The ingredients textarea: one ingredient per line. */
  function IngredientsText(ingredients: Option<seq<string>>): (t: string)
    ensures ingredients.None? ==> t == ""
    ensures ingredients.Some? ==> t == Join(ingredients.value, "\n")
  {
    if ingredients.Some? then Join(ingredients.value, "\n") else ""
  }

  /** The form for a recipe: each missing (or falsy) field takes its default, url and memo '',
    * category main, rating 3, frequency none, duration 0, not hibernating. */
  function LoadedFields(r: Recipe): (f: FormFields)
    ensures f.name == r.name && f.ingredients == IngredientsText(r.ingredients)
    ensures f.url == OptOrStr(r.url, "") && f.memo == OptOrStr(r.memo, "")
    ensures f.category == (if r.category.Some? then r.category.value else MainDish)
    ensures f.rating == OrInt(r.rating, 3) && f.workDuration == OrInt(r.workDuration, 0)
    ensures f.frequency == (if r.frequency.Some? then r.frequency.value else NoFrequency)
    ensures f.isHibernating == (r.isHibernating == Some(true))
  {
    FormFields(
      r.name,
      OptOrStr(r.url, ""),
      r.category.GetOr(MainDish),
      OptOrStr(r.memo, ""),
      OrInt(r.rating, 3),
      r.frequency.GetOr(NoFrequency),
      OrInt(r.workDuration, 0),
      IngredientsText(r.ingredients),
      r.isHibernating.GetOr(false))
  }

  predicate NotBlank(line: string) {
    Trim(line) != ""
  }

  /** The saved ingredients: the lines of the textarea that are not blank, in order. */
  function SplitLines(text: string): (r: seq<string>)
    ensures forall i :: 0 <= i < |r| ==> NotBlank(r[i]) && '\n' !in r[i]
    ensures forall i :: 0 <= i < |r| ==> r[i] in Split(text, '\n')
    ensures forall line :: line in Split(text, '\n') && NotBlank(line) ==> line in r
  {
    Filter(Split(text, '\n'), NotBlank)
  }

  /** Loading a list into the textarea and saving it gives the list back, as long as no
    * ingredient is blank or spans lines. */
  lemma IngredientsRoundTrip(list: seq<string>)
    requires forall i :: 0 <= i < |list| ==> NotBlank(list[i]) && '\n' !in list[i]
    ensures SplitLines(IngredientsText(Some(list))) == list
  {
    if list == [] {
      assert Split("", '\n') == [""];
      assert !NotBlank("");
    } else {
      SplitJoin(list, '\n');
      FilterAll(list, NotBlank);
    }
  }

  /** A blank ingredient is lost on the way back. */
  lemma BlankIngredientDropped()
    ensures SplitLines(IngredientsText(Some(["egg", " "]))) == ["egg"]
  {
    var list := ["egg", " "];
    assert '\n' !in list[0] && '\n' !in list[1];
    SplitJoin(list, '\n');
    assert Trim(" ") == "" by {
      assert LeadingSpace(" ") == 1;
    }
    assert Trim("egg") == "egg" by {
      TrimOfTrimmed("egg");
    }
  }

  /** The arrangement log after a save: the trimmed new text, dated today, is appended when it
    * is not blank; the entries already there keep their order. */
  function AppendedLog(entries: seq<Arrangement>, today: string, text: string): (r: seq<Arrangement>)
    ensures |r| == |entries| || |r| == |entries| + 1
    ensures |r| == |entries| + 1 <==> Trim(text) != ""
    ensures r[..|entries|] == entries
    ensures |r| == |entries| + 1 ==> r[|entries|] == Arrangement(today, Trim(text))
  {
    if Trim(text) != "" then entries + [Arrangement(today, Trim(text))] else entries
  }

  /** The row written by a save. */
  datatype RecipeUpdate = RecipeUpdate(
    id: string,
    name: string,
    url: string,
    category: Category,
    memo: string,
    rating: int,
    frequency: Frequency,
    workDuration: int,
    ingredients: seq<string>,
    arrangements: seq<Arrangement>,
    isHibernating: bool)

  function UpdateOf(id: string, f: FormFields, arrangements: seq<Arrangement>): (u: RecipeUpdate)
    ensures u.id == id && u.arrangements == arrangements && u.ingredients == SplitLines(f.ingredients)
    ensures u.name == f.name && u.url == f.url && u.category == f.category && u.memo == f.memo
    ensures u.rating == f.rating && u.frequency == f.frequency && u.workDuration == f.workDuration
    ensures u.isHibernating == f.isHibernating
  {
    RecipeUpdate(id, f.name, f.url, f.category, f.memo, f.rating, f.frequency, f.workDuration,
                 SplitLines(f.ingredients), arrangements, f.isHibernating)
  }

  /** The log a recipe had before the save: its array's entries, or none. */
  function EntriesOf(r: Recipe): seq<Arrangement>
    reads if r.arrangements.Some? then {r.arrangements.value} else {}
  {
    if r.arrangements.Some? then r.arrangements.value.entries else []
  }

  /** A recipe with none of the optional fields loads as the empty form with its name. */
  lemma LoadBareRecipe(r: Recipe)
    requires r.url.None? && r.memo.None? && r.category.None? && r.rating.None? && r.frequency.None?
    requires r.workDuration.None? && r.ingredients.None? && r.isHibernating.None?
    ensures LoadedFields(r) == EmptyForm.(name := r.name)
  {
  }

  /** Loading a recipe and saving the form unedited writes back the recipe's own values, when
    * each is present and truthy and the ingredients survive the textarea. */
  lemma LoadThenSave(r: Recipe, arrangements: seq<Arrangement>)
    requires r.url.Some? && r.url.value != "" && r.memo.Some? && r.memo.value != ""
    requires r.category.Some? && r.frequency.Some? && r.isHibernating.Some?
    requires r.rating.Some? && r.rating.value != 0 && r.workDuration.Some? && r.workDuration.value != 0
    requires r.ingredients.Some?
    requires forall i :: 0 <= i < |r.ingredients.value| ==> NotBlank(r.ingredients.value[i]) && '\n' !in r.ingredients.value[i]
    ensures var u := UpdateOf(r.id, LoadedFields(r), arrangements);
      u.id == r.id && u.name == r.name && u.url == r.url.value && u.memo == r.memo.value
      && u.category == r.category.value && u.frequency == r.frequency.value
      && u.rating == r.rating.value && u.workDuration == r.workDuration.value
      && u.isHibernating == r.isHibernating.value && u.ingredients == r.ingredients.value
  {
    IngredientsRoundTrip(r.ingredients.value);
  }

  /** The arrays a save of `recipe` may push onto. */
  function LogsOf(recipe: Option<Recipe>): set<ArrangementLog> {
    if recipe.Some? && recipe.value.arrangements.Some? then {recipe.value.arrangements.value} else {}
  }

  class DetailModal {
    var form: FormFields
    var newArrangement: string
    var loading: bool

    constructor()
      ensures form == EmptyForm && newArrangement == "" && !loading
    {
      form := EmptyForm;
      newArrangement := "";
      loading := false;
    }

    /** The effect on a new recipe: a recipe fills the form, none leaves it as it was. The
      * arrangement input is not touched. */
    method Load(recipe: Option<Recipe>)
      modifies this
      ensures recipe.Some? ==> form == LoadedFields(recipe.value)
      ensures recipe.None? ==> form == old(form)
      ensures newArrangement == old(newArrangement) && loading == old(loading)
    {
      if recipe.Some? {
        form := LoadedFields(recipe.value);
      }
    }

    /** Typing into the form. */
    method Edit(f: FormFields, arrangement: string)
      modifies this
      ensures form == f && newArrangement == arrangement && loading == old(loading)
    {
      form := f;
      newArrangement := arrangement;
    }

    /** `handleSubmit`. Without a client or a recipe nothing happens. Otherwise the new entry is
      * pushed onto the recipe's own log array when it has one, so the caller's recipe changes
      * even when the update then fails; the update carries the form and the log. `dbError` is
      * the database's reply. On success the modal closes and the input is cleared; on failure an
      * alert is raised. */
    method Submit(hasClient: bool, recipe: Option<Recipe>, today: string, dbError: Option<string>)
      returns (update: Option<RecipeUpdate>, alert: Option<string>, closed: bool)
      modifies this, LogsOf(recipe)
      ensures !hasClient || recipe.None? ==>
        update.None? && alert.None? && !closed && unchanged(this) && unchanged(LogsOf(recipe))
      ensures hasClient && recipe.Some? ==>
        var r := recipe.value;
        var log := AppendedLog(old(EntriesOf(r)), today, old(newArrangement));
        update == Some(UpdateOf(r.id, old(form), log))
        && (r.arrangements.Some? ==> r.arrangements.value.entries == log)
        && form == old(form) && !loading
        && (dbError.Some? ==> alert == Some(ErrorPrefix + dbError.value) && !closed
                               && newArrangement == old(newArrangement))
        && (dbError.None? ==> alert.None? && closed && newArrangement == "")
    {
      update, alert, closed := None, None, false;
      if !hasClient || recipe.None? {
        return;
      }
      var r := recipe.value;
      loading := true;
      var text := Trim(newArrangement);
      var log: seq<Arrangement>;
      if r.arrangements.Some? {
        var shared := r.arrangements.value;
        if text != "" {
          shared.entries := shared.entries + [Arrangement(today, text)];
        }
        log := shared.entries;
      } else {
        log := if text != "" then [Arrangement(today, text)] else [];
      }
      update := Some(UpdateOf(r.id, form, log));
      loading := false;
      if dbError.Some? {
        alert := Some(ErrorPrefix + dbError.value);
      } else {
        closed := true;
        newArrangement := "";
      }
    }

    /** `handleDelete`: without a client or a recipe, or when the user does not confirm, nothing
      * happens; otherwise the recipe's id is deleted and the modal closes, or an alert is raised
      * when the database reports an error. */
    method Delete(hasClient: bool, recipe: Option<Recipe>, confirmed: bool, dbError: bool)
      returns (deleted: Option<string>, alert: Option<string>, closed: bool)
      modifies this
      ensures deleted.Some? <==> hasClient && recipe.Some? && confirmed
      ensures deleted.Some? ==> deleted.value == recipe.value.id && !loading
      ensures closed <==> deleted.Some? && !dbError
      ensures alert.Some? <==> deleted.Some? && dbError
      ensures alert.Some? ==> alert.value == DeleteFailed
      ensures deleted.None? ==> loading == old(loading)
      ensures form == old(form) && newArrangement == old(newArrangement)
    {
      deleted, alert, closed := None, None, false;
      if !hasClient || recipe.None? {
        return;
      }
      if !confirmed {
        return;
      }
      loading := true;
      deleted := Some(recipe.value.id);
      loading := false;
      if dbError {
        alert := Some(DeleteFailed);
      } else {
        closed := true;
      }
    }
  }

  /** Saving twice with the same input appends the entry twice: the log only grows. */
  lemma AppendedTwice(entries: seq<Arrangement>, today: string, text: string)
    requires Trim(text) != ""
    ensures var twice := AppendedLog(AppendedLog(entries, today, text), today, text);
      |twice| == |entries| + 2 && twice[..|entries|] == entries
  {
    var once := AppendedLog(entries, today, text);
    assert once[..|entries|] == entries;
    var twice := AppendedLog(once, today, text);
    assert twice[..|once|] == once;
    assert twice[..|entries|] == once[..|entries|];
  }
}
