/** The recipe generator: each data row of `recipe.csv` becomes one recipe file
    holding a single record keyed by the recipe's title. The rows are given as
    the CSV reader yields them (a list of fields each). */
module RecipeCsv {
  import opened Base
  import opened Text

  /** The separator between ingredients, and between steps, inside one field. */
  const ListSeparator: string := " | "
  const PlaceholderImage: string := "images/placeholder.jpg"

  type Row = seq<string>

  /** The record written for one recipe. */
  datatype Recipe = Recipe(
    image: string,
    title: string,
    category: string,
    time: string,
    likes: string,
    ingredients: seq<string>,
    condiments: seq<string>,
    steps: seq<string>)

  /** One recipe file: `{ key: record }`. */
  datatype RecipeFile = RecipeFile(key: string, recipe: Recipe)

  /** `row[i].split(' | ') if len(row) > i else []`. */
  function ListField(row: Row, i: nat): (parts: seq<string>)
    ensures |row| <= i ==> parts == []
    ensures |row| > i ==> |parts| >= 1 && Join(parts, ListSeparator) == row[i]
  {
    if |row| > i then
      JoinSplit(row[i], ListSeparator);
      Split(row[i], ListSeparator)
    else []
  }

  /** An empty field is one empty item, not an empty list. */
  lemma EmptyFieldIsOneEmptyItem(row: Row, i: nat)
    requires |row| > i && row[i] == ""
    ensures ListField(row, i) == [""]
  {
  }

  /** A field without the separator is a single item. */
  lemma {:induction false} FieldWithoutSeparator(s: string)
    requires !Contains(s, ListSeparator)
    ensures Split(s, ListSeparator) == [s]
    decreases |s|
  {
    if |s| >= |ListSeparator| {
      assert !OccursAt(s, ListSeparator, 0);
      var rest := s[1..];
      forall k | 0 <= k <= |rest| - |ListSeparator|
        ensures !OccursAt(rest, ListSeparator, k)
      {
        assert rest[k..k + |ListSeparator|] == s[k + 1..k + 1 + |ListSeparator|];
        assert !OccursAt(s, ListSeparator, k + 1);
      }
      FieldWithoutSeparator(rest);
      assert s == [s[0]] + rest;
    }
  }

  /** The record for one data row, or `None` when the row is empty and
      `row[0]` raises `IndexError`. */
  function ConvertRow(row: Row): (r: Option<RecipeFile>)
    ensures r.None? <==> row == []
    ensures r.Some? ==> r.value.key == row[0] && r.value.recipe.title == row[0]
    ensures r.Some? ==> r.value.recipe.category == (if |row| > 1 then row[1] else "")
    ensures r.Some? ==> r.value.recipe.ingredients == ListField(row, 2) && r.value.recipe.steps == ListField(row, 3)
    ensures r.Some? ==> r.value.recipe.image == PlaceholderImage && r.value.recipe.time == "60min"
                        && r.value.recipe.likes == "100+" && r.value.recipe.condiments == []
  {
    if row == [] then None
    else
      var ingredients := ListField(row, 2);
      var steps := ListField(row, 3);
      Some(RecipeFile(row[0], Recipe(
        PlaceholderImage, row[0], if |row| > 1 then row[1] else "",
        "60min", "100+", ingredients, [], steps)))
  }

  /** A full row keeps its ingredient and step fields exactly: joining the lists
      with the separator gives the CSV fields back. */
  lemma FullRowRoundTrip(row: Row)
    requires |row| >= 4
    ensures ConvertRow(row).Some?
    ensures Join(ConvertRow(row).value.recipe.ingredients, ListSeparator) == row[2]
    ensures Join(ConvertRow(row).value.recipe.steps, ListSeparator) == row[3]
    ensures ConvertRow(row).value.recipe.category == row[1]
  {
  }

  /** A row holding only a title gets an empty category and empty lists. */
  lemma TitleOnlyRow(title: string)
    ensures ConvertRow([title]) == Some(RecipeFile(title, Recipe(PlaceholderImage, title, "", "60min", "100+", [], [], [])))
  {
  }

  /** The written record as the JSON object `json.dump` receives. */
  function FileJson(f: RecipeFile): (j: Json)
    ensures j.JObj? && j.fields.Keys == {f.key}
    ensures j.fields[f.key].JObj?
    ensures j.fields[f.key].fields.Keys
            == {"image", "title", "category", "time", "likes", "ingredients", "condiments", "steps"}
  {
    var r := f.recipe;
    JObj(map[f.key := JObj(map[
      "image" := JStr(r.image),
      "title" := JStr(r.title),
      "category" := JStr(r.category),
      "time" := JStr(r.time),
      "likes" := JStr(r.likes),
      "ingredients" := JArr(Strs(r.ingredients)),
      "condiments" := JArr(Strs(r.condiments)),
      "steps" := JArr(Strs(r.steps))
    ])])
  }

  /** How a run ends: after the last row, or on an exception that stops it. */
  datatype Stop = Finished | StopIteration | IndexError

  /** What a run leaves behind: the files written, in row order, and how it ended. */
  datatype Run = Run(written: seq<RecipeFile>, stop: Stop)

  /** Converting the data rows in order until one of them is empty. */
  function ConvertRows(rows: seq<Row>): (run: Run)
    ensures run.stop == Finished || run.stop == IndexError
    ensures |run.written| <= |rows|
  {
    if rows == [] then Run([], Finished)
    else match ConvertRow(rows[0])
      case None => Run([], IndexError)
      case Some(f) =>
        var rest := ConvertRows(rows[1..]);
        Run([f] + rest.written, rest.stop)
  }

  /** `generate_recipe_json`: the header row is skipped (an empty file has none
      and `next` raises `StopIteration`), then every data row is converted. */
  function Generate(rows: seq<Row>): (run: Run)
    ensures rows == [] ==> run == Run([], StopIteration)
    ensures rows != [] ==> run == ConvertRows(rows[1..])
  {
    if rows == [] then Run([], StopIteration) else ConvertRows(rows[1..])
  }

  /** Without empty rows there is exactly one file per data row, in order, each
      the conversion of its row. */
  lemma {:induction false} OneFilePerRow(rows: seq<Row>)
    requires forall k | 0 <= k < |rows| :: rows[k] != []
    ensures ConvertRows(rows).stop == Finished
    ensures |ConvertRows(rows).written| == |rows|
    ensures forall k | 0 <= k < |rows| :: Some(ConvertRows(rows).written[k]) == ConvertRow(rows[k])
  {
    if rows != [] {
      OneFilePerRow(rows[1..]);
      var rest := ConvertRows(rows[1..]);
      assert ConvertRows(rows).written == [ConvertRow(rows[0]).value] + rest.written;
      forall k | 0 <= k < |rows|
        ensures Some(ConvertRows(rows).written[k]) == ConvertRow(rows[k])
      {
        if k > 0 {
          assert rows[k] == rows[1..][k - 1];
        }
      }
    }
  }

  /** The first empty row stops the run with `IndexError`; the rows before it
      have been written. */
  lemma {:induction false} EmptyRowStops(rows: seq<Row>, j: nat)
    requires j < |rows| && rows[j] == []
    requires forall k | 0 <= k < j :: rows[k] != []
    ensures ConvertRows(rows).stop == IndexError
    ensures |ConvertRows(rows).written| == j
    ensures forall k | 0 <= k < j :: Some(ConvertRows(rows).written[k]) == ConvertRow(rows[k])
  {
    if j > 0 {
      EmptyRowStops(rows[1..], j - 1);
      var rest := ConvertRows(rows[1..]);
      assert ConvertRows(rows).written == [ConvertRow(rows[0]).value] + rest.written;
      forall k | 0 <= k < j
        ensures Some(ConvertRows(rows).written[k]) == ConvertRow(rows[k])
      {
        if k > 0 {
          assert rows[k] == rows[1..][k - 1];
        }
      }
    }
  }

  /** The header alone produces no file and ends normally. */
  lemma HeaderOnly(header: Row)
    ensures Generate([header]) == Run([], Finished)
  {
  }
}
