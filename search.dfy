/** The search page: loading recipe records with their defaults, matching a
    keyword against title, category, cuisine and ingredients, and the
    bounded, de-duplicated search history. */
module Search {
  import opened Base
  import opened Text
  import opened RelativeTime

  // ------------------------------------------------------------ recipe records

  /** What one recipe file holds under its single top-level key. Absent string
      fields are `None`; `ingredients` is whatever JSON value is there
      (`JNull` when absent). */
  datatype RecipeFile = RecipeFile(
    key: string,
    title: Option<string>,
    image: Option<string>,
    time: Option<string>,
    likes: Option<string>,
    category: Option<string>,
    ingredients: Json)

  /** A record of the in-memory `recipeData` list. */
  datatype Recipe = Recipe(
    id: string,
    title: string,
    image: string,
    time: string,
    likes: string,
    category: string,
    ingredients: Json,
    cuisine: string,
    uuid: string)

  /** `s.replace(needle, "")` with a string pattern: only the first occurrence goes. */
  function RemoveFirst(s: string, needle: string): (r: string)
    requires needle != []
    ensures !Contains(s, needle) ==> r == s
    ensures |r| == |s| || |r| == |s| - |needle|
    decreases |s|
  {
    if |s| < |needle| then s
    else if s[..|needle|] == needle then
      assert OccursAt(s, needle, 0);
      s[|needle|..]
    else
      ContainsTail(s, needle);
      [s[0]] + RemoveFirst(s[1..], needle)
  }

  // Helper for RemoveFirst: an occurrence in the tail is one in the whole.
  lemma ContainsTail(s: string, needle: string)
    requires s != []
    ensures Contains(s[1..], needle) ==> Contains(s, needle)
  {
    if !Contains(s[1..], needle) {
      return;
    }
    var i :| 0 <= i <= |s[1..]| - |needle| && OccursAt(s[1..], needle, i);
    assert s[i + 1..i + 1 + |needle|] == s[1..][i..i + |needle|];
    assert OccursAt(s, needle, i + 1);
  }

  /** The record built for a file called `filename`: each absent or empty field
      falls back to its default; the cuisine, like the category, is read from
      the file's `category`. */
  function LoadRecord(filename: string, file: RecipeFile): (r: Recipe)
    ensures r.id == r.uuid == RemoveFirst(filename, ".json")
    ensures r.title == OrDefault(file.title, file.key)
    ensures r.image == OrDefault(file.image, "images/placeholder.jpg")
    ensures r.time == OrDefault(file.time, "30min")
    ensures r.likes == OrDefault(file.likes, "0")
    ensures r.category == OrDefault(file.category, "其他")
    ensures r.cuisine == OrDefault(file.category, "家常菜")
    ensures r.ingredients == if JsTruthy(file.ingredients) then file.ingredients else JArr([])
  {
    var uuid := RemoveFirst(filename, ".json");
    Recipe(
      id := uuid,
      title := OrDefault(file.title, file.key),
      image := OrDefault(file.image, "images/placeholder.jpg"),
      time := OrDefault(file.time, "30min"),
      likes := OrDefault(file.likes, "0"),
      category := OrDefault(file.category, "其他"),
      ingredients := if JsTruthy(file.ingredients) then file.ingredients else JArr([]),
      cuisine := OrDefault(file.category, "家常菜"),
      uuid := uuid)
  }

  /** The file list is built as `key + ".json"`; the record's id gives the key
      back whenever the key does not itself contain ".json". */
  lemma {:induction false} IdRecoversKey(key: string)
    requires !Contains(key, ".json")
    ensures RemoveFirst(key + ".json", ".json") == key
    decreases |key|
  {
    var s := key + ".json";
    if key == [] {
      assert s[..5] == ".json";
    } else if s[..5] == ".json" {
      // the '.' at position |key| would have to be one of "json"'s letters
      if |key| >= 5 {
        assert key[..5] == s[..5];
        assert OccursAt(key, ".json", 0);
      } else {
        assert s[|key|] == '.';
        assert s[|key|] == ".json"[|key|];
      }
    } else {
      ContainsTail(key, ".json");
      IdRecoversKey(key[1..]);
      assert s[1..] == key[1..] + ".json";
      assert key == [key[0]] + key[1..];
    }
  }

  /** The files that could be read, in list order, as records; a file that
      failed to load (`None`) is dropped. */
  function LoadAll(files: seq<(string, Option<RecipeFile>)>): (r: seq<Recipe>)
    ensures |r| <= |files|
  {
    if files == [] then []
    else
      var first := files[0];
      (if first.1.Some? then [LoadRecord(first.0, first.1.value)] else []) + LoadAll(files[1..])
  }

  /** Loading a concatenation loads each part, in order. */
  lemma {:induction false} LoadAllAppend(a: seq<(string, Option<RecipeFile>)>, b: seq<(string, Option<RecipeFile>)>)
    ensures LoadAll(a + b) == LoadAll(a) + LoadAll(b)
  {
    if a == [] {
      assert a + b == b;
    } else {
      LoadAllAppend(a[1..], b);
      assert (a + b)[1..] == a[1..] + b && (a + b)[0] == a[0];
      Regroup(LoadAll(a + b), if a[0].1.Some? then [LoadRecord(a[0].0, a[0].1.value)] else [],
              LoadAll(a[1..] + b), LoadAll(a[1..]), LoadAll(b), LoadAll(a));
    }
  }

  /** A file that failed to load leaves no trace: the result is the same as
      without it. */
  lemma FailedFileDropped(files: seq<(string, Option<RecipeFile>)>, i: nat)
    requires i < |files| && files[i].1.None?
    ensures LoadAll(files) == LoadAll(files[..i] + files[i + 1..])
  {
    var before, failed, after := files[..i], [files[i]], files[i + 1..];
    assert files == before + (failed + after);
    assert LoadAll(failed) == [] by {
      assert failed[1..] == [];
    }
    LoadAllAppend(failed, after);
    LoadAllAppend(before, failed + after);
    LoadAllAppend(before, after);
  }

  /** When every file loads, there is one record per file, in order. */
  lemma {:induction false} EveryFileLoaded(files: seq<(string, Option<RecipeFile>)>)
    requires forall i | 0 <= i < |files| :: files[i].1.Some?
    ensures |LoadAll(files)| == |files|
    ensures forall i | 0 <= i < |files| :: LoadAll(files)[i] == LoadRecord(files[i].0, files[i].1.value)
  {
    if files != [] {
      EveryFileLoaded(files[1..]);
      assert forall i | 1 <= i < |files| :: files[i] == files[1..][i - 1];
    }
  }

  // ------------------------------------------------------------------ matching

  /** The characters an ingredient is split at: 、，and the ASCII comma. */
  const Separators: set<char> := {'、', '，', ','}

  /** The characters of the class `[克毫升个片根颗块段汤匙]`: one character each,
      so "200毫升" loses "200毫" and keeps "升". */
  const QuantityUnits: set<char> := {'克', '毫', '升', '个', '片', '根', '颗', '块', '段', '汤', '匙'}

  /** The length of the run of ASCII digits at the start of s. */
  function DigitRun(s: string): (n: nat)
    ensures n <= |s|
    ensures forall i | 0 <= i < n :: IsAsciiDigit(s[i])
    ensures n < |s| ==> !IsAsciiDigit(s[n])
  {
    if s != [] && IsAsciiDigit(s[0]) then 1 + DigitRun(s[1..]) else 0
  }

  /** No digit is directly followed by a unit character. */
  predicate NoQuantity(s: string) {
    forall i | 0 <= i < |s| - 1 :: !(IsAsciiDigit(s[i]) && s[i + 1] in QuantityUnits)
  }

  /** `s.replace(/\d+[克毫升个片根颗块段汤匙]/g, '')`: scanning left to right, a
      run of digits followed by a unit character is removed together with it;
      a run followed by anything else is kept. */
  function StripQuantities(s: string): (r: string)
    ensures |r| <= |s|
    ensures s != [] && !IsAsciiDigit(s[0]) ==> r != [] && r[0] == s[0]
    ensures NoQuantity(r)
    decreases |s|
  {
    if s == [] then []
    else if IsAsciiDigit(s[0]) then
      var n := DigitRun(s);
      if n < |s| && s[n] in QuantityUnits then StripQuantities(s[n + 1..])
      else
        var rest := StripQuantities(s[n..]);
        assert NoQuantity(s[..n] + rest) by {
          assert forall i | 0 <= i < n :: (s[..n] + rest)[i] == s[i];
          assert forall i | n <= i < |s[..n] + rest| :: (s[..n] + rest)[i] == rest[i - n];
        }
        s[..n] + rest
    else
      var rest := StripQuantities(s[1..]);
      assert NoQuantity([s[0]] + rest) by {
        assert forall i | 1 <= i < |[s[0]] + rest| :: ([s[0]] + rest)[i] == rest[i - 1];
      }
      [s[0]] + rest
  }

  /** A text without quantities is left as it is. */
  lemma {:induction false} StripKeepsPlain(s: string)
    requires NoQuantity(s)
    ensures StripQuantities(s) == s
    decreases |s|
  {
    if s == [] {
    } else if IsAsciiDigit(s[0]) {
      var n := DigitRun(s);
      assert n < |s| ==> s[n] !in QuantityUnits by {
        if n < |s| {
          assert IsAsciiDigit(s[n - 1]);
        }
      }
      NoQuantitySuffix(s, n);
      StripKeepsPlain(s[n..]);
      KeptDigitRun(s, n);
    } else {
      NoQuantitySuffix(s, 1);
      StripKeepsPlain(s[1..]);
      KeptOther(s);
    }
  }

  // Helpers for StripKeepsPlain: one step of the scan leaves a plain text whole.
  lemma KeptDigitRun(s: string, n: nat)
    requires s != [] && IsAsciiDigit(s[0]) && n == DigitRun(s)
    requires n < |s| ==> s[n] !in QuantityUnits
    requires StripQuantities(s[n..]) == s[n..]
    ensures StripQuantities(s) == s
  {
    assert StripQuantities(s) == s[..n] + StripQuantities(s[n..]);
    SplitJoin(s, n);
  }

  lemma KeptOther(s: string)
    requires s != [] && !IsAsciiDigit(s[0])
    requires StripQuantities(s[1..]) == s[1..]
    ensures StripQuantities(s) == s
  {
    assert [s[0]] + s[1..] == s;
  }

  // Helper for StripKeepsPlain.
  lemma NoQuantitySuffix(s: string, k: nat)
    requires NoQuantity(s) && k <= |s|
    ensures NoQuantity(s[k..])
  {
    assert forall i | 0 <= i < |s[k..]| :: s[k..][i] == s[k + i];
  }

  /** Stripping twice is stripping once. */
  lemma StripIdempotent(s: string)
    ensures StripQuantities(StripQuantities(s)) == StripQuantities(s)
  {
    StripKeepsPlain(StripQuantities(s));
  }

  /** A name matches when the lower-cased keyword occurs in it, either with its
      quantities stripped (and trimmed) or as it is. */
  predicate NameMatches(name: string, lowerKeyword: string) {
    Contains(Lower(Trim(StripQuantities(name), Js)), lowerKeyword) || Contains(Lower(name), lowerKeyword)
  }

  /** One entry of an ingredient array: a combined entry (one holding a
      separator) matches when one of its trimmed parts does; any other entry
      matches as a whole. */
  predicate IngredientMatches(ingredient: string, lowerKeyword: string) {
    if exists i | 0 <= i < |ingredient| :: ingredient[i] in Separators then
      var parts := SplitAny(ingredient, Separators);
      exists k | 0 <= k < |parts| :: NameMatches(Trim(parts[k], Js), lowerKeyword)
    else NameMatches(ingredient, lowerKeyword)
  }

  /** An array of ingredients matches through one of its string entries, a
      string of ingredients by plain substring search, anything else never. */
  predicate IngredientsMatch(ingredients: Json, lowerKeyword: string) {
    match ingredients
    case JArr(items) => exists i | 0 <= i < |items| :: items[i].JStr? && IngredientMatches(items[i].s, lowerKeyword)
    case JStr(s) => Contains(Lower(s), lowerKeyword)
    case _ => false
  }

  /** The condition `searchRecipes` keeps a recipe under. */
  predicate Matches(recipe: Recipe, keyword: string) {
    var kw := Lower(keyword);
    || Contains(Lower(recipe.title), kw)
    || Contains(Lower(recipe.category), kw)
    || Contains(Lower(recipe.cuisine), kw)
    || IngredientsMatch(recipe.ingredients, kw)
  }

  /** The callback `searchRecipes` passes to `filter`. */
  function Matcher(keyword: string): Recipe -> bool {
    (recipe: Recipe) => Matches(recipe, keyword)
  }

  /** `searchRecipes`: the matching recipes, in their original order. */
  function SearchRecipes(recipes: seq<Recipe>, keyword: string): (r: seq<Recipe>)
    ensures |r| <= |recipes|
  {
    Filter(recipes, Matcher(keyword))
  }

  /** Exactly the matching recipes are kept. */
  lemma SearchKeepsMatches(recipes: seq<Recipe>, keyword: string)
    ensures var r := SearchRecipes(recipes, keyword);
      && (forall i | 0 <= i < |r| :: r[i] in recipes && Matches(r[i], keyword))
      && (forall i | 0 <= i < |recipes| :: Matches(recipes[i], keyword) ==> recipes[i] in r)
  {
    FilterLeavesKept(recipes, Matcher(keyword));
    FilterMembers(recipes, Matcher(keyword));
  }

  /** The result keeps the list's order: searching a concatenation is
      concatenating the searches. */
  lemma SearchAppend(a: seq<Recipe>, b: seq<Recipe>, keyword: string)
    ensures SearchRecipes(a + b, keyword) == SearchRecipes(a, keyword) + SearchRecipes(b, keyword)
  {
    FilterAppend(a, b, Matcher(keyword));
  }

  /** The empty keyword occurs in every title, so it keeps every recipe. */
  lemma EmptyKeywordKeepsAll(recipes: seq<Recipe>)
    ensures SearchRecipes(recipes, "") == recipes
  {
    forall i | 0 <= i < |recipes|
      ensures Matches(recipes[i], "")
    {
      assert OccursAt(Lower(recipes[i].title), Lower(""), 0);
    }
    FilterKeepsAll(recipes, Matcher(""));
  }

  /** A quantity written after the name does not hide the name. */
  lemma QuantityStripped()
    ensures StripQuantities("五花肉500克") == "五花肉"
  {
    var s := "五花肉500克";
    var t := s[3..];
    assert t[1..][1..][1..] == "克";
    assert DigitRun(t[1..][1..][1..]) == 0;
    assert DigitRun(t) == 3;
    assert t[4..] == [];
    assert StripQuantities(t) == [];
    assert StripQuantities(s[2..]) == "肉";
    assert StripQuantities(s[1..]) == "花肉";
  }

  // ------------------------------------------------------------------- history

  /** An entry of `chefmate_search_history`. */
  datatype HistoryEntry = HistoryEntry(keyword: string, timestamp: int)

  /** The callback `saveSearchHistory` passes to `filter`. */
  function OtherKeyword(keyword: string): HistoryEntry -> bool {
    (entry: HistoryEntry) => entry.keyword != keyword
  }

  /** The history without the entries for `keyword`, in order. */
  function WithoutKeyword(history: seq<HistoryEntry>, keyword: string): (r: seq<HistoryEntry>)
    ensures |r| <= |history|
    ensures forall i | 0 <= i < |r| :: r[i].keyword != keyword
  {
    FilterLeavesKept(history, OtherKeyword(keyword));
    Filter(history, OtherKeyword(keyword))
  }

  /** Exactly the entries for other keywords remain. */
  lemma WithoutKeywordMembers(history: seq<HistoryEntry>, keyword: string)
    ensures var r := WithoutKeyword(history, keyword);
      && (forall i | 0 <= i < |r| :: r[i] in history)
      && (forall i | 0 <= i < |history| :: history[i].keyword != keyword ==> history[i] in r)
  {
    FilterMembers(history, OtherKeyword(keyword));
  }

  /** Removing a keyword keeps the order: a concatenation is filtered part by part. */
  lemma WithoutKeywordAppend(a: seq<HistoryEntry>, b: seq<HistoryEntry>, keyword: string)
    ensures WithoutKeyword(a + b, keyword) == WithoutKeyword(a, keyword) + WithoutKeyword(b, keyword)
  {
    FilterAppend(a, b, OtherKeyword(keyword));
  }

  /** The history after searching for `keyword` at time `now`. */
  function SavedHistory(history: seq<HistoryEntry>, keyword: string, now: int): seq<HistoryEntry> {
    var h := [HistoryEntry(keyword, now)] + WithoutKeyword(history, keyword);
    if |h| > 10 then h[..10] else h
  }

  /** The new keyword comes first, no other entry has it, the rest is the old
      history without it (in order, cut to fit), and at most 10 entries remain. */
  lemma SavedHistoryShape(history: seq<HistoryEntry>, keyword: string, now: int)
    ensures var h := SavedHistory(history, keyword, now);
      && 1 <= |h| <= 10
      && h[0] == HistoryEntry(keyword, now)
      && (forall i | 1 <= i < |h| :: h[i].keyword != keyword)
      && h[1..] == WithoutKeyword(history, keyword)[..|h| - 1]
      && (|WithoutKeyword(history, keyword)| < 10 ==> |h| == |WithoutKeyword(history, keyword)| + 1)
  {
    var rest := WithoutKeyword(history, keyword);
    var h := SavedHistory(history, keyword, now);
    assert forall i | 1 <= i < |h| :: h[i] == rest[i - 1];
  }

  /** Searching again for the latest keyword only refreshes its time stamp. */
  lemma SaveAgain(history: seq<HistoryEntry>, keyword: string, t1: int, t2: int)
    ensures SavedHistory(SavedHistory(history, keyword, t1), keyword, t2)
         == SavedHistory(history, keyword, t2)
  {
    var rest := WithoutKeyword(history, keyword);
    var m := Min(|rest|, 9);
    var h1 := SavedHistory(history, keyword, t1);
    SavedIsCons(history, keyword, t1);
    SavedIsCons(history, keyword, t2);
    WithoutKeywordAppend([h1[0]], rest[..m], keyword);
    assert WithoutKeyword([h1[0]], keyword) == [];
    KeepsFiltered(rest[..m], keyword);
    assert WithoutKeyword(h1, keyword) == rest[..m];
    SavedIsCons(h1, keyword, t2);
    assert rest[..m][..Min(m, 9)] == rest[..m];
  }

  // Helper for SaveAgain: the saved history as the new entry followed by a prefix.
  lemma SavedIsCons(history: seq<HistoryEntry>, keyword: string, t: int)
    ensures var rest := WithoutKeyword(history, keyword);
      SavedHistory(history, keyword, t) == [HistoryEntry(keyword, t)] + rest[..Min(|rest|, 9)]
  {
  }

  // Helper for SaveAgain: a list without the keyword is not changed by removing it.
  lemma KeepsFiltered(h: seq<HistoryEntry>, keyword: string)
    requires forall i | 0 <= i < |h| :: h[i].keyword != keyword
    ensures WithoutKeyword(h, keyword) == h
  {
    FilterKeepsAll(h, OtherKeyword(keyword));
  }

  /** `history.splice(index, 1)`: a negative index counts from the end, an
      index past the end removes nothing. */
  function RemoveAt(history: seq<HistoryEntry>, index: int): (r: seq<HistoryEntry>)
    ensures 0 <= index < |history| ==> r == history[..index] + history[index + 1..]
    ensures index >= |history| ==> r == history
  {
    var start := if index < 0 then (if |history| + index < 0 then 0 else |history| + index) else index;
    if start < |history| then history[..start] + history[start + 1..] else history
  }

  /** Deleting an entry shown on the page removes exactly that entry. */
  lemma RemoveAtRemovesOne(history: seq<HistoryEntry>, index: int)
    requires 0 <= index < |history|
    ensures |RemoveAt(history, index)| == |history| - 1
    ensures multiset(RemoveAt(history, index)) + multiset{history[index]} == multiset(history)
  {
    assert history == history[..index] + [history[index]] + history[index + 1..];
  }

  /** The search page's state: the loaded records and the stored history. */
  class SearchPage {
    var recipeData: seq<Recipe>
    var history: seq<HistoryEntry>

    constructor(files: seq<(string, Option<RecipeFile>)>, stored: seq<HistoryEntry>)
      ensures recipeData == LoadAll(files) && history == stored
    {
      recipeData := LoadAll(files);
      history := stored;
    }

    /** `saveSearchHistory`. */
    method SaveSearchHistory(keyword: string, now: int)
      modifies this
      ensures history == SavedHistory(old(history), keyword, now)
      ensures recipeData == old(recipeData)
    {
      var h := WithoutKeyword(history, keyword);
      h := [HistoryEntry(keyword, now)] + h;
      if |h| > 10 {
        h := h[..10];
      }
      history := h;
    }

    /** `deleteHistoryItem`. */
    method DeleteHistoryItem(index: int)
      modifies this
      ensures history == RemoveAt(old(history), index)
      ensures recipeData == old(recipeData)
    {
      history := RemoveAt(history, index);
    }

    /** `clearSearchHistory`: the stored key is removed, so the history reads as empty. */
    method ClearSearchHistory()
      modifies this
      ensures history == [] && recipeData == old(recipeData)
    {
      history := [];
    }

    /** The time shown next to history entry i. */
    function EntryTime(i: int, now: int, stamped: LocalDate): (shown: string)
      reads this
      requires 0 <= i < |history| && ValidDate(stamped)
      ensures now - history[i].timestamp < MinuteMs ==> shown == "刚刚"
    {
      TimeAgo(history[i].timestamp, now, stamped)
    }
  }
}
