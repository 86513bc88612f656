/** The favourites page: the stored list of favourite recipes and ingredients
    (newest first), adding and removing with de-duplication by id, the
    category filter with its newest-first order, and the transfer of a
    favourite ingredient into the stored shopping list. */
module Favorites {
  import opened Base
  import opened Text
  import opened RelativeTime

  /** An entry of `chefmate_favorites`; text fields a stored entry lacks are "". */
  datatype Favorite = Favorite(
    id: string,
    kind: string,
    title: string,
    description: string,
    category: string,
    image: string,
    time: string,
    likes: string,
    addedTime: int)

  /** An entry of `chefmate_market_data`. */
  datatype MarketItem = MarketItem(
    id: string,
    name: string,
    description: string,
    category: string,
    quantity: nat,
    checked: bool)

  /** The two sample recipes written when nothing is stored, one and two days old. */
  function DefaultFavorites(now: int): (r: seq<Favorite>)
    ensures |r| == 2 && r[0].id == "recipe_1" && r[1].id == "recipe_2"
    ensures r[0].addedTime == now - 86400000 && r[1].addedTime == now - 172800000
  {
    [ Favorite("recipe_1", "recipes", "牛油果番茄沙拉", "", "健康轻食", "images/沙拉.jpeg", "40min", "500+", now - 86400000),
      Favorite("recipe_2", "recipes", "糖醋排骨", "", "家常菜", "images/排骨.jpg", "60min", "800+", now - 172800000) ]
  }

  predicate HasId(favorites: seq<Favorite>, id: string) {
    exists i | 0 <= i < |favorites| :: favorites[i].id == id
  }

  /** The callback `removeFromFavorites` passes to `filter`. */
  function OtherId(id: string): Favorite -> bool {
    (fav: Favorite) => fav.id != id
  }

  /** The entries whose id differs from `id`, in their order. */
  function WithoutId(favorites: seq<Favorite>, id: string): (r: seq<Favorite>)
    ensures |r| <= |favorites|
    ensures !HasId(r, id)
    ensures forall i | 0 <= i < |r| :: r[i] in favorites
    ensures forall i | 0 <= i < |favorites| :: favorites[i].id != id ==> favorites[i] in r
  {
    FilterLeavesKept(favorites, OtherId(id));
    FilterMembers(favorites, OtherId(id));
    Filter(favorites, OtherId(id))
  }

  /** Removing an id that is absent changes nothing. */
  lemma WithoutAbsentId(favorites: seq<Favorite>, id: string)
    requires !HasId(favorites, id)
    ensures WithoutId(favorites, id) == favorites
  {
    FilterKeepsAll(favorites, OtherId(id));
  }

  /** Removing a favourite just added gives the list back as it was. */
  lemma RemoveUndoesAdd(favorites: seq<Favorite>, item: Favorite)
    requires !HasId(favorites, item.id)
    ensures WithoutId([item] + favorites, item.id) == favorites
  {
    assert ([item] + favorites)[1..] == favorites;
    WithoutAbsentId(favorites, item.id);
  }

  /** The first entry with that id (`find`). */
  function FindById(favorites: seq<Favorite>, id: string): (r: Option<Favorite>)
    ensures r.None? <==> !HasId(favorites, id)
    ensures r.Some? ==> r.value in favorites && r.value.id == id
  {
    if favorites == [] then None
    else if favorites[0].id == id then Some(favorites[0])
    else
      var r := FindById(favorites[1..], id);
      assert forall i | 1 <= i < |favorites| :: favorites[i] == favorites[1..][i - 1];
      r
  }

  /** The entry found is the first with that id: none before it has the id. */
  lemma {:induction false} FindByIdIsFirst(favorites: seq<Favorite>, id: string)
    requires HasId(favorites, id)
    ensures exists i | 0 <= i < |favorites| :: favorites[i] == FindById(favorites, id).value && !HasId(favorites[..i], id)
  {
    if favorites[0].id == id {
      assert favorites[..0] == [];
      assert favorites[0] == FindById(favorites, id).value;
    } else {
      assert HasId(favorites[1..], id) by {
        var k :| 0 <= k < |favorites| && favorites[k].id == id;
        assert favorites[1..][k - 1] == favorites[k];
      }
      FindByIdIsFirst(favorites[1..], id);
      var j :| 0 <= j < |favorites[1..]| && favorites[1..][j] == FindById(favorites[1..], id).value
               && !HasId(favorites[1..][..j], id);
      assert favorites[..j + 1] == [favorites[0]] + favorites[1..][..j];
      var before := favorites[..j + 1];
      assert !HasId(before, id) by {
        forall i | 0 <= i < j + 1
          ensures before[i].id != id
        {
          if i > 0 {
            assert before[i] == favorites[1..][..j][i - 1];
          }
        }
      }
      assert favorites[j + 1] == FindById(favorites, id).value;
    }
  }

  // ----------------------------------------------------------- category view

  /** The callback `loadFavorites` passes to `filter` for a category. */
  function OfType(kind: string): Favorite -> bool {
    (fav: Favorite) => fav.kind == kind
  }

  /** The entries with the given `type`, in order. */
  function OfKind(favorites: seq<Favorite>, kind: string): (r: seq<Favorite>)
    ensures |r| <= |favorites|
    ensures forall i | 0 <= i < |r| :: r[i].kind == kind && r[i] in favorites
    ensures forall i | 0 <= i < |favorites| :: favorites[i].kind == kind ==> favorites[i] in r
  {
    FilterLeavesKept(favorites, OfType(kind));
    FilterMembers(favorites, OfType(kind));
    Filter(favorites, OfType(kind))
  }

  /** Later entries have no later `addedTime`. */
  predicate NewestFirst(s: seq<Favorite>) {
    forall i, j | 0 <= i < j < |s| :: s[i].addedTime >= s[j].addedTime
  }

  /** x placed after the leading entries that are at least as new. */
  function Insert(s: seq<Favorite>, x: Favorite): (r: seq<Favorite>)
    ensures |r| == |s| + 1
    ensures multiset(r) == multiset(s) + multiset{x}
  {
    if s == [] then [x]
    else if s[0].addedTime >= x.addedTime then
      assert s == [s[0]] + s[1..];
      [s[0]] + Insert(s[1..], x)
    else [x] + s
  }

  /** Inserting into a newest-first list keeps it newest first. */
  lemma {:induction false} InsertKeepsOrder(s: seq<Favorite>, x: Favorite)
    requires NewestFirst(s)
    ensures NewestFirst(Insert(s, x))
  {
    if s != [] && s[0].addedTime >= x.addedTime {
      var rest := Insert(s[1..], x);
      InsertKeepsOrder(s[1..], x);
      InsertBounded(s[1..], x, s[0].addedTime);
      assert Insert(s, x) == [s[0]] + rest;
    }
  }

  // Helper for InsertKeepsOrder: a time no older than every entry and than x
  // is no older than every entry after the insertion.
  lemma {:induction false} InsertBounded(s: seq<Favorite>, x: Favorite, t: int)
    requires t >= x.addedTime && forall k | 0 <= k < |s| :: t >= s[k].addedTime
    ensures forall k | 0 <= k < |Insert(s, x)| :: t >= Insert(s, x)[k].addedTime
  {
    if s != [] && s[0].addedTime >= x.addedTime {
      InsertBounded(s[1..], x, t);
      var rest := Insert(s[1..], x);
      assert Insert(s, x) == [s[0]] + rest;
      forall k | 0 <= k < |Insert(s, x)|
        ensures t >= Insert(s, x)[k].addedTime
      {
        if k > 0 {
          assert Insert(s, x)[k] == rest[k - 1];
        }
      }
    } else if s != [] {
      assert Insert(s, x) == [x] + s;
      forall k | 0 <= k < |Insert(s, x)|
        ensures t >= Insert(s, x)[k].addedTime
      {
        if k > 0 {
          assert Insert(s, x)[k] == s[k - 1];
        }
      }
    }
  }

  /** The order `sort((a, b) => b.addedTime - a.addedTime)` produces: newest
      first and, the built-in sort being stable, entries of equal age in their
      original order. */
  function SortNewest(s: seq<Favorite>): (r: seq<Favorite>)
    ensures NewestFirst(r)
    ensures multiset(r) == multiset(s)
  {
    if s == [] then []
    else
      assert s == s[..|s| - 1] + [s[|s| - 1]];
      InsertKeepsOrder(SortNewest(s[..|s| - 1]), s[|s| - 1]);
      Insert(SortNewest(s[..|s| - 1]), s[|s| - 1])
  }

  /** The entries added at time `t`. */
  function AgeIs(t: int): Favorite -> bool {
    (fav: Favorite) => fav.addedTime == t
  }

  /** The sort is stable: the entries of any one age keep their original
      order. */
  lemma {:induction false} SortNewestStable(s: seq<Favorite>, t: int)
    ensures Filter(SortNewest(s), AgeIs(t)) == Filter(s, AgeIs(t))
  {
    if s != [] {
      var p, x := s[..|s| - 1], s[|s| - 1];
      SortNewestStable(p, t);
      InsertAtAgeEnd(SortNewest(p), x, t);
      assert s == p + [x];
      FilterAppend(p, [x], AgeIs(t));
    }
  }

  // Helper for SortNewestStable: x joins its own age class at its end.
  lemma {:induction false} InsertAtAgeEnd(s: seq<Favorite>, x: Favorite, t: int)
    requires NewestFirst(s)
    ensures Filter(Insert(s, x), AgeIs(t)) == Filter(s, AgeIs(t)) + Filter([x], AgeIs(t))
  {
    if s == [] {
    } else if s[0].addedTime >= x.addedTime {
      assert NewestFirst(s[1..]);
      InsertAtAgeEnd(s[1..], x, t);
      assert Insert(s, x)[1..] == Insert(s[1..], x);
    } else {
      var r := Insert(s, x);
      assert r == [x] + s && r[1..] == s;
      if x.addedTime == t {
        NoneOfAge(s, t);
      }
    }
  }

  // Helper for InsertAtAgeEnd: a list of entries all older than t has none
  // of age t.
  lemma {:induction false} NoneOfAge(s: seq<Favorite>, t: int)
    requires NewestFirst(s) && (s != [] ==> s[0].addedTime < t)
    ensures Filter(s, AgeIs(t)) == []
  {
    if s != [] {
      assert NewestFirst(s[1..]);
      NoneOfAge(s[1..], t);
    }
  }

  /** `loadFavorites`: the entries of the chosen category, newest first. */
  function Shown(favorites: seq<Favorite>, category: string): seq<Favorite> {
    SortNewest(if category == "all" then favorites else OfKind(favorites, category))
  }

  /** Category `all` shows every entry; any other shows exactly the entries of
      that type; either way newest first. */
  lemma ShownEntries(favorites: seq<Favorite>, category: string)
    ensures NewestFirst(Shown(favorites, category))
    ensures category == "all" ==> multiset(Shown(favorites, category)) == multiset(favorites)
    ensures category != "all" ==> forall x | x in Shown(favorites, category) :: x.kind == category && x in favorites
    ensures category != "all" ==> forall i | 0 <= i < |favorites| ::
      favorites[i].kind == category ==> favorites[i] in Shown(favorites, category)
  {
    if category != "all" {
      var k := OfKind(favorites, category);
      assert forall x | x in Shown(favorites, category) :: x in multiset(k);
      assert forall i | 0 <= i < |favorites| :: favorites[i].kind == category ==> favorites[i] in multiset(k);
    }
  }

  /** A list already newest first shows as it is. */
  lemma {:induction false} SortedStaysPut(s: seq<Favorite>)
    requires NewestFirst(s)
    ensures SortNewest(s) == s
  {
    if s != [] {
      var p := s[..|s| - 1];
      assert NewestFirst(p);
      SortedStaysPut(p);
      InsertAtEnd(p, s[|s| - 1]);
      assert p + [s[|s| - 1]] == s;
    }
  }

  // Helper for SortedStaysPut: an entry no newer than all others goes last.
  lemma {:induction false} InsertAtEnd(s: seq<Favorite>, x: Favorite)
    requires forall i | 0 <= i < |s| :: s[i].addedTime >= x.addedTime
    ensures Insert(s, x) == s + [x]
  {
    if s != [] {
      InsertAtEnd(s[1..], x);
      assert [s[0]] + (s[1..] + [x]) == s + [x];
    }
  }

  // ---------------------------------------------------------- basket transfer

  /** The seven category names both lookup tables know. */
  const KnownCategories: set<string> := {"蔬菜", "水果", "肉类", "海鲜", "乳制品", "谷物", "调料"}

  /** The basket's category ids. */
  const CategoryIds: set<string> := {"vegetables", "fruits", "meat", "seafood", "dairy", "grains", "seasoning"}

  /** `getCategoryIdByName`, `vegetables` for a name it does not know. */
  function CategoryIdByName(name: string): (id: string)
    ensures id in CategoryIds
    ensures id == "vegetables" <==> name == "蔬菜" || name !in KnownCategories
  {
    match name
    case "蔬菜" => "vegetables"
    case "水果" => "fruits"
    case "肉类" => "meat"
    case "海鲜" => "seafood"
    case "乳制品" => "dairy"
    case "谷物" => "grains"
    case "调料" => "seasoning"
    case _ => "vegetables"
  }

  /** `getIngredientEmoji`, 📦 for a category it does not know. */
  function IngredientEmoji(category: string): (emoji: string)
    ensures emoji == "📦" <==> category !in KnownCategories
  {
    match category
    case "蔬菜" => "🥬"
    case "水果" => "🍎"
    case "肉类" => "🥩"
    case "海鲜" => "🐟"
    case "乳制品" => "🥛"
    case "谷物" => "🌾"
    case "调料" => "🧂"
    case _ => "📦"
  }

  /** Different known names get different basket categories. */
  lemma CategoryIdsDistinct(a: string, b: string)
    requires a in KnownCategories && b in KnownCategories && a != b
    ensures CategoryIdByName(a) != CategoryIdByName(b)
  {
  }

  /** Different known categories get different icons. */
  lemma EmojisDistinct(a: string, b: string)
    requires a in KnownCategories && b in KnownCategories && a != b
    ensures IngredientEmoji(a) != IngredientEmoji(b)
  {
  }

  predicate HasName(market: seq<MarketItem>, name: string) {
    exists i | 0 <= i < |market| :: market[i].name == name
  }

  /** No two shopping-list entries share a name. */
  predicate DistinctNames(market: seq<MarketItem>) {
    forall i, j | 0 <= i < j < |market| :: market[i].name != market[j].name
  }

  /** The shopping list after offering it the ingredient `item`: unchanged when
      an entry of that name exists, otherwise one entry appended. */
  function WithIngredient(market: seq<MarketItem>, item: Favorite, newId: string): (r: seq<MarketItem>)
    ensures HasName(r, item.title)
    ensures HasName(market, item.title) ==> r == market
    ensures !HasName(market, item.title) ==>
      r == market + [MarketItem(newId, item.title, item.description, CategoryIdByName(item.category), 1, false)]
  {
    if HasName(market, item.title) then market
    else
      var r := market + [MarketItem(newId, item.title, item.description, CategoryIdByName(item.category), 1, false)];
      assert r[|market|].name == item.title;
      r
  }

  /** The transfer never creates a second entry with the same name. */
  lemma WithIngredientKeepsNamesDistinct(market: seq<MarketItem>, item: Favorite, newId: string)
    requires DistinctNames(market)
    ensures DistinctNames(WithIngredient(market, item, newId))
  {
  }

  /** Offering the same ingredient twice adds it once. */
  lemma WithIngredientTwice(market: seq<MarketItem>, item: Favorite, id1: string, id2: string)
    ensures WithIngredient(WithIngredient(market, item, id1), item, id2) == WithIngredient(market, item, id1)
  {
  }

  // ---------------------------------------------------------------- the page

  class FavoritesPage {
    /** The stored favourites. */
    var favorites: seq<Favorite>
    /** The stored shopping list. */
    var market: seq<MarketItem>
    var currentCategory: string

    /** `init`: an empty stored list is replaced by the two samples. */
    constructor(stored: seq<Favorite>, market: seq<MarketItem>, now: int)
      ensures favorites == (if stored == [] then DefaultFavorites(now) else stored)
      ensures this.market == market && currentCategory == "all"
    {
      favorites := if stored == [] then DefaultFavorites(now) else stored;
      this.market := market;
      currentCategory := "all";
    }

    /** `isFavorited`. */
    function IsFavorited(id: string): (b: bool)
      reads this
      ensures b <==> exists i | 0 <= i < |favorites| :: favorites[i].id == id
    {
      HasId(favorites, id)
    }

    /** What `loadFavorites` lists for the current category. */
    function Listed(): seq<Favorite>
      reads this
    {
      Shown(favorites, currentCategory)
    }

    /** A category tab was chosen. */
    method SelectCategory(category: string)
      modifies this
      ensures currentCategory == category
      ensures favorites == old(favorites) && market == old(market)
    {
      currentCategory := category;
    }

    /** `addToFavorites`: refused for an id already present; otherwise the item,
        stamped with the current time, goes first. */
    method AddToFavorites(item: Favorite, now: int) returns (added: bool)
      modifies this
      ensures added <==> !old(HasId(favorites, item.id))
      ensures added ==> favorites == [item.(addedTime := now)] + old(favorites)
      ensures !added ==> favorites == old(favorites)
      ensures market == old(market) && currentCategory == old(currentCategory)
    {
      if HasId(favorites, item.id) {
        return false;
      }
      var stamped := item.(addedTime := now);
      favorites := [stamped] + favorites;
      return true;
    }

    /** `removeFromFavorites`: every entry with that id goes; always reports success. */
    method RemoveFromFavorites(id: string) returns (ok: bool)
      modifies this
      ensures ok && favorites == WithoutId(old(favorites), id)
      ensures market == old(market) && currentCategory == old(currentCategory)
    {
      favorites := WithoutId(favorites, id);
      return true;
    }

    /** `removeFavorite`: the same removal, only once the user confirmed. */
    method RemoveFavorite(id: string, confirmed: bool)
      modifies this
      ensures favorites == if confirmed then WithoutId(old(favorites), id) else old(favorites)
      ensures market == old(market) && currentCategory == old(currentCategory)
    {
      if confirmed {
        favorites := WithoutId(favorites, id);
      }
    }

    /** `addToBasket` writing the stored list itself: nothing unless the first
        entry with that id is an ingredient; then the ingredient is offered to
        the shopping list. `newId` is the generated item id. */
    method AddToBasket(id: string, newId: string)
      modifies this
      ensures var item := FindById(old(favorites), id);
        market == if item.Some? && item.value.kind == "ingredients"
                  then WithIngredient(old(market), item.value, newId) else old(market)
      ensures favorites == old(favorites) && currentCategory == old(currentCategory)
    {
      var item := FindById(favorites, id);
      if item.None? || item.value.kind != "ingredients" {
        return;
      }
      var fav := item.value;
      if !HasName(market, fav.title) {
        var newItem := MarketItem(newId, fav.title, fav.description, CategoryIdByName(fav.category), 1, false);
        market := market + [newItem];
      }
    }

    /** The time shown next to a listed entry. */
    function AddedAgo(fav: Favorite, now: int, stamped: LocalDate): (shown: string)
      requires ValidDate(stamped)
      ensures now - fav.addedTime < MinuteMs ==> shown == "刚刚"
    {
      TimeAgo(fav.addedTime, now, stamped)
    }
  }
}
