/** The home page: the lazy loading of recipe cards three at a time, the
    scroll guard that asks for more, and the bottom navigation's choice of the
    current page and of the highlighted item. */
module Home {
  import opened Base
  import opened Text

  /** One recipe as `/api/recipes` returns it, as far as a card shows it. */
  datatype Card = Card(id: string, title: string, image: string, time: string, likes: string)

  const RecipesPerPage: nat := 3

  /** The six recipes `fetchAllRecipes` falls back to when the request fails. */
  const MockRecipes: seq<Card> := [
    Card("1", "鲁菜红烧肉", "images/placeholder.jpg", "60min", "100+"),
    Card("2", "川菜麻婆豆腐", "images/placeholder.jpg", "30min", "200+"),
    Card("3", "粤菜白切鸡", "images/placeholder.jpg", "45min", "150+"),
    Card("4", "苏菜松鼠桂鱼", "images/placeholder.jpg", "50min", "180+"),
    Card("5", "浙菜西湖醋鱼", "images/placeholder.jpg", "40min", "120+"),
    Card("6", "湘菜剁椒鱼头", "images/placeholder.jpg", "35min", "160+")
  ]

  /** `fetchAllRecipes`: the parsed response, or the fallback when the request
      or the parsing failed (`None`). */
  function FetchAllRecipes(response: Option<seq<Card>>): (r: seq<Card>)
    ensures response.Some? ==> r == response.value
    ensures response.None? ==> |r| == 6
  {
    if response.Some? then response.value else MockRecipes
  }

  /** `allRecipes.slice(loaded, loaded + 3)`, clamped to the list as `slice` does. */
  function NextBatch(all: seq<Card>, loaded: nat): (batch: seq<Card>)
    ensures loaded >= |all| ==> batch == []
    ensures loaded < |all| ==> batch == all[loaded..Min(loaded + RecipesPerPage, |all|)]
    ensures |batch| <= RecipesPerPage
  {
    if loaded >= |all| then [] else all[loaded..Min(loaded + RecipesPerPage, |all|)]
  }

  /** The cursor after one completed load: three more, or up to the end. */
  function NextLoaded(loaded: nat, total: nat): nat {
    if loaded >= total then loaded else Min(loaded + RecipesPerPage, total)
  }

  /** The cursor after `k` completed loads from `loaded`. */
  function LoadedAfter(loaded: nat, total: nat, k: nat): nat {
    if k == 0 then loaded else NextLoaded(LoadedAfter(loaded, total, k - 1), total)
  }

  /** From the start, `k` loads show the first `3k` recipes, or all of them. */
  lemma {:induction false} LoadedAfterCount(total: nat, k: nat)
    ensures LoadedAfter(0, total, k) == Min(RecipesPerPage * k, total)
  {
    if k > 0 {
      LoadedAfterCount(total, k - 1);
    }
  }

  /** The loads needed to show every recipe: `ceil(total / 3)`. */
  lemma EveryRecipeShown(total: nat)
    ensures LoadedAfter(0, total, (total + RecipesPerPage - 1) / RecipesPerPage) == total
    ensures total > 0 ==> LoadedAfter(0, total, (total + RecipesPerPage - 1) / RecipesPerPage - 1) < total
  {
    var k := (total + RecipesPerPage - 1) / RecipesPerPage;
    LoadedAfterCount(total, k);
    if total > 0 {
      LoadedAfterCount(total, k - 1);
    }
  }

  /** The closure variables of the lazy loader and the cards in `#recipeContainer`. */
  class RecipeLoader {
    var allRecipes: seq<Card>
    var loadedRecipes: nat
    var isLoading: bool
    var container: seq<Card>

    /** The container holds exactly the loaded prefix. */
    predicate Valid()
      reads this
    {
      loadedRecipes <= |allRecipes| && container == allRecipes[..loadedRecipes]
    }

    /** The state once `fetchAllRecipes` has resolved, before the first load. */
    constructor(response: Option<seq<Card>>)
      ensures allRecipes == FetchAllRecipes(response)
      ensures loadedRecipes == 0 && !isLoading && container == []
      ensures Valid()
    {
      allRecipes := FetchAllRecipes(response);
      loadedRecipes := 0;
      isLoading := false;
      container := [];
    }

    /** The synchronous part of `loadMoreRecipes`: it does nothing while a load is
        pending, otherwise it marks one as pending and starts its timer. */
    method BeginLoad() returns (started: bool)
      modifies this
      ensures started == !old(isLoading)
      ensures isLoading
      ensures allRecipes == old(allRecipes) && loadedRecipes == old(loadedRecipes) && container == old(container)
    {
      if isLoading {
        return false;
      }
      isLoading := true;
      return true;
    }

    /** The timer callback of `loadMoreRecipes`: the next slice is appended to the
        container, when the container exists, and the cursor moves past it. */
    method FinishLoad(containerExists: bool)
      requires Valid()
      modifies this
      ensures Valid() && !isLoading && allRecipes == old(allRecipes)
      ensures containerExists ==> loadedRecipes == NextLoaded(old(loadedRecipes), |allRecipes|)
      ensures !containerExists ==> loadedRecipes == old(loadedRecipes)
      ensures NextBatch(allRecipes, old(loadedRecipes)) == [] ==> loadedRecipes == old(loadedRecipes)
      ensures container == allRecipes[..loadedRecipes]
    {
      var recipesToLoad := NextBatch(allRecipes, loadedRecipes);
      if |recipesToLoad| == 0 {
        isLoading := false;
        return;
      }
      if containerExists {
        var i := 0;
        while i < |recipesToLoad|
          invariant 0 <= i <= |recipesToLoad|
          invariant container == old(container) + recipesToLoad[..i]
          invariant allRecipes == old(allRecipes) && loadedRecipes == old(loadedRecipes)
        {
          container := container + [recipesToLoad[i]];
          i := i + 1;
        }
        assert recipesToLoad[..|recipesToLoad|] == recipesToLoad;
        assert allRecipes[..loadedRecipes + |recipesToLoad|] == allRecipes[..loadedRecipes] + recipesToLoad;
        loadedRecipes := loadedRecipes + |recipesToLoad|;
      }
      isLoading := false;
    }

    /** `handleScroll`'s decision to call `loadMoreRecipes`. */
    function ScrollWantsMore(containerExists: bool, cardCount: nat, thirdVisible: bool, nearBottom: bool): (more: bool)
      reads this
      ensures more ==> containerExists && cardCount > 0 && loadedRecipes < |allRecipes|
      ensures more <==> containerExists && cardCount > 0 && loadedRecipes < |allRecipes|
                        && (if cardCount >= 3 then thirdVisible else nearBottom)
    {
      if !containerExists || cardCount == 0 then false
      else if cardCount >= 3 then thirdVisible && loadedRecipes < |allRecipes|
      else nearBottom && loadedRecipes < |allRecipes|
    }

    /** `handleScroll`: the page geometry is given as `thirdVisible` (the third
        card's top is inside the window) and `nearBottom` (the window is within
        100px of the page's end). */
    method HandleScroll(containerExists: bool, cardCount: nat, thirdVisible: bool, nearBottom: bool)
      returns (started: bool)
      modifies this
      ensures started <==> old(ScrollWantsMore(containerExists, cardCount, thirdVisible, nearBottom)) && !old(isLoading)
      ensures isLoading == (old(isLoading) || old(ScrollWantsMore(containerExists, cardCount, thirdVisible, nearBottom)))
      ensures allRecipes == old(allRecipes) && loadedRecipes == old(loadedRecipes) && container == old(container)
    {
      started := false;
      if ScrollWantsMore(containerExists, cardCount, thirdVisible, nearBottom) {
        started := BeginLoad();
      }
    }
  }

  /** The three pages the bottom navigation knows. */
  datatype Page = HomePage | Shopping | Profile {
    /** The name `getCurrentPage` returns. */
    function Name(): string {
      match this
      case HomePage => "home"
      case Shopping => "shopping"
      case Profile => "profile"
    }
  }

  /** `getCurrentPage`: the part of the path after its last `/`. */
  function CurrentPage(pathname: string): (p: Page)
    ensures p == Shopping <==> AfterLastSlash(pathname) == "shopping-basket.html"
    ensures p == Profile <==> AfterLastSlash(pathname) == "profile.html"
  {
    match AfterLastSlash(pathname)
    case "home.html" => HomePage
    case "index.html" => HomePage
    case "" => HomePage
    case "shopping-basket.html" => Shopping
    case "profile.html" => Profile
    case _ => HomePage
  }

  /** The index `setActiveNavItem` highlights for a page name; unknown names give 0. */
  function NavIndex(currentPage: string): (i: nat)
    ensures i < 3
    ensures i == 1 <==> currentPage == "shopping"
    ensures i == 2 <==> currentPage == "profile"
  {
    match currentPage
    case "home" => 0
    case "shopping" => 1
    case "profile" => 2
    case _ => 0
  }

  /** Each page is highlighted at its own position: home first, basket second,
      profile third. */
  lemma NavIndexOfPage(p: Page)
    ensures NavIndex(p.Name()) == match p case HomePage => 0 case Shopping => 1 case Profile => 2
  {
  }

  /** An unknown file name or a directory path highlights the home item. */
  lemma UnknownPathIsHome(pathname: string)
    requires AfterLastSlash(pathname) !in {"shopping-basket.html", "profile.html"}
    ensures CurrentPage(pathname) == HomePage && NavIndex(CurrentPage(pathname).Name()) == 0
  {
  }

  /** The `active` classes after `setActiveNavItem` on `count` items: all cleared,
      then the chosen one set when it exists. */
  function ActiveFlags(count: nat, currentPage: string): (flags: seq<bool>)
    ensures |flags| == count
    ensures forall k | 0 <= k < count :: flags[k] <==> k == NavIndex(currentPage)
  {
    seq(count, k requires 0 <= k < count => k == NavIndex(currentPage))
  }
}
