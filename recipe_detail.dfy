/** The recipe detail page: the recipe chosen from the `name` query parameter,
    the portion counter, the parsing of each ticked ingredient line into a
    basket entry and the append to the stored basket, and the cooking page
    chosen by "start cooking". */
module RecipeDetail {
  import opened Base
  import opened Text

  // ---------------------------------------------------------------------
  // Recipes and the fallback
  // ---------------------------------------------------------------------

  /** One entry of the page's built-in `recipes` table. */
  datatype RecipeCard = RecipeCard(
    image: string, title: string, category: string, time: string, likes: string,
    ingredients: seq<string>, condiments: seq<string>, steps: seq<string>)

  const Salad := "牛油果番茄沙拉"
  const Paigu := "糖醋排骨"

  const Recipes: map<string, RecipeCard> := map[
    Salad := RecipeCard(
      "images/沙拉.jpeg", Salad, "健康轻食", "40min", "500+",
      ["西红柿 2 颗", "牛油果 1 颗", "黄瓜 1 根", "洋葱 1 颗"],
      ["沙拉酱 150ml（约等于两勺）"],
      ["将西红柿、牛油果、黄瓜、洋葱洗净切块。",
       "将所有蔬菜放入大碗中，加入沙拉酱。",
       "轻轻拌匀，使酱料均匀包裹蔬菜。",
       "装盘，点缀香菜即可享用。"]),
    Paigu := RecipeCard(
      "images/排骨.jpg", Paigu, "家常菜", "60min", "800+",
      ["排骨 500g", "生姜 3 片", "葱 1 根", "蒜 2 瓣"],
      ["生抽 2勺", "老抽 1勺", "醋 2勺", "糖 3勺", "料酒 1勺"],
      ["排骨冷水下锅，焯水去血沫，捞出沥干。",
       "锅中加油，放入排骨煎至微黄。",
       "加入姜片、葱段、蒜炒香。",
       "倒入生抽、老抽、醋、糖、料酒，翻炒均匀。",
       "加适量清水，盖锅小火炖30分钟。",
       "大火收汁，至汤汁浓稠即可出锅。"])
  ]

  /** The properties every object literal inherits from `Object.prototype`;
      each is truthy (a function, or the prototype itself for `__proto__`). */
  const ObjectPrototypeNames: set<string> := {
    "constructor", "hasOwnProperty", "isPrototypeOf", "propertyIsEnumerable",
    "toString", "toLocaleString", "valueOf", "__proto__",
    "__defineGetter__", "__defineSetter__", "__lookupGetter__", "__lookupSetter__"
  }

  /** What the lookup in the `recipes` table yields: one of its recipes, or
      the inherited property of that name, which has none of a recipe's fields. */
  datatype Selected = Card(card: RecipeCard) | Inherited(property: string)

  /** `recipes[getQueryParam('name') || Salad] || recipes[Salad]`; `name` is
      the query parameter, `None` when it is absent. A name the table lacks
      falls back to the salad unless it is an inherited property. */
  function SelectRecipe(name: Option<string>): (r: Selected)
    ensures var key := OrDefault(name, Salad);
      && (key in Recipes ==> r == Card(Recipes[key]))
      && (key !in Recipes && key in ObjectPrototypeNames ==> r == Inherited(key))
      && (key !in Recipes && key !in ObjectPrototypeNames ==> r == Card(Recipes[Salad]))
  {
    var key := OrDefault(name, Salad);
    if key in Recipes then Card(Recipes[key])
    else if key in ObjectPrototypeNames then Inherited(key)
    else Card(Recipes[Salad])
  }

  /** The `recipe` parameter "start cooking" passes on; an inherited property
      has no `title`, which is then `undefined`. */
  function CookingType(r: Selected): (kind: string)
    ensures kind == "paigu" <==> r.Card? && r.card.title == Paigu
    ensures kind != "paigu" ==> kind == "salad"
  {
    if r.Card? && r.card.title == Paigu then "paigu" else "salad"
  }

  /** A missing, empty or unknown name selects the salad, except the names of
      inherited properties, which select a non-recipe. */
  lemma SelectedRecipeOrInherited(name: Option<string>)
    ensures SelectRecipe(name).Inherited? <==> name.Some? && name.value in ObjectPrototypeNames
    ensures SelectRecipe(name).Card? ==> SelectRecipe(name).card in Recipes.Values
    ensures name.None? || name == Some("") ==> SelectRecipe(name) == Card(Recipes[Salad])
  {
    assert Salad !in ObjectPrototypeNames && Paigu !in ObjectPrototypeNames;
    assert "" !in ObjectPrototypeNames;
  }

  /** The cooking page shows the sweet-and-sour ribs exactly when they were
      asked for by name; every other request, even a malformed one or an
      inherited property's name, cooks the salad. An inherited property is
      a recipe without an ingredient list, so on a page that shows one the
      rendering throws before the start button is bound and this choice is
      never made there. */
  lemma CookingTypeOfSelected(name: Option<string>)
    ensures CookingType(SelectRecipe(name)) == "paigu" <==> name == Some(Paigu)
    ensures CookingType(SelectRecipe(name)) == "salad" <==> name != Some(Paigu)
  {
    assert Recipes[Salad].title != Paigu;
    if name.Some? && name.value in Recipes {
      assert name.value == Salad || name.value == Paigu;
    }
  }

  // ---------------------------------------------------------------------
  // The portion counter
  // ---------------------------------------------------------------------

  const MaxPortion: int := 10

  /** The decrease button: only above 1. */
  function Decreased(p: int): (q: int)
    ensures p > 1 ==> q == p - 1
    ensures p <= 1 ==> q == p
  {
    if p > 1 then p - 1 else p
  }

  /** The increase button: only below 10. */
  function Increased(p: int): (q: int)
    ensures p < MaxPortion ==> q == p + 1
    ensures p >= MaxPortion ==> q == p
  {
    if p < MaxPortion then p + 1 else p
  }

  /** Both buttons keep the count within [1, 10]. */
  lemma PortionStaysInRange(p: int)
    requires 1 <= p <= MaxPortion
    ensures 1 <= Decreased(p) <= MaxPortion && 1 <= Increased(p) <= MaxPortion
  {
  }

  /** A step up undoes a step down and vice versa, away from the ends. */
  lemma PortionStepsUndo(p: int)
    ensures 1 <= p < MaxPortion ==> Decreased(Increased(p)) == p
    ensures 1 < p <= MaxPortion ==> Increased(Decreased(p)) == p
  {
  }

  /** `updatePortion`'s text `${portion}份`. */
  function PortionText(p: int): string {
    IntToString(p) + "份"
  }

  /** The closure variable `portion` and its two buttons. */
  class PortionCounter {
    var portion: int

    predicate Valid()
      reads this
    {
      1 <= portion <= MaxPortion
    }

    constructor()
      ensures portion == 1 && Valid()
    {
      portion := 1;
    }

    method Decrease()
      requires Valid()
      modifies this
      ensures portion == Decreased(old(portion)) && Valid()
    {
      if portion > 1 {
        portion := portion - 1;
      }
    }

    method Increase()
      requires Valid()
      modifies this
      ensures portion == Increased(old(portion)) && Valid()
    {
      if portion < MaxPortion {
        portion := portion + 1;
      }
    }

    /** What the `.portion-count` element shows after a click. */
    function Shown(): string
      reads this
    {
      PortionText(portion)
    }
  }

  /** `parseInt` reads back the count from the counter's text. */
  lemma ParsePortionText(p: int)
    ensures ParseInt(PortionText(p)) == Some(p)
  {
    var s := PortionText(p);
    assert !IsJsSpace(s[0]);
    assert DropLeading(s, Js) == s;
    var n: nat := if p < 0 then -p else p;
    if p < 0 {
      assert s == "-" + (NatToString(n) + "份");
      assert s[1..] == NatToString(n) + "份";
    } else {
      assert s == NatToString(n) + "份";
      assert s[0] != '-' && s[0] != '+';
    }
    ParseUnsignedRendering(n, "份");
  }

  /** `parseInt(portionText) || 1`, where `portionText` is the counter's text
      or `1份` when the element is missing or empty. NaN and 0 both give 1. */
  function Portion(text: Option<string>): (p: int)
    ensures p != 0
  {
    match ParseInt(OrDefault(text, "1份"))
    case None => 1
    case Some(v) => if v == 0 then 1 else v
  }

  /** A missing or empty counter, and a count of 0, fall back to one portion. */
  lemma PortionFallsBack()
    ensures Portion(None) == 1 && Portion(Some("")) == 1
    ensures Portion(Some("0份")) == 1
  {
    DefaultPortionText();
    assert OrDefault(None, "1份") == "1份" && OrDefault(Some(""), "1份") == "1份";
    ZeroPortionFallsBack();
  }

  // Helpers for PortionFallsBack.
  lemma DefaultPortionText()
    ensures ParseInt("1份") == Some(1)
  {
    ParsePortionText(1);
    assert PortionText(1) == "1份";
  }

  lemma ZeroPortionFallsBack()
    ensures Portion(Some("0份")) == 1
  {
    ParsePortionText(0);
    assert PortionText(0) == "0份";
  }

  /** The portion sent with the basket entries is the counter's value. */
  lemma PortionReadsCounter(p: int)
    requires 1 <= p <= MaxPortion
    ensures Portion(Some(PortionText(p))) == p
  {
    ParsePortionText(p);
  }

  // ---------------------------------------------------------------------
  // Parsing an ingredient line
  // ---------------------------------------------------------------------

  /** `itemText.split(' ')[0]`: the text before the first space. */
  function FirstWord(s: string): (r: string)
    ensures |r| <= |s| && r == s[..|r|]
    ensures ' ' !in r
    ensures |r| == |s| || s[|r|] == ' '
  {
    if s == [] || s[0] == ' ' then [] else [s[0]] + FirstWord(s[1..])
  }

  /** `FirstWord` is the first piece of the split on a space. */
  lemma {:induction false} FirstWordIsFirstPiece(s: string)
    ensures FirstWord(s) == Split(s, " ")[0]
  {
    if s != [] && s[0] != ' ' {
      FirstWordIsFirstPiece(s[1..]);
      assert s[..1] != " ";
    } else if s != [] {
      assert s[..1] == " ";
    }
  }

  /** `itemText.match(/\d+/g)[0]`: the first maximal run of ASCII digits, if any. */
  function FirstDigitRun(s: string): Option<string> {
    if s == [] then None
    else if IsAsciiDigit(s[0]) then Some(LeadingRun(s, false))
    else FirstDigitRun(s[1..])
  }

  /** There is a run exactly when there is a digit, and the run found is the
      maximal one starting at the first digit. */
  lemma {:induction false} FirstDigitRunMeans(s: string)
    ensures FirstDigitRun(s).None? <==> forall i | 0 <= i < |s| :: !IsAsciiDigit(s[i])
    ensures FirstDigitRun(s).Some? ==> exists i | 0 <= i < |s| ::
      && (forall j | 0 <= j < i :: !IsAsciiDigit(s[j]))
      && FirstDigitRun(s).value == LeadingRun(s[i..], false) && FirstDigitRun(s).value != []
  {
    if s != [] {
      if IsAsciiDigit(s[0]) {
        assert s[0..] == s;
      } else {
        FirstDigitRunMeans(s[1..]);
        assert forall i | 0 < i < |s| :: s[i] == s[1..][i - 1];
        var rest := FirstDigitRun(s[1..]);
        if rest.Some? {
          var i :| 0 <= i < |s[1..]| && (forall j | 0 <= j < i :: !IsAsciiDigit(s[1..][j]))
            && rest.value == LeadingRun(s[1..][i..], false) && rest.value != [];
          assert s[1..][i..] == s[i + 1..];
          assert forall j | 0 <= j < i + 1 :: !IsAsciiDigit(s[j]);
          assert FirstDigitRun(s) == rest;
        }
      }
    }
  }

  /** The unit characters `/[颗根片勺]/` looks for. */
  predicate IsUnitChar(c: char) {
    c == '颗' || c == '根' || c == '片' || c == '勺'
  }

  /** `itemText.match(/[颗根片勺]/g)[0]`, or `''` when none occurs. */
  function FirstUnit(s: string): string {
    if s == [] then ""
    else if IsUnitChar(s[0]) then [s[0]]
    else FirstUnit(s[1..])
  }

  /** The unit is empty exactly when no unit character occurs, and otherwise
      it is the first one that does. */
  lemma {:induction false} FirstUnitMeans(s: string)
    ensures FirstUnit(s) == "" <==> forall i | 0 <= i < |s| :: !IsUnitChar(s[i])
    ensures FirstUnit(s) != "" ==> exists i | 0 <= i < |s| ::
      && FirstUnit(s) == [s[i]] && IsUnitChar(s[i]) && forall j | 0 <= j < i :: !IsUnitChar(s[j])
  {
    if s != [] && !IsUnitChar(s[0]) {
      FirstUnitMeans(s[1..]);
      assert forall i | 0 < i < |s| :: s[i] == s[1..][i - 1];
      var rest := FirstUnit(s[1..]);
      if rest != "" {
        var i :| 0 <= i < |s[1..]| && rest == [s[1..][i]] && IsUnitChar(s[1..][i])
          && forall j | 0 <= j < i :: !IsUnitChar(s[1..][j]);
        assert s[i + 1] == s[1..][i];
      }
    }
  }

  /** `itemQuantity ? itemQuantity[0] : 1`: the digit string found, or the number 1. */
  datatype Quantity = DigitText(digits: string) | One

  /** One pushed `basketItems` object. */
  datatype BasketEntry = BasketEntry(name: string, quantity: Quantity, unit: string, portion: int)

  /** The entry for one ticked ingredient line (`textContent.trim()` of its `li`). */
  function ParseIngredient(text: string, portion: int): BasketEntry {
    var t := Trim(text, Js);
    var q := FirstDigitRun(t);
    BasketEntry(FirstWord(t), if q.Some? then DigitText(q.value) else One, FirstUnit(t), portion)
  }

  /** The name is the trimmed line's first word; the quantity defaults to 1
      exactly when the line has no digit, the unit to `''` exactly when it has
      no unit character. */
  lemma ParseIngredientMeans(text: string, portion: int)
    ensures var e, t := ParseIngredient(text, portion), Trim(text, Js);
      && e.name == FirstWord(t) && ' ' !in e.name && e.portion == portion
      && (e.quantity == One <==> forall i | 0 <= i < |t| :: !IsAsciiDigit(t[i]))
      && (e.quantity.DigitText? ==> e.quantity.digits != [] && AllDigits(e.quantity.digits))
      && (e.unit == "" <==> forall i | 0 <= i < |t| :: !IsUnitChar(t[i]))
  {
    var t := Trim(text, Js);
    FirstDigitRunMeans(t);
    FirstUnitMeans(t);
  }

  // Helper for the examples: a prefix without digits is skipped.
  lemma {:induction false} FirstDigitRunSkip(s: string, k: nat)
    requires k <= |s| && forall i | 0 <= i < k :: !IsAsciiDigit(s[i])
    ensures FirstDigitRun(s) == FirstDigitRun(s[k..])
  {
    if k > 0 {
      FirstDigitRunSkip(s[1..], k - 1);
      assert s[1..][k - 1..] == s[k..];
    }
  }

  // Helper for the examples: a prefix without unit characters is skipped.
  lemma {:induction false} FirstUnitSkip(s: string, k: nat)
    requires k <= |s| && forall i | 0 <= i < k :: !IsUnitChar(s[i])
    ensures FirstUnit(s) == FirstUnit(s[k..])
  {
    if k > 0 {
      FirstUnitSkip(s[1..], k - 1);
      assert s[1..][k - 1..] == s[k..];
    }
  }

  const TomatoLine := "西红柿 2 颗"
  const RibsLine := "排骨 500g"
  const DressingLine := "沙拉酱 150ml（约等于两勺）"

  // Helper for ParseCountedLine.
  lemma TomatoLineTrimmed()
    ensures Trim(TomatoLine, Js) == TomatoLine
  {
    var a := TomatoLine;
    assert |a| == 7 && a[0] == '西' && a[6] == '颗';
    TrimKeepsEnds(a, Js);
  }

  // Helper for ParseCountedLine.
  lemma TomatoLineWords()
    ensures FirstWord(TomatoLine) == "西红柿"
  {
    var a := TomatoLine;
    assert FirstWord(a[3..]) == [];
    assert FirstWord(a[2..]) == [a[2]] by {
      assert a[2..][1..] == a[3..];
    }
    assert FirstWord(a[1..]) == [a[1], a[2]] by {
      assert a[1..][1..] == a[2..];
    }
    assert a[0..] == a;
  }

  // Helper for ParseCountedLine.
  lemma TomatoLineCount()
    ensures FirstDigitRun(TomatoLine) == Some("2")
  {
    var a := TomatoLine;
    FirstDigitRunSkip(a, 4);
    var t := a[4..];
    assert t[0] == '2' && t[1..][0] == ' ';
    assert LeadingRun(t[1..], false) == [];
    assert LeadingRun(t, false) == "2";
  }

  // Helper for ParseCountedLine.
  lemma TomatoLineUnit()
    ensures FirstUnit(TomatoLine) == "颗"
  {
    FirstUnitSkip(TomatoLine, 6);
  }

  /** A counted line of a built-in recipe. */
  lemma ParseCountedLine()
    ensures ParseIngredient(TomatoLine, 1) == BasketEntry("西红柿", DigitText("2"), "颗", 1)
  {
    TomatoLineTrimmed();
    TomatoLineWords();
    TomatoLineCount();
    TomatoLineUnit();
  }

  // Helper for ParseWeighedLine.
  lemma RibsLineTrimmed()
    ensures Trim(RibsLine, Js) == RibsLine
  {
    var b := RibsLine;
    assert |b| == 7 && b[0] == '排' && b[6] == 'g';
    TrimKeepsEnds(b, Js);
  }

  // Helper for ParseWeighedLine.
  lemma RibsLineWords()
    ensures FirstWord(RibsLine) == "排骨"
  {
    var b := RibsLine;
    assert b[2] == ' ';
    assert FirstWord(b[2..]) == [];
    assert FirstWord(b[1..]) == [b[1]] by {
      assert b[1..][1..] == b[2..];
    }
    assert b[0..] == b;
  }

  // Helper for ParseWeighedLine.
  lemma RibsLineCount()
    ensures FirstDigitRun(RibsLine) == Some("500")
  {
    var b := RibsLine;
    FirstDigitRunSkip(b, 3);
    var t := b[3..];
    assert t[1..][1..][1..][0] == 'g';
    assert LeadingRun(t[1..][1..][1..], false) == [];
    assert LeadingRun(t, false) == "500";
  }

  // Helper for ParseWeighedLine.
  lemma RibsLineUnit()
    ensures FirstUnit(RibsLine) == ""
  {
    FirstUnitSkip(RibsLine, |RibsLine|);
  }

  /** A line whose unit is not one of the four gets no unit. */
  lemma ParseWeighedLine()
    ensures ParseIngredient(RibsLine, 2) == BasketEntry("排骨", DigitText("500"), "", 2)
  {
    RibsLineTrimmed();
    RibsLineWords();
    RibsLineCount();
    RibsLineUnit();
  }

  // Helper for ParseRemarkUnit.
  lemma DressingLineTrimmed()
    ensures Trim(DressingLine, Js) == DressingLine
  {
    var c := DressingLine;
    assert |c| == 16 && c[0] == '沙' && c[15] == '）';
    TrimKeepsEnds(c, Js);
  }

  // Helper for ParseRemarkUnit.
  lemma DressingLineUnit()
    ensures FirstUnit(DressingLine) == "勺"
  {
    var c := DressingLine;
    FirstUnitSkip(c, 14);
    assert c[14..][0] == '勺';
  }

  /** A unit mentioned anywhere on the line, as in a bracketed remark, is taken as the unit. */
  lemma ParseRemarkUnit()
    ensures ParseIngredient(DressingLine, 1).unit == "勺"
  {
    DressingLineTrimmed();
    DressingLineUnit();
  }

  /** The stored form of a basket entry. */
  function EntryJson(e: BasketEntry): Json {
    JObj(map[
      "name" := JStr(e.name),
      "quantity" := (match e.quantity case DigitText(d) => JStr(d) case One => JNum(1.0)),
      "unit" := JStr(e.unit),
      "portion" := JNum(e.portion as real)])
  }

  /** The stored entries for the ticked lines, in page order. */
  function Entries(texts: seq<string>, portion: int): seq<Json> {
    MapSeq(EntryOf(portion), texts)
  }

  /** The stored entry for one line. */
  function EntryOf(portion: int): string -> Json {
    t => EntryJson(ParseIngredient(t, portion))
  }

  /** `xs.map(f)`. */
  function MapSeq<A, B>(f: A -> B, xs: seq<A>): seq<B> {
    if xs == [] then [] else MapSeq(f, xs[..|xs| - 1]) + [f(xs[|xs| - 1])]
  }

  /** One value per element, the k-th made from the k-th element. */
  lemma {:induction false} MapSeqMeans<A, B>(f: A -> B, xs: seq<A>)
    ensures |MapSeq(f, xs)| == |xs|
    ensures forall k | 0 <= k < |xs| :: MapSeq(f, xs)[k] == f(xs[k])
  {
    if xs != [] {
      var init := xs[..|xs| - 1];
      MapSeqMeans(f, init);
      assert forall k | 0 <= k < |init| :: init[k] == xs[k];
    }
  }

  lemma MapSeqSnoc<A, B>(f: A -> B, xs: seq<A>, x: A)
    ensures MapSeq(f, xs + [x]) == MapSeq(f, xs) + [f(x)]
  {
    assert (xs + [x])[..|xs|] == xs;
  }

  /** One stored entry per ticked line, the k-th made from the k-th line. */
  lemma EntriesMeans(texts: seq<string>, portion: int)
    ensures |Entries(texts, portion)| == |texts|
    ensures forall k | 0 <= k < |texts| :: Entries(texts, portion)[k] == EntryJson(ParseIngredient(texts[k], portion))
  {
    MapSeqMeans(EntryOf(portion), texts);
  }

  /** The `forEach` over the ticked lines pushing `entry(line)` into `basketItems`. */
  method CollectEntries<B>(boxes: seq<Checkbox>, entry: string -> B) returns (basketItems: seq<B>)
    ensures basketItems == MapSeq(entry, CheckedValues(boxes))
  {
    basketItems := [];
    var i := 0;
    while i < |boxes|
      invariant 0 <= i <= |boxes|
      invariant basketItems == MapSeq(entry, CheckedValues(boxes[..i]))
    {
      assert boxes[..i + 1] == boxes[..i] + [boxes[i]];
      CheckedValuesSnoc(boxes[..i], boxes[i]);
      if boxes[i].checked {
        MapSeqSnoc(entry, CheckedValues(boxes[..i]), boxes[i].value);
        basketItems := basketItems + [entry(boxes[i].value)];
      } else {
        assert CheckedValues(boxes[..i + 1]) == CheckedValues(boxes[..i]);
      }
      i := i + 1;
    }
    assert boxes[..|boxes|] == boxes;
  }

  /** The basket after the ticked lines are appended with the given portion,
      and the count of lines appended. */
  method AppendEntries(existing: seq<Json>, boxes: seq<Checkbox>, portion: int)
    returns (newBasket: seq<Json>, added: nat)
    ensures newBasket == existing + Entries(CheckedValues(boxes), portion)
    ensures added == |CheckedValues(boxes)|
  {
    var basketItems := CollectEntries(boxes, EntryOf(portion));
    newBasket := existing + basketItems;
    added := |CheckedValues(boxes)|;
  }

  /** The add-to-basket button: `boxes` are the page's ingredient and condiment
      lines with their ticks, `existing` the stored basket. Returns the new basket
      and the count the alert reports. */
  method AddToBasket(existing: seq<Json>, boxes: seq<Checkbox>, portionText: Option<string>)
    returns (newBasket: seq<Json>, added: nat)
    ensures newBasket == existing + Entries(CheckedValues(boxes), Portion(portionText))
    ensures added == |CheckedValues(boxes)|
  {
    newBasket, added := AppendEntries(existing, boxes, Portion(portionText));
  }

  /** The page's lines as first rendered: ingredients then condiments, all ticked. */
  function InitialBoxes(r: RecipeCard): (boxes: seq<Checkbox>)
    ensures |boxes| == |r.ingredients| + |r.condiments|
  {
    seq(|r.ingredients| + |r.condiments|,
        k requires 0 <= k < |r.ingredients| + |r.condiments| => Checkbox((r.ingredients + r.condiments)[k], true))
  }

  /** With nothing unticked, every line of the recipe is added, in order. */
  lemma {:induction false} AllTickedAddsEveryLine(boxes: seq<Checkbox>)
    requires forall k | 0 <= k < |boxes| :: boxes[k].checked
    ensures |CheckedValues(boxes)| == |boxes|
    ensures forall k | 0 <= k < |boxes| :: CheckedValues(boxes)[k] == boxes[k].value
  {
    if boxes != [] {
      AllTickedAddsEveryLine(boxes[1..]);
      assert CheckedValues(boxes) == [boxes[0].value] + CheckedValues(boxes[1..]);
      forall k | 0 < k < |boxes| ensures CheckedValues(boxes)[k] == boxes[k].value {
        assert boxes[k] == boxes[1..][k - 1];
      }
    }
  }

  /** On a freshly rendered page every ingredient and condiment line goes
      into the basket, in page order. */
  lemma FreshPageAddsEveryLine(r: RecipeCard)
    ensures CheckedValues(InitialBoxes(r)) == r.ingredients + r.condiments
  {
    var boxes := InitialBoxes(r);
    AllTickedAddsEveryLine(boxes);
  }
}
