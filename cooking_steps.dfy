/** The cooking page's conversion of a recipe's flat step list into the
    two-level structure it displays: groups of at most three operations,
    each group a "step" with a subtitle, each operation a "sub-step". */
module CookingSteps {
  import opened Base
  import opened Text

  /** An element of a recipe's flat `steps` array: a string, or an object whose
      `description` and `name` members may be absent. A number or boolean reads
      as an object with neither; `null` and `undefined` are not modelled. */
  datatype RawStep =
    | TextStep(text: string)
    | ObjectStep(description: Option<string>, name: Option<string>)

  datatype SubStep = SubStep(name: string, steps: seq<string>)

  datatype Step = Step(name: string, subtitle: string, subSteps: seq<SubStep>)

  /** The members of a recipe the conversion looks at; `None` stands for a
      member that is absent or not an array. */
  datatype RecipeData = RecipeData(cookingSteps: Option<seq<Step>>, steps: Option<seq<RawStep>>)

  /** The text shown for one flat step. */
  function StepText(s: RawStep): (t: string)
    ensures s.TextStep? ==> t == s.text
    ensures s.ObjectStep? ==> t in {s.description.GetOr(""), s.name.GetOr(""), "操作步骤"}
    ensures t == "" ==> s.TextStep?
  {
    match s
    case TextStep(text) => text
    case ObjectStep(description, name) => OrDefault(description, OrDefault(name, "操作步骤"))
  }

  /** `Math.min(3, Math.ceil(n / 3))`. */
  function GroupSize(n: nat): (k: nat)
    ensures n == 0 ==> k == 0
    ensures n > 0 ==> 1 <= k <= 3
    ensures n <= 9 ==> n <= 3 * k
  {
    Min(3, (n + 2) / 3)
  }

  /** "准备工作", "制作过程", "完成收尾" for groups 1 to 3, then "第N阶段". */
  function Subtitle(number: nat): string {
    if number == 1 then "准备工作"
    else if number == 2 then "制作过程"
    else if number == 3 then "完成收尾"
    else "第" + NatToString(number) + "阶段"
  }

  /** The index of the first flat step of group j when groups have k steps: `j * k`. */
  function Start(j: nat, k: nat): nat {
    if j == 0 then 0 else Start(j - 1, k) + k
  }

  lemma {:induction false} StartIsProduct(j: nat, k: nat)
    ensures Start(j, k) == j * k
  {
    if j > 0 {
      StartIsProduct(j - 1, k);
    }
  }

  lemma {:induction false} StartMonotone(i: nat, j: nat, k: nat)
    requires i <= j
    ensures Start(i, k) <= Start(j, k)
    decreases j
  {
    if i < j {
      StartMonotone(i, j - 1, k);
    }
  }

  /** `Math.floor(Start(j, k) / k)` is j again. */
  lemma StartDiv(j: nat, k: nat)
    requires 1 <= k <= 3
    ensures Start(j, k) / k == j
  {
    StartIsProduct(j, k);
    if k == 1 {
    } else if k == 2 {
    } else {
    }
  }

  /** Group j (counting from 0) of a conversion with group size k. */
  predicate IsGroupOf(flat: seq<RawStep>, k: nat, j: nat, g: Step) {
    var start := Start(j, k);
    && start < |flat|
    && g.name == "步骤" + NatToString(j + 1)
    && g.subtitle == Subtitle(j + 1)
    && |g.subSteps| == Min(k, |flat| - start)
    && forall m | 0 <= m < |g.subSteps| ::
         start + m < |flat| && g.subSteps[m] == SubStep("操作" + NatToString(m + 1), [StepText(flat[start + m])])
  }

  /** `groups` is the conversion of `flat`: consecutive slices of GroupSize(|flat|)
      elements, as many as it takes to cover `flat`. */
  predicate IsGrouping(flat: seq<RawStep>, groups: seq<Step>) {
    var k := GroupSize(|flat|);
    && (|flat| == 0 ==> groups == [])
    && (|flat| > 0 ==> |groups| > 0 && Start(|groups| - 1, k) < |flat| <= Start(|groups|, k))
    && forall j | 0 <= j < |groups| :: IsGroupOf(flat, k, j, groups[j])
  }

  /** The step the loop appends for `flat.slice(i, i + k)`: one sub-step per
      element of the slice, numbered from 1. */
  function GroupAt(flat: seq<RawStep>, k: nat, i: nat, number: nat): (g: Step)
    requires i < |flat|
  {
    var size := Min(k, |flat| - i);
    Step("步骤" + NatToString(number), Subtitle(number),
         seq(size, m requires 0 <= m < size => SubStep("操作" + NatToString(m + 1), [StepText(flat[i + m])])))
  }

  lemma GroupAtIsGroupOf(flat: seq<RawStep>, k: nat, j: nat)
    requires Start(j, k) < |flat|
    ensures IsGroupOf(flat, k, j, GroupAt(flat, k, Start(j, k), j + 1))
  {
  }

  /** `convertRecipeDataToSteps`: a ready-made `cookingSteps` array is used as
      it is; otherwise a flat `steps` array is grouped; otherwise there are no steps. */
  method ConvertRecipeDataToSteps(data: Option<RecipeData>) returns (r: Option<seq<Step>>)
    ensures data.None? ==> r.None?
    ensures data.Some? && data.value.cookingSteps.Some? ==> r == data.value.cookingSteps
    ensures data.Some? && data.value.cookingSteps.None? && data.value.steps.None? ==> r.None?
    ensures data.Some? && data.value.cookingSteps.None? && data.value.steps.Some? ==>
              r.Some? && IsGrouping(data.value.steps.value, r.value)
  {
    if data.None? {
      return None;
    }
    if data.value.cookingSteps.Some? {
      return data.value.cookingSteps;
    }
    if data.value.steps.None? {
      return None;
    }
    var steps := data.value.steps.value;
    var k := GroupSize(|steps|);
    var converted: seq<Step> := [];
    var i := 0;
    while i < |steps|
      invariant i == Start(|converted|, k)
      invariant |converted| > 0 ==> Start(|converted| - 1, k) < |steps|
      invariant forall j | 0 <= j < |converted| :: IsGroupOf(steps, k, j, converted[j])
      decreases |steps| - i
    {
      StartDiv(|converted|, k);
      var number := i / k + 1;
      GroupAtIsGroupOf(steps, k, |converted|);
      converted := converted + [GroupAt(steps, k, i, number)];
      i := i + k;
    }
    return Some(converted);
  }

  /** The operation texts of the first p sub-steps, in order. */
  function SubStepLines(subs: seq<SubStep>, p: nat): seq<string>
    requires p <= |subs|
  {
    if p == 0 then [] else SubStepLines(subs, p - 1) + subs[p - 1].steps
  }

  /** The operation texts of the first q steps, in the order the page walks them. */
  function Lines(groups: seq<Step>, q: nat): seq<string>
    requires q <= |groups|
  {
    if q == 0 then [] else Lines(groups, q - 1) + SubStepLines(groups[q - 1].subSteps, |groups[q - 1].subSteps|)
  }

  function Texts(flat: seq<RawStep>): (t: seq<string>)
    ensures |t| == |flat| && forall i | 0 <= i < |flat| :: t[i] == StepText(flat[i])
  {
    seq(|flat|, i requires 0 <= i < |flat| => StepText(flat[i]))
  }

  /** Each sub-step holds the one text of `t` at `start` plus its position. */
  predicate HoldsTextsFrom(subs: seq<SubStep>, t: seq<string>, start: nat) {
    forall m | 0 <= m < |subs| :: start + m < |t| && subs[m].steps == [t[start + m]]
  }

  lemma {:induction false} GroupLines(subs: seq<SubStep>, t: seq<string>, start: nat, p: nat)
    requires HoldsTextsFrom(subs, t, start)
    requires start + |subs| <= |t|
    requires p <= |subs|
    ensures SubStepLines(subs, p) == t[start..start + p]
  {
    if p > 0 {
      GroupLines(subs, t, start, p - 1);
      assert subs[p - 1].steps == [t[start + p - 1]];
      assert t[start..start + p] == t[start..start + p - 1] + [t[start + p - 1]];
    }
  }

  lemma SliceJoin<T>(t: seq<T>, a: nat, b: nat)
    requires a <= b <= |t|
    ensures t[..a] + t[a..b] == t[..b]
  {
  }

  /** Group j's sub-steps carry the texts from `Start(j, k)` up to the next
      group's start. */
  predicate Placed(t: seq<string>, k: nat, j: nat, subs: seq<SubStep>) {
    && Start(j, k) + |subs| == Min(Start(j + 1, k), |t|)
    && HoldsTextsFrom(subs, t, Start(j, k))
  }

  // Helper for GroupingKeepsTexts: the placement facts of every group.
  lemma GroupsPlaced(flat: seq<RawStep>, groups: seq<Step>)
    requires IsGrouping(flat, groups)
    ensures forall j | 0 <= j < |groups| :: Placed(Texts(flat), GroupSize(|flat|), j, groups[j].subSteps)
  {
    var t := Texts(flat);
    forall j | 0 <= j < |groups|
      ensures Placed(t, GroupSize(|flat|), j, groups[j].subSteps)
    {
      assert IsGroupOf(flat, GroupSize(|flat|), j, groups[j]);
    }
  }

  lemma {:induction false} PrefixLines(t: seq<string>, k: nat, groups: seq<Step>, q: nat)
    requires forall j | 0 <= j < |groups| :: Placed(t, k, j, groups[j].subSteps)
    requires q <= |groups|
    ensures Lines(groups, q) == t[..Min(Start(q, k), |t|)]
  {
    if q > 0 {
      PrefixLines(t, k, groups, q - 1);
      var subs := groups[q - 1].subSteps;
      assert Placed(t, k, q - 1, subs);
      var a := Start(q - 1, k);
      var b := a + |subs|;
      assert b == Min(Start(q, k), |t|) && a <= |t|;
      assert Lines(groups, q) == Lines(groups, q - 1) + SubStepLines(subs, |subs|);
      assert Lines(groups, q - 1) == t[..a];
      GroupLines(subs, t, a, |subs|);
      SliceJoin(t, a, b);
    }
  }

  /** Walking the sub-steps of a conversion in order reads back exactly the
      texts of the flat steps, none lost, none repeated. */
  lemma GroupingKeepsTexts(flat: seq<RawStep>, groups: seq<Step>)
    requires IsGrouping(flat, groups)
    ensures Lines(groups, |groups|) == Texts(flat)
  {
    if |flat| > 0 {
      GroupsPlaced(flat, groups);
      PrefixLines(Texts(flat), GroupSize(|flat|), groups, |groups|);
    }
  }

  /** Every step of a conversion has at least one sub-step, every step but the
      last has exactly GroupSize(|flat|) of them, and there are never more than
      three sub-steps to a step. */
  lemma GroupingShape(flat: seq<RawStep>, groups: seq<Step>, j: nat)
    requires IsGrouping(flat, groups)
    requires j < |groups|
    ensures 1 <= |groups[j].subSteps| <= 3
    ensures j < |groups| - 1 ==> |groups[j].subSteps| == GroupSize(|flat|)
  {
    var k := GroupSize(|flat|);
    assert IsGroupOf(flat, k, j, groups[j]);
    if j < |groups| - 1 {
      StartMonotone(j + 1, |groups| - 1, k);
    }
  }

  /** A recipe of up to nine flat steps is shown in at most three steps. */
  lemma AtMostThreeGroups(flat: seq<RawStep>, groups: seq<Step>)
    requires IsGrouping(flat, groups)
    requires |flat| <= 9
    ensures |groups| <= 3
  {
    var k := GroupSize(|flat|);
    StartIsProduct(3, k);
    if |groups| > 3 {
      StartMonotone(3, |groups| - 1, k);
    }
  }
}
