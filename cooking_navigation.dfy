/** The cooking page's walk through a recipe: the position (step, sub-step),
    the next / previous moves driven by buttons, swipes and voice commands,
    the record written when the last sub-step is passed, and the classes the
    step cards are given. */
module CookingNavigation {
  import opened Base
  import opened Text
  import opened CookingSteps

  /** A position: index of the step and of the sub-step inside it. */
  datatype Pos = Pos(step: int, subStep: int)

  /** What one "next" does. */
  datatype Move = MovedTo(pos: Pos) | Finished | Ignored

  /** Every step has at least one sub-step (true of every conversion,
      see CookingSteps.GroupingShape). */
  predicate WellFormed(stepData: seq<Step>) {
    forall i | 0 <= i < |stepData| :: |stepData[i].subSteps| >= 1
  }

  predicate InRange(stepData: seq<Step>, p: Pos) {
    0 <= p.step < |stepData| && 0 <= p.subStep < |stepData[p.step].subSteps|
  }

  predicate IsLast(stepData: seq<Step>, p: Pos) {
    0 <= p.step && p.step == |stepData| - 1 && p.subStep == |stepData[p.step].subSteps| - 1
  }

  /** `goToNextSubStep`: nothing without step data or outside it; the next
      sub-step of the current step; else the first sub-step of the next step;
      else the recipe is finished. */
  function NextMove(stepData: Option<seq<Step>>, totalSteps: int, p: Pos): (m: Move)
    ensures (stepData.None? || !(0 <= p.step < |stepData.value|)) <==> m == Ignored
    ensures m.MovedTo? ==> m.pos.step == p.step || m.pos == Pos(p.step + 1, 0)
  {
    if stepData.None? || !(0 <= p.step < |stepData.value|) then Ignored
    else if p.subStep < |stepData.value[p.step].subSteps| - 1 then MovedTo(Pos(p.step, p.subStep + 1))
    else if p.step < totalSteps - 1 then MovedTo(Pos(p.step + 1, 0))
    else Finished
  }

  /** With the step count the script declares and never changes (0), "next"
      at the last sub-step of any step finishes the recipe instead of moving
      on to the next step. */
  lemma UnsetCountFinishesEarly(stepData: seq<Step>, p: Pos)
    requires 0 <= p.step < |stepData| && p.subStep == |stepData[p.step].subSteps| - 1
    ensures NextMove(Some(stepData), 0, p) == Finished
  {
  }

  /** `goToPrevSubStep`. The sub-step is decremented without looking at the step
      data; on a step boundary the step index drops first and the sub-step moves
      to the last of that step only when the step exists. Without step data the
      script throws right after the step index drops; the position here is what
      that leaves behind, and the throw itself is not modelled. */
  function PrevPos(stepData: Option<seq<Step>>, p: Pos): (q: Pos)
    ensures p.subStep > 0 ==> q == Pos(p.step, p.subStep - 1)
    ensures p.subStep <= 0 && p.step <= 0 ==> q == p
  {
    if p.subStep > 0 then Pos(p.step, p.subStep - 1)
    else if p.step > 0 then
      if stepData.Some? && 0 <= p.step - 1 < |stepData.value| then
        Pos(p.step - 1, |stepData.value[p.step - 1].subSteps| - 1)
      else Pos(p.step - 1, p.subStep)
    else p
  }

  /** A "next" from a valid position stays valid, and the recipe is finished
      exactly at its last sub-step (when the page's step count is the length
      of its step data). */
  lemma NextStaysInRange(stepData: seq<Step>, p: Pos)
    requires WellFormed(stepData) && InRange(stepData, p)
    ensures NextMove(Some(stepData), |stepData|, p).MovedTo? ==>
              InRange(stepData, NextMove(Some(stepData), |stepData|, p).pos)
    ensures NextMove(Some(stepData), |stepData|, p) == Finished <==> IsLast(stepData, p)
  {
  }

  /** A "previous" from a valid position stays valid. */
  lemma PrevStaysInRange(stepData: seq<Step>, p: Pos)
    requires WellFormed(stepData) && InRange(stepData, p)
    ensures InRange(stepData, PrevPos(Some(stepData), p))
  {
  }

  /** "previous" undoes "next". */
  lemma PrevUndoesNext(stepData: seq<Step>, p: Pos)
    requires WellFormed(stepData) && InRange(stepData, p)
    requires NextMove(Some(stepData), |stepData|, p).MovedTo?
    ensures PrevPos(Some(stepData), NextMove(Some(stepData), |stepData|, p).pos) == p
  {
  }

  /** "next" undoes "previous", except at the very first sub-step. */
  lemma NextUndoesPrev(stepData: seq<Step>, p: Pos)
    requires WellFormed(stepData) && InRange(stepData, p)
    requires p != Pos(0, 0)
    ensures NextMove(Some(stepData), |stepData|, PrevPos(Some(stepData), p)) == MovedTo(p)
  {
  }

  /** Number of sub-steps in the first n steps. */
  function SubStepsBefore(stepData: seq<Step>, n: nat): nat
    requires n <= |stepData|
  {
    if n == 0 then 0 else SubStepsBefore(stepData, n - 1) + |stepData[n - 1].subSteps|
  }

  /** How many sub-steps precede position p in reading order. */
  function Ordinal(stepData: seq<Step>, p: Pos): int
    requires InRange(stepData, p)
  {
    SubStepsBefore(stepData, p.step) + p.subStep
  }

  /** Each "next" that moves advances exactly one sub-step in reading order, so
      a walk from the first sub-step visits every sub-step once, in order. */
  lemma NextAdvancesOne(stepData: seq<Step>, p: Pos)
    requires WellFormed(stepData) && InRange(stepData, p)
    requires NextMove(Some(stepData), |stepData|, p).MovedTo?
    ensures InRange(stepData, NextMove(Some(stepData), |stepData|, p).pos)
    ensures Ordinal(stepData, NextMove(Some(stepData), |stepData|, p).pos) == Ordinal(stepData, p) + 1
  {
  }

  /** The last sub-step is the (total − 1)-th in reading order. */
  lemma LastOrdinal(stepData: seq<Step>, p: Pos)
    requires WellFormed(stepData) && InRange(stepData, p) && IsLast(stepData, p)
    ensures Ordinal(stepData, p) == SubStepsBefore(stepData, |stepData|) - 1
  {
  }

  // ---------------------------------------------------------------- completion

  function Pad2(n: nat): string {
    PadStart(NatToString(n), 2, '0')
  }

  /** `formatDateKey`: YYYY-MM-DD with the year unpadded and month and day padded to two digits. */
  function FormatDateKey(d: LocalDate): (key: string)
    requires ValidDate(d)
  {
    IntToString(d.year) + "-" + Pad2(d.month + 1) + "-" + Pad2(d.day)
  }

  lemma {:induction false} Pad2Value(n: nat)
    requires n < 100
    ensures |Pad2(n)| == 2 && AllDigits(Pad2(n)) && DigitsValue(Pad2(n)) == n
  {
    DigitsValueNatToString(n);
    var s := NatToString(n);
    if n < 10 {
      assert Pad2(n) == "0" + s;
      assert Pad2(n)[..1] == "0";
    } else {
      assert NatToString(n / 10) == [DigitChar(n / 10)];
      assert |s| == 2;
    }
  }

  /** The date key is the year, a dash, two digits giving month + 1, a dash and
      two digits giving the day. */
  lemma DateKeyFields(d: LocalDate)
    requires ValidDate(d)
    ensures var key, y := FormatDateKey(d), IntToString(d.year);
      && |key| == |y| + 6
      && key[..|y|] == y && key[|y|] == '-' && key[|y| + 3] == '-'
      && AllDigits(key[|y| + 1..|y| + 3]) && DigitsValue(key[|y| + 1..|y| + 3]) == d.month + 1
      && AllDigits(key[|y| + 4..]) && DigitsValue(key[|y| + 4..]) == d.day
  {
    var y := IntToString(d.year);
    var key := FormatDateKey(d);
    Pad2Value(d.month + 1);
    Pad2Value(d.day);
    assert key == y + "-" + Pad2(d.month + 1) + "-" + Pad2(d.day);
    assert key[|y| + 1..|y| + 3] == Pad2(d.month + 1);
    assert key[|y| + 4..] == Pad2(d.day);
  }

  /** Different dates get different keys, so each day has its own counter. */
  lemma DateKeyInjective(d1: LocalDate, d2: LocalDate)
    requires ValidDate(d1) && ValidDate(d2)
    requires FormatDateKey(d1) == FormatDateKey(d2)
    ensures d1 == d2
  {
    var key := FormatDateKey(d1);
    DateKeyFields(d1);
    DateKeyFields(d2);
    var y1, y2 := IntToString(d1.year), IntToString(d2.year);
    assert |y1| == |y2|;
    assert y1 == key[..|y1|] == y2;
    IntToStringInjective(d1.year, d2.year);
  }

  datatype CompletionRecord = CompletionRecord(date: string, name: string, timestamp: int)

  /** What the page keeps in storage about finished recipes: the per-day counter
      (`chefmate_cooking_frequency`), the list of completions
      (`chefmate_completed_recipes`) and the `chefmate_has_real_data` flag. */
  datatype CookingRecords = CookingRecords(frequency: map<string, int>, completed: seq<CompletionRecord>, hasRealData: bool)

  /** `recordCookingCompletion` on the stored records; the clock readings are parameters. */
  function RecordCompletion(records: CookingRecords, recipeTitle: Option<string>,
                            today: LocalDate, isoDate: string, nowMs: int): (r: CookingRecords)
    requires ValidDate(today)
    ensures r.hasRealData
    ensures r.frequency.Keys == records.frequency.Keys + {FormatDateKey(today)}
    ensures forall k | k in records.frequency && k != FormatDateKey(today) :: r.frequency[k] == records.frequency[k]
    ensures |r.completed| == |records.completed| + 1 && r.completed[..|records.completed|] == records.completed
  {
    var key := FormatDateKey(today);
    var count := if key in records.frequency && records.frequency[key] != 0 then records.frequency[key] + 1 else 1;
    CookingRecords(records.frequency[key := count],
                   records.completed + [CompletionRecord(isoDate, OrDefault(recipeTitle, "这道菜"), nowMs)],
                   true)
  }

  /** Today's counter goes up by exactly one, a missing counter counting as zero
      (a stored zero is falsy and restarts at one, which is the same thing). */
  lemma CompletionCountsOne(records: CookingRecords, title: Option<string>, today: LocalDate, iso: string, now: int)
    requires ValidDate(today)
    ensures var key, r := FormatDateKey(today), RecordCompletion(records, title, today, iso, now);
      r.frequency[key] == (if key in records.frequency then records.frequency[key] else 0) + 1
  {
  }

  /** The page never learns the recipe's title, so every completion is recorded
      under the placeholder name. */
  lemma CompletionName(records: CookingRecords, today: LocalDate, iso: string, now: int)
    requires ValidDate(today)
    ensures var r := RecordCompletion(records, None, today, iso, now);
      r.completed[|r.completed| - 1] == CompletionRecord(iso, "这道菜", now)
  {
  }

  // ------------------------------------------------------------------- voice

  const NextStepWords: seq<string> := ["下一步", "继续", "往下", "下一个", "接着来", "然后呢", "接下来", "下一步是什么"]
  const PrevStepWords: seq<string> := ["上一步", "返回", "回去", "上一个", "刚才", "之前", "退回去", "退回"]

  /** Some word of the list occurs in the lower-cased text. */
  predicate MentionsAny(text: string, words: seq<string>) {
    exists i | 0 <= i < |words| :: Contains(Lower(text), words[i])
  }

  datatype Intent = NextIntent | PrevIntent | NoIntent

  /** `processUserTranscript`: a "next" word wins over a "previous" word;
      a transcript with neither does nothing. */
  function ClassifyTranscript(text: string): (r: Intent)
    ensures r == NextIntent <==> MentionsAny(text, NextStepWords)
    ensures r == PrevIntent <==> !MentionsAny(text, NextStepWords) && MentionsAny(text, PrevStepWords)
  {
    if MentionsAny(text, NextStepWords) then NextIntent
    else if MentionsAny(text, PrevStepWords) then PrevIntent
    else NoIntent
  }

  lemma {:induction false} LowerIdempotent(s: string)
    ensures Lower(Lower(s)) == Lower(s)
  {
    assert forall i | 0 <= i < |s| :: LowerChar(LowerChar(s[i])) == LowerChar(s[i]);
  }

  /** Lower-casing a transcript first does not change what it asks for. */
  lemma ClassifyIgnoresCase(text: string)
    ensures ClassifyTranscript(Lower(text)) == ClassifyTranscript(text)
  {
    LowerIdempotent(text);
  }

  /** A plain "carry on" goes forward. */
  lemma ClassifyCarryOn()
    ensures ClassifyTranscript("好的继续") == NextIntent
  {
    assert Lower("好的继续") == "好的继续";
    assert OccursAt("好的继续", "继续", 2);
    assert Contains(Lower("好的继续"), NextStepWords[1]);
  }

  /** "Go back" goes back. */
  lemma ClassifyGoBack()
    ensures ClassifyTranscript("返回") == PrevIntent
  {
    assert Lower("返回") == "返回";
    assert OccursAt("返回", "返回", 0);
    assert Contains(Lower("返回"), PrevStepWords[1]);
  }

  /** A transcript naming both directions goes forward. */
  lemma ClassifyBothDirections()
    ensures ClassifyTranscript("先返回再继续") == NextIntent
  {
    assert Lower("先返回再继续") == "先返回再继续";
    assert OccursAt("先返回再继续", "继续", 4);
    assert Contains(Lower("先返回再继续"), NextStepWords[1]);
  }

  /** A transcript shorter than every command word moves nothing. */
  lemma ClassifyShortRemark(c: char)
    ensures ClassifyTranscript([c]) == NoIntent
  {
    assert |Lower([c])| == 1;
  }

  // ------------------------------------------------------------------- swipes

  datatype Swipe = SwipeNext | SwipePrev | NoSwipe

  /** `handleTouchEnd`'s decision: an upward drag of more than 50 px, or of more
      than 30 px within 300 ms, goes forward; the mirror image goes back;
      nothing happens while the content is scrolling. */
  function ClassifySwipe(deltaY: int, swipeTime: int, isScrolling: bool): (r: Swipe)
    ensures r == SwipeNext <==> !isScrolling && (deltaY < -50 || (swipeTime < 300 && deltaY < -30))
    ensures r == SwipePrev <==> !isScrolling && (deltaY > 50 || (swipeTime < 300 && deltaY > 30))
  {
    var isQuickSwipe := swipeTime < 300;
    if isScrolling then NoSwipe
    else if deltaY < -50 || (isQuickSwipe && deltaY < -30) then SwipeNext
    else if deltaY > 50 || (isQuickSwipe && deltaY > 30) then SwipePrev
    else NoSwipe
  }

  /** Swiping down mirrors swiping up, and a drag of at most 30 px never moves. */
  lemma SwipeSymmetric(deltaY: int, swipeTime: int, isScrolling: bool)
    ensures ClassifySwipe(deltaY, swipeTime, isScrolling) == SwipeNext <==> ClassifySwipe(-deltaY, swipeTime, isScrolling) == SwipePrev
    ensures -30 <= deltaY <= 30 ==> ClassifySwipe(deltaY, swipeTime, isScrolling) == NoSwipe
  {
  }

  /** Scroll geometry of the steps container, in pixels. */
  datatype ScrollMetrics = ScrollMetrics(scrollTop: int, scrollHeight: int, clientHeight: int)

  /** The drag pulls the content down at its top or up at its bottom (5 px tolerance). */
  predicate PulledPastEdge(c: ScrollMetrics, deltaY: int) {
    (c.scrollTop <= 5 && deltaY > 0) || (c.scrollTop + c.clientHeight >= c.scrollHeight - 5 && deltaY < 0)
  }

  // -------------------------------------------------------------- step cards

  datatype CardRole = Current | Upcoming | Done | Hidden

  /** A card's class and the stacking of a finished card: lifted by
      20 + 5 px per step behind, shrunk by 0.02 per step behind, stacked
      above the cards finished before it. */
  datatype CardStyle = CardStyle(role: CardRole, liftPx: int, scale: real, zIndex: Option<int>)

  /** `updateStepDisplay` for one card. */
  function CardStyleAt(index: int, currentStep: int): CardStyle {
    if index == currentStep then CardStyle(Current, 0, 1.0, None)
    else if index == currentStep + 1 then CardStyle(Upcoming, 0, 1.0, None)
    else if index < currentStep then
      CardStyle(Done, 20 + (currentStep - index) * 5, 0.9 - (currentStep - index) as real * 0.02, Some(index + 1))
    else CardStyle(Hidden, 0, 1.0, None)
  }

  /** `updateStepDisplay`: with no cards there is nothing to do; otherwise every
      card gets its role and stacking. */
  method UpdateStepDisplay(pageCount: nat, currentStep: int) returns (r: Option<seq<CardStyle>>)
    ensures pageCount == 0 <==> r.None?
    ensures r.Some? ==> |r.value| == pageCount && forall i | 0 <= i < pageCount :: r.value[i] == CardStyleAt(i, currentStep)
  {
    if pageCount == 0 {
      return None;
    }
    var styles: seq<CardStyle> := [];
    for i := 0 to pageCount
      invariant |styles| == i
      invariant forall j | 0 <= j < i :: styles[j] == CardStyleAt(j, currentStep)
    {
      styles := styles + [CardStyleAt(i, currentStep)];
    }
    return Some(styles);
  }

  /** Of two finished cards, the one further back sits lower in the stack,
      higher up and smaller. */
  lemma CardStacking(currentStep: int, i: int, j: int)
    requires 0 <= i < j < currentStep
    ensures CardStyleAt(i, currentStep).role == Done && CardStyleAt(j, currentStep).role == Done
    ensures CardStyleAt(i, currentStep).zIndex.value < CardStyleAt(j, currentStep).zIndex.value
    ensures CardStyleAt(i, currentStep).liftPx > CardStyleAt(j, currentStep).liftPx
    ensures CardStyleAt(i, currentStep).scale < CardStyleAt(j, currentStep).scale
  {
  }

  /** Exactly the card at the position is current, exactly the one after it is
      upcoming, and exactly the cards before it are finished. */
  lemma CardRoles(currentStep: int, i: int)
    ensures CardStyleAt(i, currentStep).role == Current <==> i == currentStep
    ensures CardStyleAt(i, currentStep).role == Upcoming <==> i == currentStep + 1
    ensures CardStyleAt(i, currentStep).role == Done <==> i < currentStep
  {
  }

  // ------------------------------------------------------------------ the page

  /** Everything a navigation or touch event can change. */
  datatype Progress = Progress(pos: Pos, records: CookingRecords, location: Option<string>)

  /** The effect of one "next" on the page's progress. */
  function AfterNext(stepData: Option<seq<Step>>, totalSteps: int, recipeTitle: Option<string>,
                     pr: Progress, today: LocalDate, isoDate: string, nowMs: int): Progress
    requires ValidDate(today)
  {
    match NextMove(stepData, totalSteps, pr.pos)
    case Ignored => pr
    case MovedTo(q) => pr.(pos := q)
    case Finished => pr.(records := RecordCompletion(pr.records, recipeTitle, today, isoDate, nowMs),
                         location := Some("trophy.html"))
  }

  /** The recipe-cooking page: step data, position, stored records and the
      state of the touch gesture in progress. */
  class CookingPage {
    const stepData: Option<seq<Step>>
    const totalSteps: int
    /** Never assigned by the page, so it stays absent. */
    const recipeTitle: Option<string>
    var currentStep: int
    var currentSubStep: int
    var records: CookingRecords
    /** Where the page has sent the browser, if anywhere. */
    var location: Option<string>
    var startY: int
    var currentY: int
    var startTime: int
    var isScrolling: bool

    function CurrentProgress(): Progress
      reads this
    {
      Progress(Pos(currentStep, currentSubStep), records, location)
    }

    /** The page once its step data and step count are known. The script
        declares the count as 0 and never assigns it; the helper that would
        fill in the step data is not part of it, so both are given here. */
    constructor(stepData: Option<seq<Step>>, totalSteps: int, records: CookingRecords)
      ensures this.stepData == stepData && this.totalSteps == totalSteps && recipeTitle.None?
      ensures CurrentProgress() == Progress(Pos(0, 0), records, None)
      ensures startY == 0 && currentY == 0 && startTime == 0 && !isScrolling
      ensures WellFormed(stepData.GetOr([])) && stepData.GetOr([]) != [] && totalSteps == |stepData.GetOr([])|
        ==> OnTrack()
    {
      this.stepData := stepData;
      this.totalSteps := totalSteps;
      recipeTitle := None;
      currentStep, currentSubStep := 0, 0;
      this.records := records;
      location := None;
      startY, currentY, startTime, isScrolling := 0, 0, 0, false;
    }

    /** The position is on a sub-step of well-formed step data whose length is the step count. */
    predicate OnTrack()
      reads this
    {
      stepData.Some? && WellFormed(stepData.value) && totalSteps == |stepData.value|
      && InRange(stepData.value, Pos(currentStep, currentSubStep))
    }

    method GoToNextSubStep(today: LocalDate, isoDate: string, nowMs: int)
      requires ValidDate(today)
      modifies this
      ensures CurrentProgress() == AfterNext(stepData, totalSteps, recipeTitle, old(CurrentProgress()), today, isoDate, nowMs)
      ensures startY == old(startY) && currentY == old(currentY) && startTime == old(startTime) && isScrolling == old(isScrolling)
      ensures old(OnTrack()) ==> OnTrack()
    {
      ghost var p := Pos(currentStep, currentSubStep);
      if stepData.None? || !(0 <= currentStep < |stepData.value|) {
        return;
      }
      var totalSubSteps := |stepData.value[currentStep].subSteps|;
      if currentSubStep < totalSubSteps - 1 {
        currentSubStep := currentSubStep + 1;
      } else if currentStep < totalSteps - 1 {
        currentStep := currentStep + 1;
        currentSubStep := 0;
      } else {
        records := RecordCompletion(records, recipeTitle, today, isoDate, nowMs);
        location := Some("trophy.html");
      }
      if old(OnTrack()) && NextMove(stepData, totalSteps, p).MovedTo? {
        NextStaysInRange(stepData.value, p);
      }
    }

    method GoToPrevSubStep()
      modifies this
      ensures CurrentProgress() == old(CurrentProgress()).(pos := PrevPos(stepData, old(Pos(currentStep, currentSubStep))))
      ensures startY == old(startY) && currentY == old(currentY) && startTime == old(startTime) && isScrolling == old(isScrolling)
      ensures old(OnTrack()) ==> OnTrack()
    {
      if currentSubStep > 0 {
        currentSubStep := currentSubStep - 1;
      } else if currentStep > 0 {
        currentStep := currentStep - 1;
        if stepData.Some? && 0 <= currentStep < |stepData.value| {
          currentSubStep := |stepData.value[currentStep].subSteps| - 1;
        }
      }
    }

    /** `processUserTranscript`. */
    method ProcessUserTranscript(text: string, today: LocalDate, isoDate: string, nowMs: int)
      requires ValidDate(today)
      modifies this
      ensures ClassifyTranscript(text) == NextIntent ==>
                CurrentProgress() == AfterNext(stepData, totalSteps, recipeTitle, old(CurrentProgress()), today, isoDate, nowMs)
      ensures ClassifyTranscript(text) == PrevIntent ==>
                CurrentProgress() == old(CurrentProgress()).(pos := PrevPos(stepData, old(Pos(currentStep, currentSubStep))))
      ensures ClassifyTranscript(text) == NoIntent ==> CurrentProgress() == old(CurrentProgress())
      ensures startY == old(startY) && currentY == old(currentY) && startTime == old(startTime) && isScrolling == old(isScrolling)
      ensures old(OnTrack()) ==> OnTrack()
    {
      if MentionsAny(text, NextStepWords) {
        GoToNextSubStep(today, isoDate, nowMs);
        return;
      }
      if MentionsAny(text, PrevStepWords) {
        GoToPrevSubStep();
        return;
      }
    }

    /** `handleTouchStart`; `container` is the steps container's geometry, if there is one. */
    method HandleTouchStart(y: int, nowMs: int, container: Option<ScrollMetrics>)
      modifies this
      ensures startY == y && currentY == y && startTime == nowMs
      ensures isScrolling <==> container.Some? && container.value.scrollHeight > container.value.clientHeight
      ensures CurrentProgress() == old(CurrentProgress())
    {
      startY := y;
      currentY := startY;
      startTime := nowMs;
      if container.Some? {
        isScrolling := container.value.scrollHeight > container.value.clientHeight;
      } else {
        isScrolling := false;
      }
    }

    /** `handleTouchMove`: scrolling stops counting once the content is pulled
        past its top or bottom edge (5 px tolerance). */
    method HandleTouchMove(y: int, container: Option<ScrollMetrics>)
      modifies this
      ensures old(startY) == 0 ==> currentY == old(currentY) && isScrolling == old(isScrolling)
      ensures old(startY) != 0 ==> currentY == y
      ensures old(startY) != 0 ==>
        var deltaY := y - startY;
        (isScrolling <==> (old(isScrolling) && !(container.Some? && PulledPastEdge(container.value, deltaY))))
      ensures startY == old(startY) && startTime == old(startTime)
      ensures CurrentProgress() == old(CurrentProgress())
    {
      if startY == 0 {
        return;
      }
      currentY := y;
      var deltaY := currentY - startY;
      if isScrolling && container.Some? {
        var c := container.value;
        if (c.scrollTop <= 5 && deltaY > 0) || (c.scrollTop + c.clientHeight >= c.scrollHeight - 5 && deltaY < 0) {
          assert PulledPastEdge(c, deltaY);
          isScrolling := false;
        }
      }
    }

    /** `handleTouchEnd`: act on the swipe, then forget the gesture. */
    method HandleTouchEnd(nowMs: int, today: LocalDate, isoDate: string)
      requires ValidDate(today)
      modifies this
      ensures old(startY) == 0 ==>
        (CurrentProgress() == old(CurrentProgress()) && startY == 0 && currentY == old(currentY) && isScrolling == old(isScrolling))
      ensures old(startY) != 0 ==> startY == 0 && currentY == 0 && !isScrolling
      ensures old(startY) != 0 ==>
        match ClassifySwipe(old(currentY - startY), nowMs - old(startTime), old(isScrolling))
        case SwipeNext => CurrentProgress() == AfterNext(stepData, totalSteps, recipeTitle, old(CurrentProgress()), today, isoDate, nowMs)
        case SwipePrev => CurrentProgress() == old(CurrentProgress()).(pos := PrevPos(stepData, old(Pos(currentStep, currentSubStep))))
        case NoSwipe => CurrentProgress() == old(CurrentProgress())
      ensures old(OnTrack()) ==> OnTrack()
    {
      if startY == 0 {
        return;
      }
      var deltaY := currentY - startY;
      var swipeTime := nowMs - startTime;
      var isQuickSwipe := swipeTime < 300;
      if !isScrolling {
        if deltaY < -50 || (isQuickSwipe && deltaY < -30) {
          GoToNextSubStep(today, isoDate, nowMs);
        } else if deltaY > 50 || (isQuickSwipe && deltaY > 30) {
          GoToPrevSubStep();
        }
      }
      startY := 0;
      currentY := 0;
      isScrolling := false;
    }
  }
}
