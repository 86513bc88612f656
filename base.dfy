/** Values shared by every page model: an optional value and the shape of a
    parsed JSON value, with the two truthiness rules the sources rely on
    (JavaScript `||` / `if (x)` and Python `not x`). */
module Base {

  datatype Option<+T> = None | Some(value: T) {
    function GetOr(default: T): T {
      match this
      case Some(v) => v
      case None => default
    }
  }

  /** A value produced by `JSON.parse` / `json.loads`. Numbers are reals.
      `json.loads` also accepts `NaN` and `Infinity`; the backend only tests
      numbers for truthiness, where any non-zero `JNum` stands in for them. */
  datatype Json =
    | JNull
    | JBool(b: bool)
    | JNum(n: real)
    | JStr(s: string)
    | JArr(items: seq<Json>)
    | JObj(fields: map<string, Json>)

  /** JavaScript truthiness: `null`, `false`, `0` and `""` are falsy;
      every array and object, even an empty one, is truthy. */
  predicate JsTruthy(v: Json) {
    match v
    case JNull => false
    case JBool(b) => b
    case JNum(n) => n != 0.0
    case JStr(s) => s != ""
    case JArr(_) => true
    case JObj(_) => true
  }

  /** Python truthiness: `None`, `False`, zero and every empty container are falsy. */
  predicate PyTruthy(v: Json) {
    match v
    case JNull => false
    case JBool(b) => b
    case JNum(n) => n != 0.0
    case JStr(s) => s != ""
    case JArr(items) => items != []
    case JObj(fields) => fields != map[]
  }

  /** `dict.get(key)` / `obj.key` on a parsed object: absent keys read as null. */
  function Field(fields: map<string, Json>, key: string): (v: Json)
    ensures key !in fields ==> v == JNull
    ensures key in fields ==> v == fields[key]
  {
    if key in fields then fields[key] else JNull
  }

  /** The strings of a list as JSON strings. */
  function Strs(values: seq<string>): (r: seq<Json>)
    ensures |r| == |values| && forall k | 0 <= k < |values| :: r[k] == JStr(values[k])
  {
    seq(|values|, k requires 0 <= k < |values| => JStr(values[k]))
  }

  /** JavaScript `s || fallback` for a value that is either a string or absent:
      an absent value and the empty string both fall back. */
  function OrDefault(s: Option<string>, fallback: string): (r: string)
    ensures s.Some? && s.value != "" ==> r == s.value
    ensures (s.None? || s.value == "") ==> r == fallback
  {
    if s.Some? && s.value != "" then s.value else fallback
  }

  /** A local calendar date as `Date` reports it: full year, month 0..11, day 1..31. */
  datatype LocalDate = LocalDate(year: int, month: int, day: int)

  predicate ValidDate(d: LocalDate) {
    0 <= d.month <= 11 && 1 <= d.day <= 31
  }

  /** A checkbox on a page: its value (or its label text) and whether it is ticked. */
  datatype Checkbox = Checkbox(value: string, checked: bool)

  /** The values of the ticked boxes, in page order. */
  function CheckedValues(boxes: seq<Checkbox>): (r: seq<string>)
    ensures |r| <= |boxes|
  {
    if boxes == [] then []
    else (if boxes[0].checked then [boxes[0].value] else []) + CheckedValues(boxes[1..])
  }

  /** Every collected value belongs to a ticked box, and every ticked box's
      value is collected. */
  lemma {:induction false} CheckedValuesMeans(boxes: seq<Checkbox>)
    ensures forall v | v in CheckedValues(boxes) :: exists i | 0 <= i < |boxes| :: boxes[i].checked && boxes[i].value == v
    ensures forall i | 0 <= i < |boxes| && boxes[i].checked :: boxes[i].value in CheckedValues(boxes)
  {
    if boxes != [] {
      CheckedValuesMeans(boxes[1..]);
      forall v | v in CheckedValues(boxes)
        ensures exists i | 0 <= i < |boxes| :: boxes[i].checked && boxes[i].value == v
      {
        if !(boxes[0].checked && boxes[0].value == v) {
          assert v in CheckedValues(boxes[1..]);
          var i :| 0 <= i < |boxes[1..]| && boxes[1..][i].checked && boxes[1..][i].value == v;
          assert boxes[i + 1] == boxes[1..][i];
        }
      }
      forall i | 0 <= i < |boxes| && boxes[i].checked
        ensures boxes[i].value in CheckedValues(boxes)
      {
        if i > 0 {
          assert boxes[i] == boxes[1..][i - 1];
        }
      }
    }
  }

  /** Ticking one more box at the end adds its value at the end. */
  lemma {:induction false} CheckedValuesSnoc(boxes: seq<Checkbox>, b: Checkbox)
    ensures CheckedValues(boxes + [b]) == CheckedValues(boxes) + (if b.checked then [b.value] else [])
  {
    if boxes == [] {
      assert boxes + [b] == [b];
      assert [b][1..] == [];
    } else {
      CheckedValuesSnoc(boxes[1..], b);
      assert (boxes + [b])[0] == boxes[0];
      assert (boxes + [b])[1..] == boxes[1..] + [b];
    }
  }

  function Min(a: int, b: int): int {
    if a <= b then a else b
  }

  /** Regrouping a concatenation: the step of most append lemmas. */
  lemma Regroup<T>(whole: seq<T>, l: seq<T>, rest: seq<T>, x: seq<T>, y: seq<T>, left: seq<T>)
    requires whole == l + rest && rest == x + y && left == l + x
    ensures whole == left + y
  {
  }

  /** The members of a filtered list come from the list: the head, when it is
      kept, and the members of the filtered tail. */
  lemma ConsMembers<T>(s: seq<T>, head: seq<T>, rest: seq<T>, r: seq<T>)
    requires s != [] && (head == [s[0]] || head == []) && r == head + rest
    requires forall k | 0 <= k < |rest| :: rest[k] in s[1..]
    ensures forall i | 0 <= i < |r| :: r[i] in s
  {
    forall i | 0 <= i < |r|
      ensures r[i] in s
    {
      if i >= |head| {
        assert r[i] == rest[i - |head|];
        var j :| 0 <= j < |s[1..]| && s[1..][j] == r[i];
        assert s[j + 1] == r[i];
      }
    }
  }

  // ------------------------------------------------------------------- filter

  /** `Array.prototype.filter` and a character-class `re.sub`: the elements of
      `s` that satisfy `keep`, in order. */
  function Filter<T>(s: seq<T>, keep: T -> bool): (r: seq<T>)
    ensures |r| <= |s|
  {
    if s == [] then [] else (if keep(s[0]) then [s[0]] else []) + Filter(s[1..], keep)
  }

  /** Every element left by the filter satisfies `keep`. */
  lemma {:induction false} FilterLeavesKept<T>(s: seq<T>, keep: T -> bool)
    ensures forall i | 0 <= i < |Filter(s, keep)| :: keep(Filter(s, keep)[i])
  {
    if s != [] {
      FilterLeavesKept(s[1..], keep);
      var head, tail := if keep(s[0]) then [s[0]] else [], Filter(s[1..], keep);
      forall i | 0 <= i < |head + tail|
        ensures keep((head + tail)[i])
      {
        if i >= |head| {
          assert (head + tail)[i] == tail[i - |head|];
        }
      }
    }
  }

  /** The filter keeps exactly the members of `s` that satisfy `keep`. */
  lemma {:induction false} FilterMembers<T>(s: seq<T>, keep: T -> bool)
    ensures forall i | 0 <= i < |Filter(s, keep)| :: Filter(s, keep)[i] in s
    ensures forall i | 0 <= i < |s| :: keep(s[i]) ==> s[i] in Filter(s, keep)
  {
    if s != [] {
      FilterMembers(s[1..], keep);
      var head, tail := if keep(s[0]) then [s[0]] else [], Filter(s[1..], keep);
      assert Filter(s, keep) == head + tail;
      ConsMembers(s, head, tail, Filter(s, keep));
      forall i | 0 <= i < |s| && keep(s[i])
        ensures s[i] in Filter(s, keep)
      {
        if i > 0 {
          assert s[i] == s[1..][i - 1];
          var j :| 0 <= j < |tail| && tail[j] == s[i];
          assert (head + tail)[|head| + j] == s[i];
        }
      }
    }
  }

  /** Filtering a concatenation filters each part. */
  lemma {:induction false} FilterAppend<T>(a: seq<T>, b: seq<T>, keep: T -> bool)
    ensures Filter(a + b, keep) == Filter(a, keep) + Filter(b, keep)
  {
    if a == [] {
      assert a + b == b;
    } else {
      FilterAppend(a[1..], b, keep);
      assert (a + b)[1..] == a[1..] + b && (a + b)[0] == a[0];
      Regroup(Filter(a + b, keep), if keep(a[0]) then [a[0]] else [], Filter(a[1..] + b, keep),
              Filter(a[1..], keep), Filter(b, keep), Filter(a, keep));
    }
  }

  /** A list whose every element satisfies `keep` is left as it is. */
  lemma {:induction false} FilterKeepsAll<T>(s: seq<T>, keep: T -> bool)
    requires forall i | 0 <= i < |s| :: keep(s[i])
    ensures Filter(s, keep) == s
  {
    if s != [] {
      FilterKeepsAll(s[1..], keep);
    }
  }

  /** A list is its prefix followed by the rest. */
  lemma SplitJoin<T>(s: seq<T>, n: nat)
    requires n <= |s|
    ensures s[..n] + s[n..] == s
  {
  }
}
