/** The edit-profile page: the form validation run before saving, the bio
    character counter's colour, the merge of the saved profile over the
    defaults, the avatar file checks and the collection of the form's values. */
module EditProfile {
  import opened Base
  import opened Text

  /** Why `validateForm` refused the form, or that it passed. */
  datatype Verdict = Passed | EmptyUsername | BadUsernameLength | BadPhone | BadEmail {
    /** The message `showMessage` displays on a refusal. */
    function Message(): string {
      match this
      case Passed => ""
      case EmptyUsername => "请输入用户名"
      case BadUsernameLength => "用户名长度应在2-20个字符之间"
      case BadPhone => "请输入正确的手机号"
      case BadEmail => "请输入正确的邮箱地址"
    }
  }

  /** `/^1[3-9]\d{9}$/`: eleven characters, `1`, then 3..9, then nine ASCII digits. */
  predicate PhonePattern(p: string) {
    && |p| == 11
    && p[0] == '1'
    && '3' <= p[1] <= '9'
    && forall i | 2 <= i < 11 :: IsAsciiDigit(p[i])
  }

  /** `[^\s@]+`: a non-empty run without whitespace and without `@`. */
  predicate EmailPart(t: string) {
    |t| > 0 && forall k | 0 <= k < |t| :: !IsJsSpace(t[k]) && t[k] != '@'
  }

  /** `/^[^\s@]+@[^\s@]+\.[^\s@]+$/`: the whole text splits as part `@` part `.` part
      for some position `i` of the `@` and `j` of the `.`. */
  predicate EmailPattern(e: string) {
    exists i, j | 0 <= i < j < |e| ::
      && e[i] == '@' && e[j] == '.'
      && EmailPart(e[..i]) && EmailPart(e[i + 1..j]) && EmailPart(e[j + 1..])
  }

  /** `validateForm` on the raw field values: each is trimmed, then the checks
      run in order and the first that fails decides. */
  function Validate(username: string, phone: string, email: string): (v: Verdict)
    ensures var u, p, e := Trim(username, Js), Trim(phone, Js), Trim(email, Js);
      && (v == EmptyUsername <==> u == "")
      && (v == BadUsernameLength <==> u != "" && (Utf16Length(u) < 2 || Utf16Length(u) > 20))
      && (v == BadPhone <==> 2 <= Utf16Length(u) <= 20 && p != "" && !PhonePattern(p))
      && (v == BadEmail <==>
            2 <= Utf16Length(u) <= 20 && (p == "" || PhonePattern(p)) && e != "" && !EmailPattern(e))
      && (v == Passed <==>
            2 <= Utf16Length(u) <= 20 && (p == "" || PhonePattern(p)) && (e == "" || EmailPattern(e)))
  {
    var u, p, e := Trim(username, Js), Trim(phone, Js), Trim(email, Js);
    if u == "" then EmptyUsername
    else if Utf16Length(u) < 2 || Utf16Length(u) > 20 then BadUsernameLength
    else if p != "" && !PhonePattern(p) then BadPhone
    else if e != "" && !EmailPattern(e) then BadEmail
    else Passed
  }

  /** `validateForm()`'s boolean result. */
  predicate ValidateForm(username: string, phone: string, email: string) {
    Validate(username, phone, email) == Passed
  }

  /** A matching phone number is eleven ASCII digits. */
  lemma PhoneIsElevenDigits(p: string)
    requires PhonePattern(p)
    ensures |p| == 11 && AllDigits(p)
  {
  }

  /** A matching e-mail address has no whitespace and exactly one `@`, which is
      neither its first nor its last character. */
  lemma {:induction false} EmailShape(e: string)
    requires EmailPattern(e)
    ensures forall k | 0 <= k < |e| :: !IsJsSpace(e[k])
    ensures exists i | 0 < i < |e| - 1 :: e[i] == '@' && forall k | 0 <= k < |e| && k != i :: e[k] != '@'
  {
    var i, j :| 0 <= i < j < |e| && e[i] == '@' && e[j] == '.'
      && EmailPart(e[..i]) && EmailPart(e[i + 1..j]) && EmailPart(e[j + 1..]);
    forall k | 0 <= k < |e| && k != i
      ensures !IsJsSpace(e[k]) && e[k] != '@'
    {
      if k < i {
        assert e[k] == e[..i][k];
      } else if k < j {
        assert e[k] == e[i + 1..j][k - i - 1];
      } else if k > j {
        assert e[k] == e[j + 1..][k - j - 1];
      }
    }
  }

  /** Without a `.` there is no address. */
  lemma NoDotRefused(e: string)
    requires forall k | 0 <= k < |e| :: e[k] != '.'
    ensures !EmailPattern(e)
  {
  }

  /** An address cannot start with `@`. */
  lemma LeadingAtRefused(e: string)
    requires |e| > 0 && e[0] == '@'
    ensures !EmailPattern(e)
  {
    if EmailPattern(e) {
      EmailShape(e);
    }
  }

  /** Concrete cases of the address pattern. */
  lemma EmailExamples()
    ensures EmailPattern("chef@mate.cn")
    ensures !EmailPattern("chef@mate")
    ensures !EmailPattern("@mate.cn")
  {
    var e := "chef@mate.cn";
    assert e[..4] == "chef" && e[5..9] == "mate" && e[10..] == "cn";
    assert e[4] == '@' && e[9] == '.';
    NoDotRefused("chef@mate");
    LeadingAtRefused("@mate.cn");
  }

  // Helpers for DefaultPhoneRefused.
  lemma DefaultUsernameTrimmed()
    ensures Trim(DefaultUsername, Js) == DefaultUsername && Utf16Length(DefaultUsername) == 4
  {
    var u := DefaultUsername;
    assert |u| == 4 && u[0] == 'C' && u[3] == 'f';
    TrimKeepsEnds(u, Js);
  }

  lemma DefaultPhoneTrimmed()
    ensures Trim(DefaultPhone, Js) == DefaultPhone
  {
    var p := DefaultPhone;
    assert |p| == 11 && p[0] == '0' && p[10] == '0';
    TrimKeepsEnds(p, Js);
  }

  /** An untouched form, filled from the defaults, is refused: the default
      phone number `00000000000` does not match the phone pattern. */
  lemma DefaultPhoneRefused()
    ensures Validate(DefaultUsername, DefaultPhone, "") == BadPhone
  {
    DefaultUsernameTrimmed();
    DefaultPhoneTrimmed();
    assert DefaultPhone[0] == '0';
  }

  /** The three colours `updateCharCount` gives the bio counter. */
  datatype CountColour = Grey | Orange | Red {
    function Css(): string {
      match this
      case Grey => "#999"
      case Orange => "#FFA242"
      case Red => "#ff5252"
    }
    function Level(): nat {
      match this
      case Grey => 0
      case Orange => 1
      case Red => 2
    }
  }

  /** `updateCharCount`: the colour for the bio's current `length`. */
  function CharCountColour(bio: string): (c: CountColour)
    ensures c == Red <==> Utf16Length(bio) > 180
    ensures c == Orange <==> 150 < Utf16Length(bio) <= 180
    ensures c == Grey <==> Utf16Length(bio) <= 150
  {
    var n := Utf16Length(bio);
    if n > 180 then Red else if n > 150 then Orange else Grey
  }

  /** A longer bio never gets a milder colour. */
  lemma CharCountMonotone(a: string, b: string)
    requires Utf16Length(a) <= Utf16Length(b)
    ensures CharCountColour(a).Level() <= CharCountColour(b).Level()
  {
  }

  const DefaultUsername := "Chef"
  const DefaultPhone := "00000000000"
  const DefaultAvatar := "../images/user_default.jpg"

  /** `defaultUserData`. */
  const DefaultUserData: map<string, Json> := map[
    "username" := JStr(DefaultUsername),
    "phone" := JStr(DefaultPhone),
    "email" := JStr(""),
    "gender" := JStr(""),
    "birthday" := JStr(""),
    "bio" := JStr(""),
    "avatar" := JStr(DefaultAvatar),
    "dietary" := JArr([]),
    "cookingLevel" := JStr(""),
    "favoritesCuisine" := JStr("")
  ]

  /** `k` is the property name of an index below `n`. */
  predicate IndexKey(k: string, n: nat) {
    exists i: nat | i < n :: NatToString(i) == k
  }

  /** The own enumerable properties object spread (`...value`) contributes:
      an object its fields; an array its elements and a string its characters,
      each under its index written in decimal; `null`, a boolean or a number
      nothing. */
  function Spread(v: Json): (m: map<string, Json>)
    ensures v.JObj? ==> m == v.fields
    ensures v.JArr? ==> forall k :: k in m <==> IndexKey(k, |v.items|)
    ensures v.JArr? ==> forall i: nat | i < |v.items| :: NatToString(i) in m && m[NatToString(i)] == v.items[i]
    ensures v.JStr? ==> forall k :: k in m <==> IndexKey(k, |v.s|)
    ensures v.JStr? ==> forall i: nat | i < |v.s| :: NatToString(i) in m && m[NatToString(i)] == JStr([v.s[i]])
    ensures v.JNull? || v.JBool? || v.JNum? ==> m == map[]
  {
    match v
    case JObj(fields) => fields
    case JArr(items) => IndexKeyed(items)
    case JStr(s) =>
      var chars := seq(|s|, i requires 0 <= i < |s| => JStr([s[i]]));
      assert |chars| == |s|;
      IndexKeyed(chars)
    case _ => map[]
  }

  /** The elements of `items` keyed by their decimal index. */
  function IndexKeyed(items: seq<Json>): (m: map<string, Json>)
    ensures forall k :: k in m <==> IndexKey(k, |items|)
    ensures forall i: nat | i < |items| :: NatToString(i) in m && m[NatToString(i)] == items[i]
  {
    if items == [] then map[]
    else
      var n := |items| - 1;
      var prev := IndexKeyed(items[..n]);
      NatToStringInjective();
      var m := prev[NatToString(n) := items[n]];
      assert forall k | IndexKey(k, |items|) :: k in m by {
        forall k | IndexKey(k, |items|)
          ensures k in m
        {
          var i: nat :| i < |items| && NatToString(i) == k;
          if i < n {
            assert IndexKey(k, n);
          }
        }
      }
      assert forall k | k in m :: IndexKey(k, |items|) by {
        forall k | k in prev
          ensures IndexKey(k, |items|)
        {
          var i: nat :| i < n && NatToString(i) == k;
        }
        assert NatToString(n) == NatToString(n);
      }
      m
  }

  /** A stored array or string never overrides a default field: its index
      keys are digit strings and no default key is. */
  lemma NonObjectKeepsDefaults(v: Json)
    requires !v.JObj?
    ensures forall k | k in DefaultUserData :: LoadUserData(Some(v))[k] == DefaultUserData[k]
  {
    forall k | k in DefaultUserData
      ensures k !in Spread(v)
    {
      assert !IsAsciiDigit(k[0]);
      assert forall i: nat :: NatToString(i) != k by {
        forall i: nat ensures NatToString(i) != k {
          assert IsAsciiDigit(NatToString(i)[0]);
        }
      }
    }
  }

  /** `loadUserData`: `saved` is the parsed stored profile, `None` when the key is
      absent or empty. Saved properties win over the defaults. */
  function LoadUserData(saved: Option<Json>): (data: map<string, Json>)
    ensures saved.None? ==> data == DefaultUserData
    ensures saved.Some? ==> data.Keys == DefaultUserData.Keys + Spread(saved.value).Keys
    ensures saved.Some? ==> forall k | k in Spread(saved.value) :: data[k] == Spread(saved.value)[k]
    ensures forall k | k in DefaultUserData && (saved.None? || k !in Spread(saved.value)) ::
      data[k] == DefaultUserData[k]
  {
    if saved.None? then DefaultUserData else DefaultUserData + Spread(saved.value)
  }

  /** A stored profile that has every default field loads back exactly. */
  lemma SaveThenLoad(data: map<string, Json>)
    requires DefaultUserData.Keys <= data.Keys
    ensures LoadUserData(Some(JObj(data))) == data
  {
  }

  /** Loading is idempotent: saving a loaded profile and loading again changes nothing. */
  lemma LoadIdempotent(saved: Option<Json>)
    ensures LoadUserData(Some(JObj(LoadUserData(saved)))) == LoadUserData(saved)
  {
    SaveThenLoad(LoadUserData(saved));
  }

  /** The selected file's MIME type and size in bytes. */
  datatype FileInfo = FileInfo(mime: string, size: nat)

  datatype AvatarVerdict = NoFile | NotImage | TooLarge | Accepted

  const MaxAvatarBytes: nat := 5 * 1024 * 1024

  /** The avatar input's `change` handler: no file does nothing; otherwise
      the type check comes before the size check. */
  function CheckAvatar(file: Option<FileInfo>): (v: AvatarVerdict)
    ensures v == NoFile <==> file.None?
    ensures v == NotImage <==> file.Some? && !StartsWith(file.value.mime, "image/")
    ensures v == TooLarge <==> file.Some? && StartsWith(file.value.mime, "image/") && file.value.size > MaxAvatarBytes
    ensures v == Accepted <==> file.Some? && StartsWith(file.value.mime, "image/") && file.value.size <= MaxAvatarBytes
  {
    if file.None? then NoFile
    else if !StartsWith(file.value.mime, "image/") then NotImage
    else if file.value.size > MaxAvatarBytes then TooLarge
    else Accepted
  }

  /** The values of the ticked boxes, collected by the `forEach` that pushes
      into `data.dietary`. */
  method CollectDietary(boxes: seq<Checkbox>) returns (dietary: seq<string>)
    ensures dietary == CheckedValues(boxes)
  {
    dietary := [];
    var i := 0;
    while i < |boxes|
      invariant 0 <= i <= |boxes|
      invariant dietary == CheckedValues(boxes[..i])
    {
      CheckedValuesSnoc(boxes[..i], boxes[i]);
      assert boxes[..i + 1] == boxes[..i] + [boxes[i]];
      if boxes[i].checked {
        dietary := dietary + [boxes[i].value];
      }
      i := i + 1;
    }
    assert boxes[..|boxes|] == boxes;
  }

  /** The raw values of the form's controls. */
  datatype FormInput = FormInput(
    username: string, phone: string, email: string, gender: string, birthday: string,
    bio: string, cookingLevel: string, favoritesCuisine: string, avatarSrc: string,
    dietary: seq<Checkbox>)

  /** A profile object with the fields `collectFormData` writes. */
  function ProfileObject(username: string, phone: string, email: string, gender: string,
                         birthday: string, bio: string, avatar: string, dietary: seq<string>,
                         cookingLevel: string, favoritesCuisine: string): map<string, Json>
  {
    map[
      "username" := JStr(username),
      "phone" := JStr(phone),
      "email" := JStr(email),
      "gender" := JStr(gender),
      "birthday" := JStr(birthday),
      "bio" := JStr(bio),
      "avatar" := JStr(avatar),
      "dietary" := JArr(Strs(dietary)),
      "cookingLevel" := JStr(cookingLevel),
      "favoritesCuisine" := JStr(favoritesCuisine)
    ]
  }

  /** A collected profile has exactly the default profile's fields. */
  lemma ProfileObjectKeys(username: string, phone: string, email: string, gender: string,
                          birthday: string, bio: string, avatar: string, dietary: seq<string>,
                          cookingLevel: string, favoritesCuisine: string)
    ensures ProfileObject(username, phone, email, gender, birthday, bio, avatar, dietary,
                          cookingLevel, favoritesCuisine).Keys == DefaultUserData.Keys
  {
  }

  /** `collectFormData`: the trimmed text fields, the untrimmed selects, the
      avatar preview's source and the ticked dietary values. */
  method CollectFormData(f: FormInput) returns (data: map<string, Json>)
    ensures data == ProfileObject(Trim(f.username, Js), Trim(f.phone, Js), Trim(f.email, Js),
                                  f.gender, f.birthday, Trim(f.bio, Js), f.avatarSrc,
                                  CheckedValues(f.dietary), f.cookingLevel, f.favoritesCuisine)
  {
    var dietary := CollectDietary(f.dietary);
    data := ProfileObject(Trim(f.username, Js), Trim(f.phone, Js), Trim(f.email, Js),
                          f.gender, f.birthday, Trim(f.bio, Js), f.avatarSrc,
                          dietary, f.cookingLevel, f.favoritesCuisine);
  }

  /** What `saveProfile` stores is what the next visit loads. */
  lemma CollectedProfileLoadsBack(f: FormInput)
    ensures var data := ProfileObject(Trim(f.username, Js), Trim(f.phone, Js), Trim(f.email, Js),
                                      f.gender, f.birthday, Trim(f.bio, Js), f.avatarSrc,
                                      CheckedValues(f.dietary), f.cookingLevel, f.favoritesCuisine);
      LoadUserData(Some(JObj(data))) == data
  {
    var data := ProfileObject(Trim(f.username, Js), Trim(f.phone, Js), Trim(f.email, Js),
                              f.gender, f.birthday, Trim(f.bio, Js), f.avatarSrc,
                              CheckedValues(f.dietary), f.cookingLevel, f.favoritesCuisine);
    ProfileObjectKeys(Trim(f.username, Js), Trim(f.phone, Js), Trim(f.email, Js),
                      f.gender, f.birthday, Trim(f.bio, Js), f.avatarSrc,
                      CheckedValues(f.dietary), f.cookingLevel, f.favoritesCuisine);
    SaveThenLoad(data);
  }
}
