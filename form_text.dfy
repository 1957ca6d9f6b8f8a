/** The editing helpers the admin forms share: JavaScript's `trim`, the list
    edits behind the add and remove buttons, the text fields that store null
    for "", the number field read with `parseInt(..) || 0`, and what a submit
    sends. */
module FormText {
  import opened Wrappers
  import opened Json
  import opened Tables

  /* ------------------------------------------------------------------ */
  /* String.prototype.trim                                                */

  /** The characters JavaScript's `trim` and `parseInt` skip: the WhiteSpace
      and LineTerminator code points of ECMAScript. */
  predicate IsJsSpace(c: char) {
    || ('\t' <= c <= '\r') || c == ' ' || c == '\U{A0}' || c == '\U{1680}'
    || ('\U{2000}' <= c <= '\U{200A}') || c == '\U{2028}' || c == '\U{2029}'
    || c == '\U{202F}' || c == '\U{205F}' || c == '\U{3000}' || c == '\U{FEFF}'
  }

  predicate AllSpace(s: string) {
    forall i :: 0 <= i < |s| ==> IsJsSpace(s[i])
  }

  /** `s` without its leading white space. */
  function TrimStart(s: string): (r: string)
    ensures r == [] || !IsJsSpace(r[0])
    ensures |r| <= |s| && r == s[|s| - |r|..] && AllSpace(s[..|s| - |r|])
  {
    if s != [] && IsJsSpace(s[0]) then
      var r := TrimStart(s[1..]);
      assert s[1..][..|s| - 1 - |r|] == s[1..|s| - |r|];
      r
    else
      s
  }

  /** `s` without its trailing white space. */
  function TrimEnd(s: string): (r: string)
    ensures r == [] || !IsJsSpace(r[|r| - 1])
    ensures |r| <= |s| && r == s[..|r|] && AllSpace(s[|r|..])
  {
    if s != [] && IsJsSpace(s[|s| - 1]) then
      var r := TrimEnd(s[..|s| - 1]);
      assert s[..|s| - 1][|r|..] == s[|r|..|s| - 1];
      assert s[|r|..] == s[|r|..|s| - 1] + [s[|s| - 1]];
      r
    else
      s
  }

  /** `s.trim()`: the part of `s` between its leading and its trailing white
      space. */
  function Trim(s: string): (r: string)
    ensures r == [] || (!IsJsSpace(r[0]) && !IsJsSpace(r[|r| - 1]))
    ensures |r| <= |s|
  {
    TrimEnd(TrimStart(s))
  }

  /** What `trim` removes is white space, from both ends and nowhere else. */
  lemma TrimSlice(s: string)
    ensures exists i, j :: 0 <= i <= j <= |s| && Trim(s) == s[i..j] && AllSpace(s[..i]) && AllSpace(s[j..])
  {
    var t := TrimStart(s);
    var r := TrimEnd(t);
    var i := |s| - |t|;
    assert r == s[i..i + |r|];
    assert s[i + |r|..] == t[|r|..];
  }

  /** Trimming twice is trimming once. */
  lemma TrimIdempotent(s: string)
    ensures Trim(Trim(s)) == Trim(s)
  {
  }

  /** The input is blank exactly when it is all white space. */
  lemma TrimBlank(s: string)
    ensures Trim(s) == "" <==> AllSpace(s)
  {
  }

  /* ------------------------------------------------------------------ */
  /* List edits                                                            */

  predicate NoDuplicates(xs: seq<string>) {
    forall i, j :: 0 <= i < j < |xs| ==> xs[i] != xs[j]
  }

  /** The add button of the platform and goal lists appends the trimmed input
      when it is not blank and not listed yet. */
  predicate Appends(xs: seq<string>, raw: string) {
    Trim(raw) != "" && Trim(raw) !in xs
  }

  /** `addPlatform`/`addGoal` on the list. */
  function AddDistinct(xs: seq<string>, raw: string): (r: seq<string>)
    ensures Appends(xs, raw) ==> |r| == |xs| + 1 && r[|xs|] == Trim(raw)
    ensures !Appends(xs, raw) ==> r == xs
    ensures r[..|xs|] == xs
    ensures Trim(raw) != "" ==> Trim(raw) in r
    ensures NoDuplicates(xs) ==> NoDuplicates(r)
  {
    if Appends(xs, raw) then xs + [Trim(raw)] else xs
  }

  /** `list.filter(x => x !== v)`: every occurrence of `v` goes. */
  function RemoveAll(xs: seq<string>, v: string): (r: seq<string>)
    ensures forall x :: x in r <==> x in xs && x != v
    ensures |r| <= |xs|
    ensures NoDuplicates(xs) ==> NoDuplicates(r)
  {
    if xs == [] then []
    else
      var rest := RemoveAll(xs[1..], v);
      assert forall x :: x in xs <==> x == xs[0] || x in xs[1..];
      if xs[0] == v then rest
      else
        assert NoDuplicates(xs) ==> xs[0] !in xs[1..] by {
          if NoDuplicates(xs) {
            forall k | 0 <= k < |xs[1..]| ensures xs[1..][k] != xs[0] {
              assert xs[1..][k] == xs[k + 1];
            }
          }
        }
        [xs[0]] + rest
  }

  /** Removal keeps the order of what remains: it works piece by piece. */
  lemma {:induction false} RemoveAllConcat(a: seq<string>, b: seq<string>, v: string)
    ensures RemoveAll(a + b, v) == RemoveAll(a, v) + RemoveAll(b, v)
  {
    if a != [] {
      assert (a + b)[1..] == a[1..] + b;
      RemoveAllConcat(a[1..], b, v);
    } else {
      assert a + b == b;
    }
  }

  /** Removing a value that is not listed changes nothing. */
  lemma {:induction false} RemoveAllAbsent(xs: seq<string>, v: string)
    requires v !in xs
    ensures RemoveAll(xs, v) == xs
  {
    if xs != [] {
      RemoveAllAbsent(xs[1..], v);
      assert xs == [xs[0]] + xs[1..];
    }
  }

  /** Removing what the add button just appended restores the list. */
  lemma AddThenRemove(xs: seq<string>, raw: string)
    requires Appends(xs, raw)
    ensures RemoveAll(AddDistinct(xs, raw), Trim(raw)) == xs
  {
    RemoveAllConcat(xs, [Trim(raw)], Trim(raw));
    RemoveAllAbsent(xs, Trim(raw));
  }

  /** `addAchievement` on the list: appends the trimmed input when it is not
      blank, repeats allowed. */
  function AddTrimmed(xs: seq<string>, raw: string): (r: seq<string>)
    ensures Trim(raw) == "" ==> r == xs
    ensures Trim(raw) != "" ==> |r| == |xs| + 1 && r[..|xs|] == xs && r[|xs|] == Trim(raw)
  {
    if Trim(raw) != "" then xs + [Trim(raw)] else xs
  }

  /** `list.filter((_, i) => i !== index)`: exactly position `index` goes,
      and nothing goes when no position has that index. */
  function RemoveAt(xs: seq<string>, index: int): (r: seq<string>)
    ensures 0 <= index < |xs| ==> r == xs[..index] + xs[index + 1..]
    ensures !(0 <= index < |xs|) ==> r == xs
  {
    if xs == [] then []
    else
      var rest := RemoveAt(xs[1..], index - 1);
      assert 0 < index < |xs| ==> xs[1..][..index - 1] == xs[1..index];
      assert xs == [xs[0]] + xs[1..];
      (if index == 0 then [] else [xs[0]]) + rest
  }

  /** Removing the achievement just added restores the list. */
  lemma AddThenRemoveAt(xs: seq<string>, raw: string)
    requires Trim(raw) != ""
    ensures RemoveAt(AddTrimmed(xs, raw), |xs|) == xs
  {
  }

  /* ------------------------------------------------------------------ */
  /* Text fields that store null                                          */

  /** `e.target.value || null`. */
  function EmptyToNull(v: string): (r: Option<string>)
    ensures r.None? <==> v == ""
    ensures r.Some? ==> r.value == v
  {
    if v == "" then None else Some(v)
  }

  /** `value={field || ""}`: what the input shows. */
  function ShownText(o: Option<string>): (s: string)
    ensures o.None? ==> s == ""
    ensures o.Some? ==> s == o.value
  {
    if o.None? then "" else o.value
  }

  /** What the user types is what the field shows back. */
  lemma TypedTextShown(v: string)
    ensures ShownText(EmptyToNull(v)) == v
  {
  }

  /** A stored value is kept when the shown text is typed back, unless it is
      the empty string, which comes back as null. */
  lemma ShownTextStored(o: Option<string>)
    ensures o != Some("") ==> EmptyToNull(ShownText(o)) == o
    ensures o == Some("") ==> EmptyToNull(ShownText(o)) == None
  {
  }

  /** `endDate || 'Present'`. */
  function EndDateLabel(endDate: Option<string>): (s: string)
    ensures endDate.None? || endDate.value == "" ==> s == "Present"
    ensures endDate.Some? && endDate.value != "" ==> s == endDate.value
  {
    if endDate.Some? && endDate.value != "" then endDate.value else "Present"
  }

  /** `n || 0` for a nullable integer column: null and 0 give 0. */
  function OrZero(n: Option<int>): (r: int)
    ensures n.None? ==> r == 0
    ensures n.Some? ==> r == n.value
  {
    if n.Some? then n.value else 0
  }

  /** `b ?? d` for a nullable boolean column. */
  function OrElse(b: Option<bool>, d: bool): (r: bool)
    ensures b.None? ==> r == d
    ensures b.Some? ==> r == b.value
  {
    if b.Some? then b.value else d
  }

  /** `xs || []` for a nullable list column. */
  function OrEmpty(xs: Option<seq<string>>): (r: seq<string>)
    ensures xs.None? ==> r == []
    ensures xs.Some? ==> r == xs.value
  {
    if xs.Some? then xs.value else []
  }

  /** JavaScript truthiness of a JSON value. */
  predicate JsonTruthy(j: Json) {
    match j
    case JNull => false
    case JBool(b) => b
    case JNum(n) => n != 0
    case JStr(s) => s != ""
    case JArr(_) => true
    case JObj(_) => true
  }

  /** `targets || {}` for the untyped json column: a falsy value (null,
      false, 0 or "") becomes the empty object. */
  function OrEmptyObject(j: Option<Json>): (r: Json)
    ensures JsonTruthy(r) && r != JNull
    ensures j.Some? && JsonTruthy(j.value) ==> r == j.value
    ensures j.None? || !JsonTruthy(j.value) ==> r == JObj(map[])
  {
    if j.Some? && JsonTruthy(j.value) then j.value else JObj(map[])
  }

  /* ------------------------------------------------------------------ */
  /* parseInt(text) || 0                                                  */

  predicate IsDigit(c: char) {
    '0' as int <= c as int <= '9' as int
  }

  /** The longest prefix of `s` made of decimal digits. */
  function DigitPrefix(s: string): (r: string)
    ensures |r| <= |s| && r == s[..|r|]
    ensures forall i :: 0 <= i < |r| ==> IsDigit(r[i])
    ensures |r| < |s| ==> !IsDigit(s[|r|])
  {
    if s != [] && IsDigit(s[0]) then [s[0]] + DigitPrefix(s[1..]) else []
  }

  /** The value of a string of decimal digits. */
  function DigitsValue(ds: string): nat
    requires forall i :: 0 <= i < |ds| ==> IsDigit(ds[i])
  {
    if ds == [] then 0
    else
      var last := ds[|ds| - 1];
      assert IsDigit(last);
      DigitsValue(ds[..|ds| - 1]) * 10 + (last as int - '0' as int)
  }

  /** `parseInt(text) || 0` for a decimal input: white space, an optional
      sign and the leading digits are read; without digits `parseInt` gives
      NaN, which `|| 0` turns into 0. */
  function ParseIntOrZero(text: string): (r: int)
    ensures r < 0 ==> TrimStart(text) != [] && TrimStart(text)[0] == '-'
    ensures r != 0 ==> exists i :: 0 <= i < |text| && IsDigit(text[i])
  {
    var t := TrimStart(text);
    var negative := t != [] && t[0] == '-';
    var unsigned := if t != [] && (t[0] == '-' || t[0] == '+') then t[1..] else t;
    var ds := DigitPrefix(unsigned);
    if ds == [] then 0
    else if negative then -(DigitsValue(ds) as int)
    else DigitsValue(ds)
  }

  /** The decimal digits of `n`, without leading zeros. */
  function Digits(n: nat): (ds: string)
    ensures ds != [] && forall i :: 0 <= i < |ds| ==> IsDigit(ds[i])
    ensures DigitsValue(ds) == n
  {
    var last := [('0' as int + n % 10) as char];
    if n < 10 then last
    else
      var ds := Digits(n / 10) + last;
      assert ds[..|ds| - 1] == Digits(n / 10);
      ds
  }

  /** How a number input shows an integer. */
  function DecimalString(n: int): string {
    if n < 0 then "-" + Digits(-n) else Digits(n)
  }

  /** Reading back the text of an integer gives the integer. */
  lemma ParseDecimalString(n: int)
    ensures ParseIntOrZero(DecimalString(n)) == n
  {
    var m: nat := if n < 0 then -n else n;
    var ds := Digits(m);
    DigitPrefixAll(ds);
    var t := DecimalString(n);
    assert IsDigit(ds[0]);
    if n < 0 {
      assert t[0] == '-' && t[1..] == ds;
    } else {
      assert t == ds;
    }
    TrimStartKeeps(t);
  }

  lemma TrimStartKeeps(s: string)
    requires s == [] || !IsJsSpace(s[0])
    ensures TrimStart(s) == s
  {
  }

  lemma {:induction false} DigitPrefixAll(ds: string)
    requires forall i :: 0 <= i < |ds| ==> IsDigit(ds[i])
    ensures DigitPrefix(ds) == ds
  {
    if ds != [] {
      DigitPrefixAll(ds[1..]);
      assert ds == [ds[0]] + ds[1..];
    }
  }

  /** Text without a digit after the white space and the sign gives 0. */
  lemma ParseNonNumeric(text: string)
    requires var t := TrimStart(text);
             var u := if t != [] && (t[0] == '-' || t[0] == '+') then t[1..] else t;
             u == [] || !IsDigit(u[0])
    ensures ParseIntOrZero(text) == 0
  {
  }

  /* ------------------------------------------------------------------ */
  /* Submit                                                               */

  /** What a form's submit sends: an update of the row being edited, or a
      create. */
  datatype Submission<D> = Create(data: D) | Update(id: Id, data: D)

  function Submit<D>(editingId: Option<Id>, data: D): (s: Submission<D>)
    ensures s.Update? <==> editingId.Some?
    ensures s.Update? ==> s.id == editingId.value
    ensures s.data == data
  {
    if editingId.Some? then Update(editingId.value, data) else Create(data)
  }
}
