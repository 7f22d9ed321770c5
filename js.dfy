/**
 * The few JavaScript value rules the pages' decisions depend on: `Number()`
 * coercion of ids, truthiness, `String()` conversion and `a || b` on strings.
 */
module Js {
  import opened Wrappers

  /** A primitive id as the pages receive it: a number, a string, or `undefined`. */
  datatype IdValue = Num(n: int) | Str(s: string) | Undefined

  /** A value that is expected to be a string: absent (`null`/`undefined`), some other non-string value, or a string. */
  datatype MaybeText = Absent | NotText | Text(s: string)

  predicate IsDigit(c: char) {
    '0' <= c <= '9'
  }

  predicate IsDecimal(s: string) {
    |s| > 0 && forall i :: 0 <= i < |s| ==> IsDigit(s[i])
  }

  /** The value of a string of decimal digits, most significant first. */
  function DigitsValue(s: string): nat
    requires forall i :: 0 <= i < |s| ==> IsDigit(s[i])
  {
    if s == [] then 0
    else
      assert IsDigit(s[|s| - 1]);
      DigitsValue(s[..|s| - 1]) * 10 + (s[|s| - 1] as int - '0' as int)
  }

  /** `Number(v)`; `None` stands for NaN. */
  function NumberOf(v: IdValue): (r: Option<int>)
    ensures v.Num? ==> r == Some(v.n)
    ensures v.Undefined? ==> r.None?
    ensures v.Str? && !IsDecimal(v.s) ==> r.None?
  {
    match v
    case Num(n) => Some(n)
    case Str(s) => if IsDecimal(s) then Some(DigitsValue(s)) else None
    case Undefined => None
  }

  /** `Number(a) === Number(b)`: NaN equals nothing, not even NaN. */
  predicate NumericallyEqual(a: IdValue, b: IdValue) {
    NumberOf(a).Some? && NumberOf(b).Some? && NumberOf(a).value == NumberOf(b).value
  }

  /** `!!v` */
  predicate Truthy(v: IdValue) {
    match v
    case Num(n) => n != 0
    case Str(s) => s != ""
    case Undefined => false
  }

  /** The decimal digits of `n`. */
  function NatText(n: nat): (r: string)
    ensures IsDecimal(r)
  {
    var d := ['0' + (n % 10) as char];
    if n < 10 then d else NatText(n / 10) + d
  }

  /** `String(v)`, as `localStorage.setItem` and `FormData.append` convert an id. */
  function IdText(v: IdValue): string {
    match v
    case Num(n) => if n < 0 then "-" + NatText(-n) else NatText(n)
    case Str(s) => s
    case Undefined => "undefined"
  }

  /** `String(a)` for a string field that may be missing, as `localStorage.setItem` stores it. */
  function StoredText(a: Option<string>): string {
    match a
    case Some(s) => s
    case None => "undefined"
  }

  /** `!!a` for a string field that may be missing. */
  predicate Present(a: Option<string>) {
    a.Some? && a.value != ""
  }

  /** `a || fallback` for a string field that may be missing. */
  function OrElse(a: Option<string>, fallback: string): (r: string)
    ensures Present(a) ==> r == a.value
    ensures !Present(a) ==> r == fallback
    ensures fallback != "" ==> r != ""
  {
    if Present(a) then a.value else fallback
  }

  /** Reading back the decimal text of a non-negative number gives the number: an id that went through a URL keeps its value. */
  lemma {:induction false} NumberOfIdText(n: nat)
    ensures NumberOf(Str(IdText(Num(n)))) == Some(n)
  {
    NatTextValue(n);
  }

  lemma {:induction false} NatTextValue(n: nat)
    ensures DigitsValue(NatText(n)) == n
  {
    var d := ['0' + (n % 10) as char];
    if n >= 10 {
      NatTextValue(n / 10);
      var t := NatText(n / 10) + d;
      assert t[..|t| - 1] == NatText(n / 10);
    }
  }
}
