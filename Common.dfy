/** Vocabulary shared by the hooks and routes: optional values and thrown
    values, the lifecycle of a fetcher or a navigation, notifications,
    objects with identity (what React effects are keyed on), and the few
    JavaScript string and URLSearchParams operations the core relies on. */
module Common {

  datatype Option<+T> = None | Some(value: T) {
    function GetOr(default: T): T {
      if Some? then value else default
    }
  }

  /** A value thrown by a callee: an `Error` instance with its message, or
      anything else (`throw "x"`, a `Response`, ...). */
  datatype Thrown = ErrorInstance(message: string) | NonError

  /** The outcome of a call that may throw. */
  datatype Result<+T> = Ok(value: T) | Threw(thrown: Thrown)

  /** `idle | loading | submitting`: a fetcher's or a navigation's state. */
  datatype FetchState = Idle | Loading | Submitting

  /** The `state === 'loading' || state === 'submitting'` test behind every
      busy flag of the core (isFetchingList, isDeleting, isCreating,
      isEdting, isSubmiting). */
  predicate IsInFlight(s: FetchState)
    ensures IsInFlight(s) <==> s != Idle
  {
    s == Loading || s == Submitting
  }

  datatype NoticeKind = ErrorNotice | SuccessNotice

  /** One call of the notification sink: `notification.error({...})` or
      `notification.success({...})`; an absent description is `undefined`. */
  datatype Notice = Notice(kind: NoticeKind, message: string, description: Option<string>)

  function OptionToSeq<T>(o: Option<T>): (s: seq<T>)
    ensures |s| <= 1
    ensures o.Some? ==> s == [o.value]
    ensures o.None? ==> s == []
  {
    if o.Some? then [o.value] else []
  }

  /** JavaScript truthiness of a value that is a string or absent. */
  predicate IsTruthy(s: Option<string>) {
    s.Some? && s.value != ""
  }

  /** An immutable JavaScript object: it has identity, so two `Ref`s holding
      equal values are still distinct. React effects keyed on an object rerun
      exactly when the reference changes. */
  class Ref<T> {
    const value: T

    constructor (value: T)
      ensures this.value == value
    {
      this.value := value;
    }
  }

  /** The value behind a possibly `undefined` reference. */
  function Deref<T>(r: Ref?<T>): (o: Option<T>)
    ensures o.Some? <==> r != null
    ensures r != null ==> o.value == r.value
  {
    if r == null then None else Some(r.value)
  }

  // ---------------------------------------------------------------------
  // String.prototype.includes

  predicate OccursAt(s: string, sub: string, i: int) {
    0 <= i && i + |sub| <= |s| && s[i..i + |sub|] == sub
  }

  /** `s.includes(sub)`: `sub` occurs in `s` at some position. */
  predicate Includes(s: string, sub: string)
    ensures Includes(s, sub) ==> |sub| <= |s|
  {
    exists i :: 0 <= i <= |s| - |sub| && OccursAt(s, sub, i)
  }

  /** An occurrence anywhere, not only at the start, is found. */
  lemma IncludesAnywhere(prefix: string, sub: string, suffix: string)
    ensures Includes(prefix + sub + suffix, sub)
  {
    var s := prefix + sub + suffix;
    assert s[|prefix|..|prefix| + |sub|] == sub;
    assert OccursAt(s, sub, |prefix|);
  }

  // ---------------------------------------------------------------------
  // Number.prototype.toString for integers, and its inverse

  predicate IsDigit(c: char) {
    '0' <= c <= '9'
  }

  function DigitChar(d: int): (c: char)
    requires 0 <= d < 10
    ensures IsDigit(c) && c as int - '0' as int == d
  {
    (d + '0' as int) as char
  }

  /** The decimal digits of `n`, most significant first, without leading zeros. */
  function NatToString(n: nat): (s: string)
    ensures 1 <= |s|
    ensures forall i :: 0 <= i < |s| ==> IsDigit(s[i])
    ensures |s| > 1 ==> s[0] != '0'
    decreases n
  {
    if n < 10 then [DigitChar(n)] else NatToString(n / 10) + [DigitChar(n % 10)]
  }

  /** `n.toString()` for an integer `n`: a `-` sign, then the decimal digits. */
  function IntToString(n: int): (r: string)
    ensures 1 <= |r|
    ensures r[0] == '-' <==> n < 0
    ensures forall i :: 0 < i < |r| ==> IsDigit(r[i])
    // after the sign, the canonical decimal digits: at least one, no leading zero
    ensures var first := if n < 0 then 1 else 0;
            && first < |r|
            && (forall i :: first <= i < |r| ==> IsDigit(r[i]))
            && (|r| > first + 1 ==> r[first] != '0')
  {
    if n < 0 then "-" + NatToString(-n) else NatToString(n)
  }

  /** The value of a non-empty string of decimal digits. */
  function ParseDigits(s: string): Option<nat>
    decreases |s|
  {
    if s == [] || !IsDigit(s[|s| - 1]) then None
    else
      var d := s[|s| - 1] as int - '0' as int;
      if |s| == 1 then Some(d)
      else match ParseDigits(s[..|s| - 1])
        case None => None
        case Some(h) => Some(10 * h + d)
  }

  /** Reads an optionally negative decimal integer. */
  function ParseInt(s: string): Option<int> {
    if |s| > 0 && s[0] == '-' then
      match ParseDigits(s[1..])
      case None => None
      case Some(n) => Some(-(n as int))
    else ParseDigits(s)
  }

  lemma {:induction false} ParseNatToString(n: nat)
    ensures ParseDigits(NatToString(n)) == Some(n)
    decreases n
  {
    var s := NatToString(n);
    if n >= 10 {
      ParseNatToString(n / 10);
      assert s[..|s| - 1] == NatToString(n / 10);
    }
  }

  /** `ParseInt` undoes `IntToString`. */
  lemma ParseIntToString(n: int)
    ensures ParseInt(IntToString(n)) == Some(n)
  {
    if n < 0 {
      ParseNatToString(-n);
      assert IntToString(n)[1..] == NatToString(-n);
    } else {
      ParseNatToString(n);
    }
  }

  /** Distinct integers print differently. */
  lemma IntToStringInjective(a: int, b: int)
    requires IntToString(a) == IntToString(b)
    ensures a == b
  {
    ParseIntToString(a);
    ParseIntToString(b);
  }

  // ---------------------------------------------------------------------
  // URLSearchParams: an ordered list of name/value pairs

  /** No pair before position `i` has that name. */
  predicate NoneBefore(pairs: seq<(string, string)>, name: string, i: int) {
    forall j :: 0 <= j < i && j < |pairs| ==> pairs[j].0 != name
  }

  /** `params.get(name)`: the value of the first pair with that name. */
  function FirstValue(pairs: seq<(string, string)>, name: string): (r: Option<string>)
    ensures r.Some? <==> exists i :: 0 <= i < |pairs| && pairs[i].0 == name
    ensures r.Some? ==> exists i :: 0 <= i < |pairs| && pairs[i] == (name, r.value) && NoneBefore(pairs, name, i)
  {
    if pairs == [] then None
    else if pairs[0].0 == name then Some(pairs[0].1)
    else
      var r := FirstValue(pairs[1..], name);
      assert forall i :: 0 < i < |pairs| ==> pairs[i] == pairs[1..][i - 1];
      r
  }

  /** `params.delete(name)`: every pair with that name removed, the others
      kept in order. */
  function WithoutName(pairs: seq<(string, string)>, name: string): (r: seq<(string, string)>)
    ensures |r| <= |pairs|
    ensures forall i :: 0 <= i < |r| ==> r[i].0 != name && r[i] in pairs
  {
    if pairs == [] then []
    else if pairs[0].0 == name then WithoutName(pairs[1..], name)
    else [pairs[0]] + WithoutName(pairs[1..], name)
  }

  /** After `delete(name)`, `get(name)` is null and `get` of any other name
      is what it was. */
  lemma {:induction false} WithoutNameGet(pairs: seq<(string, string)>, name: string, other: string)
    ensures FirstValue(WithoutName(pairs, name), name) == None
    ensures other != name ==> FirstValue(WithoutName(pairs, name), other) == FirstValue(pairs, other)
  {
    if pairs != [] {
      WithoutNameGet(pairs[1..], name, other);
    }
  }

  /** Deleting a name that is absent changes nothing. */
  lemma {:induction false} WithoutAbsentName(pairs: seq<(string, string)>, name: string)
    requires FirstValue(pairs, name) == None
    ensures WithoutName(pairs, name) == pairs
  {
    if pairs != [] {
      WithoutAbsentName(pairs[1..], name);
    }
  }

  /** Deleting from a sequence extended by one pair. */
  lemma {:induction false} WithoutNameSnoc(pairs: seq<(string, string)>, p: (string, string), name: string)
    ensures WithoutName(pairs + [p], name) == WithoutName(pairs, name) + (if p.0 != name then [p] else [])
  {
    if pairs == [] {
      assert [] + [p] == [p];
      assert WithoutName([p][1..], name) == [];
    } else {
      assert (pairs + [p])[1..] == pairs[1..] + [p];
      WithoutNameSnoc(pairs[1..], p, name);
    }
  }
}
