/** The two field rules the forms register: `required` and `minLength`, checked in that
    order, each with its own message. */
module FormRules {
  import opened Seqs

  /** JavaScript's `.length` of a string: UTF-16 code units, so a character outside the
      Basic Multilingual Plane counts twice. */
  function JsLength(s: string): (n: nat)
    ensures |s| <= n <= 2 * |s|
    ensures n == 0 <==> s == []
  {
    if s == [] then 0 else (if s[0] as int > 0xFFFF then 2 else 1) + JsLength(s[1..])
  }

  /** Without characters beyond the Basic Multilingual Plane the two lengths agree. */
  lemma {:induction false} BmpLength(s: string)
    requires forall i :: 0 <= i < |s| ==> s[i] as int <= 0xFFFF
    ensures JsLength(s) == |s|
  {
    if s != [] {
      BmpLength(s[1..]);
    }
  }

  /** The first failing rule's message for a required text field of minimum length `min`:
      the required message for an empty value, the length message for a short one. */
  function RequiredMinLength(value: string, min: nat, requiredMessage: string, shortMessage: string): (e: Option<string>)
    ensures e.None? <==> value != "" && JsLength(value) >= min
    ensures value == "" ==> e == Some(requiredMessage)
    ensures value != "" && JsLength(value) < min ==> e == Some(shortMessage)
  {
    if value == "" then Some(requiredMessage)
    else if JsLength(value) < min then Some(shortMessage)
    else None
  }

  /** A value of at least one character passes a rule of minimum length one or more exactly
      when it is long enough: the required rule adds nothing once `min` is positive. */
  lemma RequiredImpliedByLength(value: string, min: nat, requiredMessage: string, shortMessage: string)
    requires min >= 1
    ensures RequiredMinLength(value, min, requiredMessage, shortMessage).None? <==> JsLength(value) >= min
  {
  }

  const DashboardPath: string := "/dashboard"

  /** After the login or rent-create thunk settles: only a fulfilled result navigates, and
      always to the dashboard. */
  function NavigateOnFulfilled(fulfilled: bool): (navigate: Option<string>)
    ensures navigate.Some? <==> fulfilled
    ensures navigate.Some? ==> navigate.value == DashboardPath
  {
    if fulfilled then Some(DashboardPath) else None
  }
}
