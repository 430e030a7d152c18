/**
 * The few JavaScript value rules the modelled TypeScript relies on: optional
 * values, truthiness of strings, the `||` default, template
 * interpolation, thrown values and settled promises, and `Array.prototype.filter`.
 */
module JsValues {

  /**
   * A value that may be missing. Where the code only tests a value's
   * truthiness or applies `||`, undefined and null behave alike and both are
   * `None`. Template interpolation tells them apart; it is applied only to
   * provider fields, where `None` is an omitted field (undefined).
   */
  datatype Option<+T> = None | Some(value: T)

  /** An optional string is truthy when it is present and not the empty string. */
  predicate Truthy(s: Option<string>) {
    s.Some? && s.value != ""
  }

  /** `s || fallback` on an optional string. */
  function OrElse(s: Option<string>, fallback: string): string {
    if Truthy(s) then s.value else fallback
  }

  /** `${s}` in a template literal: an undefined value prints as "undefined". */
  function Interpolate(s: Option<string>): string {
    if s.Some? then s.value else "undefined"
  }

  /**
   * An `Error` object. `TypeError` stands for the error the JavaScript engine
   * raises when code reads a property of undefined or iterates over undefined;
   * its text is engine specific and is not modelled.
   */
  datatype Error = Error(message: string) | TypeError

  /** A thrown value: an `Error` instance, or some other value. */
  datatype Thrown = ErrorValue(error: Error) | NonErrorValue

  /** `error instanceof Error ? error : new Error('An unknown error occurred')` */
  function AsError(t: Thrown): Error {
    match t
    case ErrorValue(e) => e
    case NonErrorValue => Error("An unknown error occurred")
  }

  /** How a `Promise<void>` settles. */
  datatype Settled = Resolved | Rejected(reason: Error)

  /** `s.filter(keep)`: the elements of `s` that `keep` accepts, in order. */
  function Filter<T>(s: seq<T>, keep: T -> bool): (r: seq<T>)
    ensures |r| <= |s|
    ensures forall i :: 0 <= i < |r| ==> keep(r[i])
  {
    if s == [] then []
    else (if keep(s[0]) then [s[0]] else []) + Filter(s[1..], keep)
  }

  lemma {:induction false} FilterAppend<T>(a: seq<T>, b: seq<T>, keep: T -> bool)
    ensures Filter(a + b, keep) == Filter(a, keep) + Filter(b, keep)
  {
    if a == [] {
      assert a + b == b;
    } else {
      assert (a + b)[1..] == a[1..] + b;
      FilterAppend(a[1..], b, keep);
    }
  }

  /** An element survives the filter exactly when it is in `s` and accepted. */
  lemma {:induction false} FilterMembership<T>(s: seq<T>, keep: T -> bool, x: T)
    ensures x in Filter(s, keep) <==> x in s && keep(x)
  {
    if s != [] {
      assert s == [s[0]] + s[1..];
      FilterMembership(s[1..], keep, x);
    }
  }

  /** Filtering a sequence whose every element is accepted returns it unchanged. */
  lemma {:induction false} FilterKeepsAll<T>(s: seq<T>, keep: T -> bool)
    requires forall i :: 0 <= i < |s| ==> keep(s[i])
    ensures Filter(s, keep) == s
  {
    if s != [] {
      FilterKeepsAll(s[1..], keep);
    }
  }

  /** Filtering a sequence whose every element is rejected returns the empty sequence. */
  lemma {:induction false} FilterDropsAll<T>(s: seq<T>, keep: T -> bool)
    requires forall i :: 0 <= i < |s| ==> !keep(s[i])
    ensures Filter(s, keep) == []
  {
    if s != [] {
      FilterDropsAll(s[1..], keep);
    }
  }

  /** Two filters that agree on every element of `s` select the same elements. */
  lemma {:induction false} FilterAgree<T>(s: seq<T>, p: T -> bool, q: T -> bool)
    requires forall i :: 0 <= i < |s| ==> p(s[i]) == q(s[i])
    ensures Filter(s, p) == Filter(s, q)
  {
    if s != [] {
      FilterAgree(s[1..], p, q);
    }
  }
}
