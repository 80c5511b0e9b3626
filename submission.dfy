/**
 * The guards `handleSaveOrder` applies before an order is sent: a customer
 * name that is not blank once trimmed, and at least one item.
 */
module Submission {
  import opened Types

  /**
   * The characters JavaScript's `String.prototype.trim` removes: the
   * WhiteSpace code points (tab, vertical tab, form feed, the byte-order
   * mark and the space separators) and the LineTerminator code points.
   */
  predicate IsWhitespace(c: char) {
    || c == '\t' || c == '\n' || c == '\U{000B}' || c == '\U{000C}' || c == '\r'
    || c == ' ' || c == '\U{00A0}' || c == '\U{1680}'
    || ('\U{2000}' <= c <= '\U{200A}')
    || c == '\U{2028}' || c == '\U{2029}' || c == '\U{202F}' || c == '\U{205F}'
    || c == '\U{3000}' || c == '\U{FEFF}'
  }

  /** Every character of `s` is whitespace (the empty string included). */
  predicate IsBlank(s: string) {
    forall k | 0 <= k < |s| :: IsWhitespace(s[k])
  }

  /** The number of whitespace characters `s` starts with. */
  function LeadingWhitespace(s: string): (n: nat)
    ensures n <= |s|
    ensures forall k | 0 <= k < n :: IsWhitespace(s[k])
    ensures n < |s| ==> !IsWhitespace(s[n])
    decreases |s|
  {
    if s != [] && IsWhitespace(s[0]) then 1 + LeadingWhitespace(s[1..]) else 0
  }

  /** The number of whitespace characters `s` ends with. */
  function TrailingWhitespace(s: string): (n: nat)
    ensures n <= |s|
    ensures forall k | |s| - n <= k < |s| :: IsWhitespace(s[k])
    ensures n < |s| ==> !IsWhitespace(s[|s| - n - 1])
    decreases |s|
  {
    if s != [] && IsWhitespace(s[|s| - 1]) then 1 + TrailingWhitespace(s[..|s| - 1]) else 0
  }

  /** Where `trim` cuts: after the leading whitespace and before the trailing whitespace. */
  function TrimBounds(s: string): (bounds: (nat, nat))
    ensures bounds.0 <= bounds.1 <= |s|
    ensures forall k | 0 <= k < bounds.0 :: IsWhitespace(s[k])
    ensures forall k | bounds.1 <= k < |s| :: IsWhitespace(s[k])
    ensures bounds.0 < bounds.1 ==> !IsWhitespace(s[bounds.0]) && !IsWhitespace(s[bounds.1 - 1])
  {
    var i := LeadingWhitespace(s);
    var t := s[i..];
    var m := TrailingWhitespace(t);
    assert forall k | |s| - m <= k < |s| :: s[k] == t[k - i];
    assert |t| - m > 0 ==> s[|s| - m - 1] == t[|t| - m - 1];
    (i, |s| - m)
  }

  /**
   * `s.trim()`: the contiguous part of `s` left when its leading and its
   * trailing whitespace are cut off.
   */
  function Trim(s: string): (r: string)
    ensures exists i, j | 0 <= i <= j <= |s| ::
              && r == s[i..j]
              && (forall k | 0 <= k < i :: IsWhitespace(s[k]))
              && (forall k | j <= k < |s| :: IsWhitespace(s[k]))
    ensures r != [] ==> !IsWhitespace(r[0]) && !IsWhitespace(r[|r| - 1])
  {
    var (i, j) := TrimBounds(s);
    s[i..j]
  }

  /** `!name.trim()` holds exactly when the name is empty or all whitespace. */
  lemma TrimEmptyIffBlank(s: string)
    ensures Trim(s) == [] <==> IsBlank(s)
  {
    var n := LeadingWhitespace(s);
    var t := s[n..];
    var m := TrailingWhitespace(t);
    if Trim(s) == [] {
      assert m == |t|;
    }
    if IsBlank(s) {
      assert n == |s|;
    }
  }

  /** Why an order may not be saved yet. */
  datatype SubmitError = MissingCustomerName | EmptyOrder

  /**
   * The two save guards in the handler's order: the blank name is reported
   * first, then the empty item list; an order passing both may be sent.
   */
  function CheckSubmission(customerName: string, items: seq<NewOrderItem>): (r: Option<SubmitError>)
    ensures r == Some(MissingCustomerName) <==> IsBlank(customerName)
    ensures r == Some(EmptyOrder) <==> !IsBlank(customerName) && |items| == 0
    ensures r == None <==> !IsBlank(customerName) && |items| > 0
  {
    TrimEmptyIffBlank(customerName);
    if Trim(customerName) == [] then Some(MissingCustomerName)
    else if |items| == 0 then Some(EmptyOrder)
    else None
  }
}
