/** The character classes of Appendix A of RFC 6749 that the request checks use, and the
    JavaScript truthiness of a request parameter. */
module Validator {
  import opened Wrappers

  /** VSCHAR = %x20-7E */
  predicate IsVsChar(c: char)
  {
    ' ' <= c <= '~'
  }

  /** NQSCHAR = %x20-21 / %x23-5B / %x5D-7E: VSCHAR without the double quote and the backslash. */
  predicate IsNqsChar(c: char)
  {
    IsVsChar(c) && c != '"' && c != '\\'
  }

  /** One or more VSCHAR. */
  predicate VsChars(s: string)
  {
    |s| > 0 && forall i | 0 <= i < |s| :: IsVsChar(s[i])
  }

  /** One or more NQSCHAR. */
  predicate NqsChars(s: string)
  {
    |s| > 0 && forall i | 0 <= i < |s| :: IsNqsChar(s[i])
  }

  /** A parameter is truthy when it is present and not the empty string. */
  predicate Truthy(p: Option<string>)
  {
    p.Some? && p.value != ""
  }

  /** The syntax check `is.vschar` applied to a parameter that may be absent: an absent
      parameter passes (optional parameters are checked only when given). */
  predicate VsCharParam(p: Option<string>)
  {
    p.None? || VsChars(p.value)
  }

  /** The syntax check `is.nqschar` on a parameter that may be absent. */
  predicate NqsCharParam(p: Option<string>)
  {
    p.None? || NqsChars(p.value)
  }

  /** The check `is.uri`: an absent parameter is never a URI. */
  predicate UriParam(isUri: string -> bool, p: Option<string>)
  {
    p.Some? && isUri(p.value)
  }

  /** JavaScript `a || b` on parameters. */
  function Or(a: Option<string>, b: Option<string>): (r: Option<string>)
    ensures Truthy(r) <==> Truthy(a) || Truthy(b)
    ensures Truthy(a) ==> r == a
    ensures !Truthy(a) ==> r == b
  {
    if Truthy(a) then a else b
  }
}
