/** The metric-name sanitiser of the roachtest registry package.

    `PromSub` turns a test name into a Prometheus metric name: every character that
    is not an ASCII letter, an ASCII digit or `_` becomes a single `_`, and every
    other character is kept where it was.
 */
module Registry {

  /** The characters kept by the sanitiser: `[a-zA-Z0-9_]`. */
  predicate IsPromNameChar(c: char)
  {
    ('a' <= c <= 'z') || ('A' <= c <= 'Z') || ('0' <= c <= '9') || c == '_'
  }

  /** A string made only of characters the sanitiser keeps. */
  predicate IsPromName(s: string)
  {
    forall i :: 0 <= i < |s| ==> IsPromNameChar(s[i])
  }

  /** The character `c` becomes in a metric name. */
  function PromChar(c: char): (d: char)
    ensures IsPromNameChar(d)
    ensures IsPromNameChar(c) <==> d == c
    ensures !IsPromNameChar(c) ==> d == '_'
  {
    if IsPromNameChar(c) then c else '_'
  }

  /** Sanitises a raw name in one pass. The result has one character per input
      character: a legal character is kept at its position, any other one becomes a
      single `_` (no collapsing, no trimming), and so the result is a legal name. */
  function PromSub(raw: string): (name: string)
    ensures |name| == |raw|
    ensures forall i :: 0 <= i < |raw| && IsPromNameChar(raw[i]) ==> name[i] == raw[i]
    ensures forall i :: 0 <= i < |raw| && !IsPromNameChar(raw[i]) ==> name[i] == '_'
    ensures IsPromName(name)
  {
    seq(|raw|, i requires 0 <= i < |raw| => PromChar(raw[i]))
  }

  /** Sanitising works character by character: the name of a concatenation is the
      concatenation of the names. */
  lemma PromSubConcat(a: string, b: string)
    ensures PromSub(a + b) == PromSub(a) + PromSub(b)
  {
  }

  /** A string is left alone by the sanitiser exactly when it is already a legal name. */
  lemma PromSubFixedPoints(s: string)
    ensures PromSub(s) == s <==> IsPromName(s)
  {
  }

  /** Sanitising a sanitised name changes nothing. */
  lemma PromSubIdempotent(raw: string)
    ensures PromSub(PromSub(raw)) == PromSub(raw)
  {
  }
}
