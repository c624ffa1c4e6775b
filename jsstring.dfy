/**
 * The JavaScript string built-ins that the inference layer relies on:
 * the `\s` character class, `toUpperCase`, `indexOf`, and `String.prototype.replace`
 * with a string pattern (first match only, with `$` substitution patterns).
 */
module JsString {
  import opened Wrappers

  /** Membership in the `\s` class of JavaScript regular expressions
      (WhiteSpace and LineTerminator code points). */
  predicate IsSpace(c: char) {
    var n := c as int;
    n == 0x20 || (0x09 <= n <= 0x0D) || n == 0xA0 || n == 0x1680
    || (0x2000 <= n <= 0x200A) || n == 0x2028 || n == 0x2029
    || n == 0x202F || n == 0x205F || n == 0x3000 || n == 0xFEFF
  }

  /** `toUpperCase` on one character, for the ASCII letters. */
  function UpperChar(c: char): (u: char)
    ensures 'a' <= c <= 'z' ==> 'A' <= u <= 'Z' && u as int == c as int - 32
    ensures !('a' <= c <= 'z') ==> u == c
  {
    if 'a' <= c <= 'z' then (c as int - 32) as char else c
  }

  function ToUpper(s: string): (u: string)
    ensures |u| == |s|
    ensures forall i :: 0 <= i < |s| ==> u[i] == UpperChar(s[i])
  {
    seq(|s|, i requires 0 <= i < |s| => UpperChar(s[i]))
  }

  /** Upper-casing an upper-cased text changes nothing. */
  lemma ToUpperIdempotent(s: string)
    ensures ToUpper(ToUpper(s)) == ToUpper(s)
  {
  }

  /** The pattern `p` occurs in `text` starting at index `k`. */
  predicate OccursAt(text: string, p: string, k: int) {
    0 <= k && k + |p| <= |text| && text[k..k + |p|] == p
  }

  predicate Contains(text: string, p: string) {
    exists k :: 0 <= k <= |text| && OccursAt(text, p, k)
  }

  /** An occurrence at `k >= 1` is an occurrence at `k - 1` in the text without its head. */
  lemma OccursShifted(text: string, p: string, k: int)
    requires text != [] && 1 <= k
    ensures OccursAt(text, p, k) == OccursAt(text[1..], p, k - 1)
  {
    if k + |p| <= |text| {
      var a, b := text[k..k + |p|], text[1..][k - 1..k - 1 + |p|];
      assert |a| == |b|;
      forall j | 0 <= j < |a| ensures a[j] == b[j] {
        assert a[j] == text[k + j];
        assert b[j] == text[1..][k - 1 + j];
      }
      assert a == b;
    }
  }

  /** `text.indexOf(p)`: the least index at which `p` occurs, if any. */
  function IndexOf(text: string, p: string): (r: Option<nat>)
    ensures r.Some? ==> OccursAt(text, p, r.value)
    ensures r.Some? ==> forall k :: 0 <= k < r.value ==> !OccursAt(text, p, k)
    ensures r.None? ==> forall k :: !OccursAt(text, p, k)
    decreases |text|
  {
    if |p| <= |text| && text[..|p|] == p then Some(0)
    else if text == [] then None
    else
      var rest := IndexOf(text[1..], p);
      forall k | 1 <= k ensures OccursAt(text, p, k) == OccursAt(text[1..], p, k - 1) {
        OccursShifted(text, p, k);
      }
      match rest
      case None => None
      case Some(i) => Some(i + 1)
  }

  /** No `$` in `s`: `replace` then inserts `s` literally. */
  predicate NoDollar(s: string) {
    forall i :: 0 <= i < |s| ==> s[i] != '$'
  }

  /**
   * The replacement text that `replace` builds from `rep` (GetSubstitution of ECMAScript,
   * with no capture groups): `$$` gives `$`, `$&` the match, `` $` `` the text before it,
   * `$'` the text after it; any other `$` stands for itself.
   */
  function Expand(rep: string, matched: string, before: string, after: string): (r: string)
    decreases |rep|
  {
    if rep == [] then []
    else if rep[0] != '$' || |rep| == 1 then [rep[0]] + Expand(rep[1..], matched, before, after)
    else if rep[1] == '$' then "$" + Expand(rep[2..], matched, before, after)
    else if rep[1] == '&' then matched + Expand(rep[2..], matched, before, after)
    else if rep[1] == '`' then before + Expand(rep[2..], matched, before, after)
    else if rep[1] == '\'' then after + Expand(rep[2..], matched, before, after)
    else "$" + Expand(rep[1..], matched, before, after)
  }

  lemma {:induction false} ExpandLiteral(rep: string, matched: string, before: string, after: string)
    requires NoDollar(rep)
    ensures Expand(rep, matched, before, after) == rep
    decreases |rep|
  {
    if rep != [] {
      ExpandLiteral(rep[1..], matched, before, after);
    }
  }

  /** `text.replace(p, rep)` with a string pattern: only the first occurrence is replaced. */
  function ReplaceFirst(text: string, p: string, rep: string): (r: string)
  {
    match IndexOf(text, p)
    case None => text
    case Some(i) =>
      text[..i] + Expand(rep, p, text[..i], text[i + |p|..]) + text[i + |p|..]
  }

  /** With no occurrence of `p`, `replace` leaves the text as it is. */
  lemma ReplaceFirstAbsent(text: string, p: string, rep: string)
    requires !Contains(text, p)
    ensures ReplaceFirst(text, p, rep) == text
  {
  }

  /**
   * Splitting the text at the first occurrence of `p`: that occurrence, and only it,
   * becomes `rep`; the prefix and everything after it (later occurrences included) stay.
   */
  lemma ReplaceFirstAt(text: string, p: string, rep: string, pre: string, post: string)
    requires text == pre + p + post
    requires forall k :: 0 <= k < |pre| ==> !OccursAt(text, p, k)
    requires NoDollar(rep)
    ensures ReplaceFirst(text, p, rep) == pre + rep + post
  {
    assert text[|pre|..|pre| + |p|] == p;
    assert OccursAt(text, p, |pre|);
    var i := IndexOf(text, p).value;
    assert i == |pre|;
    assert text[..i] == pre;
    assert text[i + |p|..] == post;
    ExpandLiteral(rep, p, pre, post);
  }
}
