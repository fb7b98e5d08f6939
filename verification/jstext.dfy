/**
 * The two JavaScript string operations the core relies on:
 * `String.prototype.trim` (used by the client's send handler) and
 * `Array.prototype.join` (used to build the configuration error message).
 */
module JsText {

  /** WhiteSpace and LineTerminator code points of ECMAScript, the set `trim` strips. */
  predicate IsJsWhitespace(c: char)
  {
    || c == '\t' || c == '\U{000B}' || c == '\U{000C}' || c == ' '
    || c == '\U{00A0}' || c == '\U{FEFF}'
    || c == '\n' || c == '\r' || c == '\U{2028}' || c == '\U{2029}'
    || c == '\U{1680}' || ('\U{2000}' <= c <= '\U{200A}')
    || c == '\U{202F}' || c == '\U{205F}' || c == '\U{3000}'
  }

  predicate AllWhitespace(s: string)
  {
    forall i | 0 <= i < |s| :: IsJsWhitespace(s[i])
  }

  /** Index of the first non-whitespace character at or after `i` (or |s|). */
  function SkipLeading(s: string, i: nat): (k: nat)
    requires i <= |s|
    ensures i <= k <= |s|
    ensures forall j | i <= j < k :: IsJsWhitespace(s[j])
    ensures k < |s| ==> !IsJsWhitespace(s[k])
    decreases |s| - i
  {
    if i < |s| && IsJsWhitespace(s[i]) then SkipLeading(s, i + 1) else i
  }

  /** One past the last non-whitespace character before `j` (or 0). */
  function SkipTrailing(s: string, j: nat): (k: nat)
    requires j <= |s|
    ensures k <= j
    ensures forall i | k <= i < j :: IsJsWhitespace(s[i])
    ensures 0 < k ==> !IsJsWhitespace(s[k - 1])
  {
    if 0 < j && IsJsWhitespace(s[j - 1]) then SkipTrailing(s, j - 1) else j
  }

  /**
   * `s.trim()`: the slice of `s` left after removing leading and trailing
   * whitespace. It is empty exactly when `s` is all whitespace; otherwise it
   * starts and ends with a non-whitespace character and only whitespace was
   * removed on either side.
   */
  function Trim(s: string): (r: string)
    ensures r == "" <==> AllWhitespace(s)
    ensures r != "" ==> !IsJsWhitespace(r[0]) && !IsJsWhitespace(r[|r| - 1])
    ensures exists a: nat, b: nat | a <= b <= |s| ::
              r == s[a..b] && AllWhitespace(s[..a]) && AllWhitespace(s[b..])
  {
    var a := SkipLeading(s, 0);
    var b := SkipTrailing(s, |s|);
    if a < b then
      assert AllWhitespace(s[..a]) && AllWhitespace(s[b..]);
      s[a..b]
    else
      assert AllWhitespace(s) by {
        forall i | 0 <= i < |s| ensures IsJsWhitespace(s[i]) {
          if i >= a { assert i < b || b <= i; }
        }
      }
      assert AllWhitespace(s[..0]) && AllWhitespace(s[0..]);
      ""
  }

  /** Trimming twice is trimming once. */
  lemma TrimIdempotent(s: string)
    ensures Trim(Trim(s)) == Trim(s)
  {
    var t := Trim(s);
    if t != "" {
      assert SkipLeading(t, 0) == 0;
      assert SkipTrailing(t, |t|) == |t|;
      assert t[0..|t|] == t;
    }
  }

  /**
   * `parts.join(sep)`: the parts in order with `sep` between neighbours;
   * the empty array joins to the empty string.
   */
  function Join(parts: seq<string>, sep: string): (r: string)
    ensures |parts| == 1 ==> r == parts[0]
  {
    if |parts| == 0 then ""
    else if |parts| == 1 then parts[0]
    else parts[0] + sep + Join(parts[1..], sep)
  }

  /** Appending a part to a non-empty list adds one separator and that part at the end. */
  lemma {:induction false} JoinSnoc(parts: seq<string>, x: string, sep: string)
    requires |parts| > 0
    ensures Join(parts + [x], sep) == Join(parts, sep) + sep + x
  {
    if |parts| == 1 {
      assert (parts + [x])[1..] == [x];
    } else {
      assert (parts + [x])[1..] == parts[1..] + [x];
      JoinSnoc(parts[1..], x, sep);
    }
  }
}
