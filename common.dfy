/** Types shared by the whole model: optional values, the four personas,
    chat messages, and the two JavaScript string conversions the source
    relies on (decimal formatting of integers and String.prototype.trim). */
module Common {

  datatype Option<+T> = None | Some(value: T)

  /** The four personas ("character" in the source). */
  datatype Character = Teenager | Grandma | Intellectual | Exec

  datatype Role = User | Assistant | System

  /** A transcript message: `{ id, role, content }`. */
  datatype Message = Message(id: string, role: Role, content: string)

  predicate IsPrefix(p: string, s: string) {
    |p| <= |s| && s[..|p|] == p
  }

  function Min(a: int, b: int): int { if a <= b then a else b }

  // ---------------------------------------------------------------------
  // Decimal formatting, as `${n}` does for an integer number.

  function DigitChar(d: nat): (c: char)
    requires d < 10
    ensures '0' <= c <= '9'
  {
    "0123456789"[d]
  }

  function NatToString(n: nat): (s: string)
    ensures 0 < |s|
    ensures forall k :: 0 <= k < |s| ==> '0' <= s[k] <= '9'
    ensures n < 10 <==> |s| == 1
    decreases n
  {
    if n < 10 then [DigitChar(n)] else NatToString(n / 10) + [DigitChar(n % 10)]
  }

  /** Reads back a string of decimal digits. */
  function DigitsValue(s: string): nat
    requires forall k :: 0 <= k < |s| ==> '0' <= s[k] <= '9'
  {
    if s == [] then 0 else DigitsValue(s[..|s| - 1]) * 10 + (s[|s| - 1] as int - '0' as int)
  }

  lemma {:induction false} NatToStringRoundTrip(n: nat)
    ensures DigitsValue(NatToString(n)) == n
    decreases n
  {
    var s := NatToString(n);
    if n >= 10 {
      NatToStringRoundTrip(n / 10);
      assert s[..|s| - 1] == NatToString(n / 10);
    }
  }

  function IntToString(i: int): (s: string)
    ensures 0 < |s|
    ensures (s[0] == '-') <==> i < 0
  {
    if i < 0 then "-" + NatToString(-i) else NatToString(i)
  }

  // ---------------------------------------------------------------------
  // String.prototype.trim: strips WhiteSpace and LineTerminator code points
  // (section 12.2 and 12.3 of ECMA-262) from both ends.

  predicate IsJsWhitespace(c: char) {
    var u := c as int;
    u == 0x09 || u == 0x0A || u == 0x0B || u == 0x0C || u == 0x0D || u == 0x20 ||
    u == 0xA0 || u == 0x1680 || (0x2000 <= u <= 0x200A) || u == 0x2028 || u == 0x2029 ||
    u == 0x202F || u == 0x205F || u == 0x3000 || u == 0xFEFF
  }

  predicate AllWhitespace(s: string) {
    forall k :: 0 <= k < |s| ==> IsJsWhitespace(s[k])
  }

  /** The index of the first non-whitespace character at or after `i`,
      or `j` when there is none before `j`. */
  function SkipLeading(s: string, i: nat, j: nat): (r: nat)
    requires i <= j <= |s|
    ensures i <= r <= j
    ensures forall k :: i <= k < r ==> IsJsWhitespace(s[k])
    ensures r < j ==> !IsJsWhitespace(s[r])
    decreases j - i
  {
    if i == j || !IsJsWhitespace(s[i]) then i else SkipLeading(s, i + 1, j)
  }

  /** The end of `s[..j]` once its trailing whitespace is dropped. */
  function SkipTrailing(s: string, j: nat): (r: nat)
    requires j <= |s|
    ensures r <= j
    ensures forall k :: r <= k < j ==> IsJsWhitespace(s[k])
    ensures r > 0 ==> !IsJsWhitespace(s[r - 1])
  {
    if j == 0 || !IsJsWhitespace(s[j - 1]) then j else SkipTrailing(s, j - 1)
  }

  /** `s.trim()`: the middle of `s` between its leading and trailing whitespace. */
  function Trim(s: string): (r: string)
    ensures exists i, j :: 0 <= i <= j <= |s| && r == s[i..j] && AllWhitespace(s[..i]) && AllWhitespace(s[j..])
    ensures r == [] || (!IsJsWhitespace(r[0]) && !IsJsWhitespace(r[|r| - 1]))
    ensures r == [] <==> AllWhitespace(s)
  {
    var j := SkipTrailing(s, |s|);
    var i := SkipLeading(s, 0, j);
    assert AllWhitespace(s[..i]) && AllWhitespace(s[j..]);
    assert i < j ==> s[i..j][0] == s[i] && s[i..j][j - i - 1] == s[j - 1];
    s[i..j]
  }
}
