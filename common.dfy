/** Shared vocabulary of the model: optional values, settled promises, the
    string operations the Java and JavaScript sources rely on, and decimal
    rendering of note ids. */
module Common {

  datatype Option<+T> = None | Some(value: T)
  {
    function GetOr(default: T): T {
      match this
      case Some(v) => v
      case None => default
    }
  }

  /** What a rejected JavaScript promise carries, as far as the handlers look at it:
      `err.code`, `err.info`, `err.message`, `err.response.status` and
      `err.response.data.message`. */
  datatype JsError = JsError(
    code: Option<int>,
    info: Option<string>,
    message: Option<string>,
    responseStatus: Option<int>,
    responseMessage: Option<string>)

  /** The settled state of an awaited promise (a call into a browser API,
      a wallet extension or the backend). */
  datatype Outcome<+T> = Resolved(value: T) | Rejected(error: JsError)

  /** JavaScript truthiness of an optional string: null, undefined and "" are falsy. */
  predicate Truthy(s: Option<string>) {
    s.Some? && s.value != ""
  }

  /** `a || b` on optional strings. */
  function OrElse(a: Option<string>, b: string): (r: string)
    ensures Truthy(a) ==> r == a.value
    ensures !Truthy(a) ==> r == b
  {
    if Truthy(a) then a.value else b
  }

  /** `err.response?.data?.message || err.message || fallback`. */
  function ErrorText(e: JsError, fallback: string): (r: string)
    ensures Truthy(e.responseMessage) ==> r == e.responseMessage.value
    ensures !Truthy(e.responseMessage) && Truthy(e.message) ==> r == e.message.value
    ensures !Truthy(e.responseMessage) && !Truthy(e.message) ==> r == fallback
  {
    if Truthy(e.responseMessage) then e.responseMessage.value else OrElse(e.message, fallback)
  }

  /** `obj.key` on a JSON object of strings: undefined when the key is absent. */
  function Lookup(m: map<string, string>, key: string): (r: Option<string>)
    ensures r.Some? <==> key in m
    ensures r.Some? ==> r.value == m[key]
  {
    if key in m then Some(m[key]) else None
  }

  predicate StartsWith(s: string, prefix: string) {
    |prefix| <= |s| && s[..|prefix|] == prefix
  }

  /** `s.includes(sub)` / `s.contains(sub)`. */
  predicate Contains(s: string, sub: string) {
    StartsWith(s, sub) || (|s| > 0 && Contains(s[1..], sub))
  }

  // ---------------------------------------------------------------------
  // Trimming

  /** Characters removed by Java's `String.trim()`: every code point up to U+0020. */
  predicate IsJavaSpace(c: char) {
    c <= ' '
  }

  /** Characters removed by JavaScript's `String.prototype.trim()`: the
      WhiteSpace and LineTerminator productions of ECMAScript. */
  predicate IsJsSpace(c: char) {
    c == '\t' || c == '\n' || c == '\U{000B}' || c == '\U{000C}' || c == '\r' || c == ' '
    || c == '\U{00A0}' || c == '\U{1680}' || ('\U{2000}' <= c <= '\U{200A}')
    || c == '\U{2028}' || c == '\U{2029}' || c == '\U{202F}' || c == '\U{205F}'
    || c == '\U{3000}' || c == '\U{FEFF}'
  }

  /** Drops the leading characters satisfying `space`. */
  function TrimStart(s: string, space: char -> bool): (r: string)
    ensures |r| <= |s| && r == s[|s| - |r|..]
    ensures forall k :: 0 <= k < |s| - |r| ==> space(s[k])
    ensures r == [] || !space(r[0])
  {
    if |s| > 0 && space(s[0]) then TrimStart(s[1..], space) else s
  }

  /** Drops the trailing characters satisfying `space`. */
  function TrimEnd(s: string, space: char -> bool): (r: string)
    ensures |r| <= |s| && r == s[..|r|]
    ensures forall k :: |r| <= k < |s| ==> space(s[k])
    ensures r == [] || !space(r[|r| - 1])
  {
    if |s| > 0 && space(s[|s| - 1]) then TrimEnd(s[..|s| - 1], space) else s
  }

  function Trim(s: string, space: char -> bool): string {
    TrimEnd(TrimStart(s, space), space)
  }

  function JavaTrim(s: string): string {
    Trim(s, IsJavaSpace)
  }

  function JsTrim(s: string): string {
    Trim(s, IsJsSpace)
  }

  /** A string trims to empty exactly when every character of it is blank. */
  lemma TrimEmptyIff(s: string, space: char -> bool)
    ensures Trim(s, space) == [] <==> forall k :: 0 <= k < |s| ==> space(s[k])
  {
    var t := TrimStart(s, space);
    if Trim(s, space) == [] {
      forall k | 0 <= k < |s| ensures space(s[k]) {
        if k >= |s| - |t| {
          assert t[k - (|s| - |t|)] == s[k];
        }
      }
    } else if forall k :: 0 <= k < |s| ==> space(s[k]) {
      assert t != [] ==> t[0] == s[|s| - |t|];
    }
  }

  /** The trimmed string has no blank at either end. */
  lemma TrimHasNoBlankEnds(s: string, space: char -> bool)
    ensures var r := Trim(s, space); r == [] || (!space(r[0]) && !space(r[|r| - 1]))
  {
    var t := TrimStart(s, space);
    var r := TrimEnd(t, space);
    if r != [] {
      assert r[0] == t[0];
    }
  }

  /** Trimming twice is trimming once. */
  lemma TrimIdempotent(s: string, space: char -> bool)
    ensures Trim(Trim(s, space), space) == Trim(s, space)
  {
    var r := Trim(s, space);
    TrimHasNoBlankEnds(s, space);
    if r != [] {
      assert TrimStart(r, space) == r;
      assert TrimEnd(r, space) == r;
    }
  }

  // ---------------------------------------------------------------------
  // Decimal rendering of non-negative integers (template literals `${id}`)

  predicate IsDigit(c: char) {
    '0' <= c <= '9'
  }

  function DigitChar(d: nat): char
    requires d < 10
  {
    ['0', '1', '2', '3', '4', '5', '6', '7', '8', '9'][d]
  }

  function DigitValue(c: char): (d: nat)
    requires IsDigit(c)
    ensures d < 10
  {
    (c as int - '0' as int) as nat
  }

  /** The shortest decimal numeral of `n`. */
  function Decimal(n: nat): (r: string)
    ensures |r| > 0
    ensures forall k :: 0 <= k < |r| ==> IsDigit(r[k])
    ensures n >= 10 ==> r[0] != '0'
  {
    if n < 10 then [DigitChar(n)] else Decimal(n / 10) + [DigitChar(n % 10)]
  }

  /** Reads back a non-empty all-digit string. */
  function ParseDecimal(s: string): (r: Option<nat>)
    ensures r.Some? <==> |s| > 0 && forall k :: 0 <= k < |s| ==> IsDigit(s[k])
  {
    if |s| == 0 || !IsDigit(s[|s| - 1]) then None
    else if |s| == 1 then Some(DigitValue(s[0]))
    else match ParseDecimal(s[..|s| - 1])
      case None => None
      case Some(p) => Some(p * 10 + DigitValue(s[|s| - 1]))
  }

  lemma {:induction false} DecimalRoundTrip(n: nat)
    ensures ParseDecimal(Decimal(n)) == Some(n)
  {
    if n >= 10 {
      DecimalRoundTrip(n / 10);
      var s := Decimal(n);
      assert s[..|s| - 1] == Decimal(n / 10);
      assert DigitValue(DigitChar(n % 10)) == n % 10;
    } else {
      assert DigitValue(DigitChar(n)) == n;
    }
  }

  /** Different ids give different numerals. */
  lemma DecimalInjective(m: nat, n: nat)
    ensures Decimal(m) == Decimal(n) ==> m == n
  {
    DecimalRoundTrip(m);
    DecimalRoundTrip(n);
  }
}
