/** The pieces of java.lang that the backend relies on: the exception
    classes it throws and catches, String.trim, and Integer.toString. */
module JavaLang {
  import opened Wrappers

  /** The exception classes the backend throws, each with its message.
      JSONException is org.json's unchecked exception; like the two
      Illegal*Exception classes it is not an IOException. */
  datatype Exception =
    | IOException(message: string)
    | IllegalStateException(message: string)
    | IllegalArgumentException(message: string)
    | JSONException(message: string)

  /** `e instanceof IOException` */
  predicate IsIOException(e: Exception) {
    e.IOException?
  }

  /** Characters String.trim removes: every char whose code is at most U+0020. */
  predicate IsTrimmed(c: char) {
    c <= ' '
  }

  /** Index of the first character that trim keeps (|s| if there is none). */
  function TrimStart(s: string): (k: nat)
    ensures k <= |s|
    ensures forall i :: 0 <= i < k ==> IsTrimmed(s[i])
    ensures k < |s| ==> !IsTrimmed(s[k])
  {
    if s == [] || !IsTrimmed(s[0]) then 0 else 1 + TrimStart(s[1..])
  }

  /** Index just past the last character that trim keeps, never below `from`. */
  function TrimEnd(s: string, from: nat): (k: nat)
    requires from <= |s|
    ensures from <= k <= |s|
    ensures forall i :: k <= i < |s| ==> IsTrimmed(s[i])
    ensures k > from ==> !IsTrimmed(s[k - 1])
    decreases |s|
  {
    if |s| == from || !IsTrimmed(s[|s| - 1]) then |s| else TrimEnd(s[..|s| - 1], from)
  }

  /** String.trim: drops the leading and the trailing run of chars <= U+0020. */
  function Trim(s: string): (r: string)
    ensures |r| <= |s|
    ensures r == s[TrimStart(s)..TrimEnd(s, TrimStart(s))]
    ensures r != [] ==> !IsTrimmed(r[0]) && !IsTrimmed(r[|r| - 1])
  {
    s[TrimStart(s)..TrimEnd(s, TrimStart(s))]
  }

  /** `s == null || s.trim().isEmpty()`, the backend's test for a missing
      configuration value or a missing transcript. */
  predicate IsBlank(s: Option<string>) {
    s.None? || Trim(s.value) == []
  }

  /** A string trims to empty exactly when every one of its chars is trimmed. */
  lemma TrimEmptyIff(s: string)
    ensures Trim(s) == [] <==> forall i :: 0 <= i < |s| ==> IsTrimmed(s[i])
  {
    var a := TrimStart(s);
    if Trim(s) != [] {
      assert !IsTrimmed(s[a]);
    }
  }

  /** The number of occurrences of `c` in `s`. */
  function Count(s: string, c: char): (n: nat)
    ensures n <= |s|
  {
    if s == [] then 0 else (if s[0] == c then 1 else 0) + Count(s[1..], c)
  }

  /** Counting can equally be done from the end, as a left-to-right loop does. */
  lemma {:induction false} CountSnoc(s: string, x: char, c: char)
    ensures Count(s + [x], c) == Count(s, c) + (if x == c then 1 else 0)
  {
    if s != [] {
      assert (s + [x])[1..] == s[1..] + [x];
      CountSnoc(s[1..], x, c);
    }
  }

  /** The decimal digit of a value below ten. */
  function Digit(d: nat): (c: char)
    requires d < 10
    ensures '0' <= c <= '9'
  {
    "0123456789"[d]
  }

  /** Integer.toString of a non-negative int, as `"HTTP " + code` renders it. */
  function Decimal(n: nat): (r: string)
    ensures r != []
    ensures forall i :: 0 <= i < |r| ==> '0' <= r[i] <= '9'
    ensures r[0] == '0' ==> n == 0 && r == "0"
  {
    if n < 10 then [Digit(n)] else Decimal(n / 10) + [Digit(n % 10)]
  }

  /** The value a string of decimal digits denotes: the reading that
      Integer.parseInt would give back. */
  function DigitsValue(s: string): nat
    requires forall i :: 0 <= i < |s| ==> '0' <= s[i] <= '9'
  {
    if s == [] then 0
    else 10 * DigitsValue(s[..|s| - 1]) + (s[|s| - 1] as int - '0' as int)
  }

  /** Reading back the rendering of a status code gives the code. */
  lemma {:induction false} DecimalRoundTrip(n: nat)
    ensures DigitsValue(Decimal(n)) == n
  {
    if n >= 10 {
      DecimalRoundTrip(n / 10);
      var r := Decimal(n);
      assert r[..|r| - 1] == Decimal(n / 10);
    }
  }
}
