/** String helpers for the JavaScript template literals and checks of the source. */
module Text {

  /** The decimal text JavaScript produces for an integral number or bigint. */
  function NumberText(n: int): (r: string)
    ensures |r| >= 1
    decreases if n < 0 then -n + 1 else n
  {
    if n < 0 then "-" + NumberText(-n)
    else if n < 10 then [DigitChar(n)]
    else NumberText(n / 10) + [DigitChar(n % 10)]
  }

  function DigitChar(d: int): char
    requires 0 <= d < 10
  {
    "0123456789"[d]
  }

  /** `s.startsWith(p)`. */
  predicate StartsWith(s: string, p: string) {
    |p| <= |s| && s[..|p|] == p
  }

  /** `s.includes(sub)`: `sub` occurs somewhere in `s`. */
  predicate Contains(s: string, sub: string)
    decreases |s|
  {
    StartsWith(s, sub) || (|s| > 0 && Contains(s[1..], sub))
  }

  /** Whatever surrounds it, a string contains the part in its middle. */
  lemma {:induction false} ContainsMiddle(a: string, b: string, c: string)
    ensures Contains(a + b + c, b)
  {
    if a == [] {
      assert a + b + c == b + c;
      assert (b + c)[..|b|] == b;
    } else {
      ContainsMiddle(a[1..], b, c);
      assert (a + b + c)[1..] == a[1..] + b + c;
    }
  }

  /** `String(error)` for a JavaScript `Error` whose message is `message`:
      the name alone when the message is empty, else name, colon, message. */
  function ErrorText(message: string): (r: string)
    ensures message == "" ==> r == "Error"
    ensures message != "" ==> StartsWith(r, "Error: ") && r[|"Error: "|..] == message
  {
    if message == "" then "Error" else "Error: " + message
  }

  /** From 10^21 in magnitude, `String(n)` switches to exponent form ("1e+21"). */
  const ExponentFormBound := 1_000_000_000_000_000_000_000

  predicate PrintsInExponentForm(n: int) {
    n >= ExponentFormBound || n <= -ExponentFormBound
  }

  /** `s.toLowerCase()` on the ASCII letters the source's names are made of. */
  function LowerAscii(s: string): (r: string)
    ensures |r| == |s|
    ensures forall i :: 0 <= i < |s| ==> ('A' <= s[i] <= 'Z' ==> r[i] as int == s[i] as int + 32)
    ensures forall i :: 0 <= i < |s| ==> (!('A' <= s[i] <= 'Z') ==> r[i] == s[i])
  {
    if s == [] then []
    else [if 'A' <= s[0] <= 'Z' then (s[0] as int + 32) as char else s[0]] + LowerAscii(s[1..])
  }
}
