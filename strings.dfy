/** String helpers: the parts of JavaScript's string API the services rely on. */
module Strings {
  import opened Wrappers

  /** The message prefix both services use when ids to add are unknown. */
  const SONGS_NOT_FOUND := "Songs not found: "

  /** JavaScript truthiness of an optional string: present and not empty. */
  predicate Truthy(v: Option<string>) {
    v.Some? && v.value != ""
  }

  /** `s` begins with `prefix` (String.prototype.startsWith, or a regular expression anchored with ^). */
  predicate StartsWith(s: string, prefix: string) {
    |prefix| <= |s| && s[..|prefix|] == prefix
  }

  /** `sub` occurs somewhere in `s` (String.prototype.includes). */
  predicate Contains(s: string, sub: string)
    decreases |s|
  {
    StartsWith(s, sub) || (s != [] && Contains(s[1..], sub))
  }

  predicate IsDigit(c: char) {
    '0' <= c <= '9'
  }

  predicate AllDigits(s: string) {
    forall i | 0 <= i < |s| :: IsDigit(s[i])
  }

  function DigitChar(d: nat): (c: char)
    requires d < 10
    ensures IsDigit(c) && c as int - '0' as int == d
  {
    ('0' as int + d) as char
  }

  /** Decimal notation of a natural number, as Number.prototype.toString writes it. */
  function DecimalString(n: nat): (r: string)
    ensures 1 <= |r| && AllDigits(r)
    ensures (r[0] == '0') == (n == 0)
    ensures n == 0 ==> |r| == 1
    decreases n
  {
    if n < 10 then [DigitChar(n)] else DecimalString(n / 10) + [DigitChar(n % 10)]
  }

  /** The number a string of decimal digits denotes. */
  function DecimalValue(s: string): nat
    requires AllDigits(s)
    decreases |s|
  {
    if s == [] then 0 else DecimalValue(s[..|s| - 1]) * 10 + (s[|s| - 1] as int - '0' as int)
  }

  /** Reading back the decimal notation of `n` gives `n`. */
  lemma {:induction false} DecimalRoundTrip(n: nat)
    ensures DecimalValue(DecimalString(n)) == n
  {
    if n >= 10 {
      var s := DecimalString(n);
      assert s[..|s| - 1] == DecimalString(n / 10);
      DecimalRoundTrip(n / 10);
    }
  }

  /** `n.toString().padStart(2, '0')` for a number below one hundred. */
  function TwoDigits(n: nat): (r: string)
    requires n < 100
    ensures |r| == 2 && AllDigits(r) && DecimalValue(r) == n
  {
    var r := if n < 10 then "0" + DecimalString(n) else DecimalString(n);
    DecimalRoundTrip(n);
    assert r[..1] == "0" || n >= 10;
    r
  }

  /** A string ending in one separator character and two more splits back into its three parts. */
  lemma SplitLastThree(head: string, separator: char, tail: string)
    requires |tail| == 2
    ensures var r := head + [separator] + tail;
      r[..|r| - 3] == head && r[|r| - 3] == separator && r[|r| - 2..] == tail
  {
  }

  /** A string in which the first character of `sub` never occurs does not contain `sub`. */
  lemma {:induction false} FirstCharAbsent(s: string, sub: string)
    requires |sub| > 0 && forall i | 0 <= i < |s| :: s[i] != sub[0]
    ensures !Contains(s, sub)
    decreases |s|
  {
    assert !StartsWith(s, sub) by {
      if |sub| <= |s| {
        assert s[..|sub|][0] == s[0];
      }
    }
    if s != [] {
      FirstCharAbsent(s[1..], sub);
    }
  }

  /** Array.prototype.join. */
  function JoinWith(items: seq<string>, separator: string): string
  {
    if items == [] then ""
    else if |items| == 1 then items[0]
    else items[0] + separator + JoinWith(items[1..], separator)
  }

  /** The decimal notations of `ids`, joined by ", " (how the services list ids in messages). */
  function JoinIds(ids: seq<nat>): string
  {
    JoinWith(seq(|ids|, i requires 0 <= i < |ids| => DecimalString(ids[i])), ", ")
  }
}
