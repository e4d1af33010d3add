/** The JavaScript string operations the source relies on, over `seq<char>`:
    `includes`, `indexOf`, `replace` with a string pattern (first occurrence
    only), `toLowerCase`, `join` and `String(n)` for integers. */
module Strings {
  import opened Wrappers

  /** `s.includes(sub)`. */
  predicate Includes(s: string, sub: string)
    decreases |s|
  {
    sub <= s || (s != [] && Includes(s[1..], sub))
  }

  /** `s.indexOf(sub)`, with -1 as None: the first position where `sub` occurs. */
  function IndexOf(s: string, sub: string): (r: Option<nat>)
    decreases |s|
    ensures r.Some? <==> Includes(s, sub)
    ensures r.Some? ==> r.value + |sub| <= |s| && s[r.value..r.value + |sub|] == sub
    ensures r.Some? ==> forall j :: 0 <= j < r.value ==> !(sub <= s[j..])
  {
    if sub <= s then Some(0)
    else if s == [] then None
    else
      match IndexOf(s[1..], sub)
      case None => None
      case Some(i) =>
        assert forall j :: 1 <= j <= i ==> s[1..][j - 1..] == s[j..];
        Some(i + 1)
  }

  /** `s.replace(pat, rep)` with a string pattern: only the first occurrence is replaced. */
  function Replace(s: string, pat: string, rep: string): (r: string)
    ensures !Includes(s, pat) ==> r == s
    ensures Includes(s, pat) ==> |r| == |s| - |pat| + |rep|
    ensures Includes(s, pat) ==> Includes(r, rep)
  {
    match IndexOf(s, pat)
    case None => s
    case Some(i) =>
      IncludesMiddle(s[..i], rep, s[i + |pat|..]);
      s[..i] + rep + s[i + |pat|..]
  }

  /** Whatever stands in the middle of a concatenation is included in it. */
  lemma {:induction false} IncludesMiddle(a: string, b: string, c: string)
    ensures Includes(a + b + c, b)
  {
    if a == [] {
      assert a + b + c == b + c;
      assert b <= b + c;
    } else {
      assert (a + b + c)[1..] == a[1..] + b + c;
      IncludesMiddle(a[1..], b, c);
    }
  }

  /** What includes `a + b` includes `b`. */
  lemma {:induction false} IncludesSuffix(s: string, a: string, b: string)
    requires Includes(s, a + b)
    ensures Includes(s, b)
    decreases |s|
  {
    if a + b <= s {
      assert s == a + b + s[|a + b|..];
      IncludesMiddle(a, b, s[|a + b|..]);
    } else {
      IncludesSuffix(s[1..], a, b);
    }
  }

  function LowerChar(c: char): char
  {
    if 'A' <= c <= 'Z' then (c as int - 'A' as int + 'a' as int) as char else c
  }

  /** `s.toLowerCase()`, for the ASCII letters. */
  function Lower(s: string): (r: string)
    ensures |r| == |s|
  {
    seq(|s|, i requires 0 <= i < |s| => LowerChar(s[i]))
  }

  /** `s.toLowerCase().includes(sub.toLowerCase())`. */
  predicate IncludesIgnoringCase(s: string, sub: string)
  {
    Includes(Lower(s), Lower(sub))
  }

  /** `parts.join(sep)`. */
  function Join(parts: seq<string>, sep: string): string
  {
    if |parts| == 0 then ""
    else if |parts| == 1 then parts[0]
    else parts[0] + sep + Join(parts[1..], sep)
  }

  function DigitChar(d: nat): char
    requires d < 10
  {
    ('0' as int + d) as char
  }

  function NatToString(n: nat): string
  {
    if n < 10 then [DigitChar(n)] else NatToString(n / 10) + [DigitChar(n % 10)]
  }

  /** `String(n)` for an integer. */
  function IntToString(n: int): string
  {
    if n < 0 then "-" + NatToString(-n) else NatToString(n)
  }
}
