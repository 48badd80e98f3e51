/** The .NET string operations the service relies on: white-space tests,
    UTF-16 length, substring search and lower-casing. */
module Strings {

  /** `char.IsWhiteSpace`: the Unicode separators and U+0009..U+000D, U+0085. */
  predicate EhEspaco(c: char)
  {
    c == ' ' || ('\t' <= c <= '\r') || c == '\U{85}' || c == '\U{A0}' || c == '\U{1680}'
    || ('\U{2000}' <= c <= '\U{200A}') || c == '\U{2028}' || c == '\U{2029}' || c == '\U{202F}'
    || c == '\U{205F}' || c == '\U{3000}'
  }

  /** `string.IsNullOrWhiteSpace` on a non-null string. */
  predicate EmBranco(s: string)
  {
    forall i :: 0 <= i < |s| ==> EhEspaco(s[i])
  }

  /** `string.Length`: UTF-16 code units, two for a character outside the BMP. */
  function ComprimentoUtf16(s: string): (n: nat)
    ensures |s| <= n <= 2 * |s|
  {
    if s == [] then 0 else (if s[0] as int > 0xFFFF then 2 else 1) + ComprimentoUtf16(s[1..])
  }

  lemma {:induction false} Utf16Concat(a: string, b: string)
    ensures ComprimentoUtf16(a + b) == ComprimentoUtf16(a) + ComprimentoUtf16(b)
  {
    if a != [] {
      assert (a + b)[1..] == a[1..] + b;
      Utf16Concat(a[1..], b);
    } else {
      assert a + b == b;
    }
  }

  /** `sub` occurs in `s` (SQL `LIKE '%sub%'` for a pattern without wildcards). */
  predicate Contem(s: string, sub: string)
  {
    exists i :: 0 <= i <= |s| && OcorreEm(s, sub, i)
  }

  /** `sub` occurs in `s` starting at position `i`. */
  predicate OcorreEm(s: string, sub: string, i: int)
  {
    0 <= i <= |s| - |sub| && s[i..i + |sub|] == sub
  }

  predicate Maiuscula(c: char)
  {
    'A' <= c <= 'Z'
  }

  /** `ToLower` restricted to ASCII letters: no capital is left, and every
      character that is not a capital is kept. */
  function Minusculas(s: string): (r: string)
    ensures |r| == |s|
    ensures forall i :: 0 <= i < |r| ==> !Maiuscula(r[i])
    ensures forall i :: 0 <= i < |s| && !Maiuscula(s[i]) ==> r[i] == s[i]
  {
    seq(|s|, i requires 0 <= i < |s| => if Maiuscula(s[i]) then (s[i] as int + 32) as char else s[i])
  }

  /** Lowering `s` gives the lower-case word `k` exactly when each
      character of `s` is the letter of `k` in either case (`K` being `k`
      in capitals). */
  lemma {:induction false} MinusculasIgualSse(s: string, k: string, K: string)
    requires |K| == |k|
    requires forall i :: 0 <= i < |k| ==> 'a' <= k[i] <= 'z' && K[i] as int == k[i] as int - 32
    ensures Minusculas(s) == k <==> |s| == |k| && forall i :: 0 <= i < |s| ==> s[i] == k[i] || s[i] == K[i]
  {
    var r := Minusculas(s);
    if r == k {
      forall i | 0 <= i < |s| ensures s[i] == k[i] || s[i] == K[i] {
        assert r[i] == if Maiuscula(s[i]) then (s[i] as int + 32) as char else s[i];
      }
    }
    if |s| == |k| && forall i :: 0 <= i < |s| ==> s[i] == k[i] || s[i] == K[i] {
      forall i | 0 <= i < |s| ensures r[i] == k[i] {
        assert r[i] == if Maiuscula(s[i]) then (s[i] as int + 32) as char else s[i];
      }
    }
  }
}
