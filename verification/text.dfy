/** String comparisons the adapter relies on: Python's ordering of `str`
    values (code point by code point, a proper prefix first) and the
    case-insensitive test for the word "null". */
module Text {

  /** Python's `a < b` on strings. */
  predicate StrLt(a: string, b: string)
  {
    if a == [] then b != []
    else if b == [] then false
    else if a[0] != b[0] then a[0] < b[0]
    else StrLt(a[1..], b[1..])
  }

  lemma {:induction false} StrLtIrreflexive(a: string)
    ensures !StrLt(a, a)
  {
    if a != [] {
      StrLtIrreflexive(a[1..]);
    }
  }

  lemma {:induction false} StrLtAsymmetric(a: string, b: string)
    requires StrLt(a, b)
    ensures !StrLt(b, a)
  {
    if a != [] && b != [] && a[0] == b[0] {
      StrLtAsymmetric(a[1..], b[1..]);
    }
  }

  /** Any two strings are equal or ordered one way. */
  lemma {:induction false} StrLtTotal(a: string, b: string)
    ensures a == b || StrLt(a, b) || StrLt(b, a)
  {
    if a != [] && b != [] && a[0] == b[0] {
      StrLtTotal(a[1..], b[1..]);
      if a[1..] == b[1..] {
        assert a == [a[0]] + a[1..] && b == [b[0]] + b[1..];
      }
    }
  }

  /** "Not greater" is transitive: `b >= a` and `c >= b` give `c >= a`. */
  lemma {:induction false} StrNotLtTransitive(a: string, b: string, c: string)
    requires !StrLt(b, a) && !StrLt(c, b)
    ensures !StrLt(c, a)
  {
    if a != [] && b != [] && c != [] && a[0] == b[0] && b[0] == c[0] {
      StrNotLtTransitive(a[1..], b[1..], c[1..]);
    }
  }

  /** `str.lower()` on one character, for the letters that can spell "null". */
  function LowerAscii(c: char): char
  {
    if 'A' <= c <= 'Z' then (c as int + 32) as char else c
  }

  /** `s.lower() == "null"`. Python's full lower-casing agrees with the
      ASCII one here: no other character lower-cases to 'n', 'u' or 'l'. */
  predicate IsNullWord(s: string)
  {
    |s| == 4 && forall i :: 0 <= i < 4 ==> LowerAscii(s[i]) == "null"[i]
  }

  /** The strings taken for "null" are exactly its sixteen spellings in
      upper and lower case. */
  lemma NullWordSpellings(s: string)
    ensures IsNullWord(s) <==>
      |s| == 4 && s[0] in {'n', 'N'} && s[1] in {'u', 'U'} && s[2] in {'l', 'L'} && s[3] in {'l', 'L'}
  {
    if |s| == 4 {
      assert LowerAscii(s[0]) == 'n' <==> s[0] in {'n', 'N'};
      assert LowerAscii(s[1]) == 'u' <==> s[1] in {'u', 'U'};
      assert LowerAscii(s[2]) == 'l' <==> s[2] in {'l', 'L'};
      assert LowerAscii(s[3]) == 'l' <==> s[3] in {'l', 'L'};
    }
  }
}
