/** Text comparisons the queries use: `LIKE '%x%'` and `ORDER BY` on a text
    column. Collation and case folding are not modelled: characters compare by
    code point. */
module Textos {

  /** `sub` occurs in `s` starting at position `i`. */
  predicate OcorreEm(sub: string, s: string, i: int)
  {
    0 <= i && i + |sub| <= |s| && s[i..i + |sub|] == sub
  }

  /** `s LIKE '%' + sub + '%'`, with `%` and `_` in `sub` read literally. */
  function Contem(s: string, sub: string): (r: bool)
    ensures r <==> exists i :: OcorreEm(sub, s, i)
  {
    if |sub| <= |s| && s[..|sub|] == sub then
      assert OcorreEm(sub, s, 0);
      true
    else if s == [] then
      false
    else
      var r := Contem(s[1..], sub);
      assert forall i :: OcorreEm(sub, s[1..], i) ==> OcorreEm(sub, s, i + 1) by {
        forall i | OcorreEm(sub, s[1..], i) ensures OcorreEm(sub, s, i + 1) {
          assert s[i + 1..i + 1 + |sub|] == s[1..][i..i + |sub|];
        }
      }
      assert forall i :: OcorreEm(sub, s, i) ==> i == 0 || OcorreEm(sub, s[1..], i - 1) by {
        forall i | OcorreEm(sub, s, i) && i != 0 ensures OcorreEm(sub, s[1..], i - 1) {
          assert s[i..i + |sub|] == s[1..][i - 1..i - 1 + |sub|];
        }
      }
      r
  }

  /** The empty pattern `'%%'` matches every text. */
  lemma ContemVazio(s: string)
    ensures Contem(s, "")
  {
    assert OcorreEm("", s, 0);
  }

  /** Lexicographic order by code point, a prefix first. */
  predicate LexMenorIgual(a: string, b: string)
  {
    if a == [] then true
    else if b == [] then false
    else if a[0] != b[0] then a[0] < b[0]
    else LexMenorIgual(a[1..], b[1..])
  }

  lemma {:induction false} LexTotal(a: string, b: string)
    ensures LexMenorIgual(a, b) || LexMenorIgual(b, a)
  {
    if a != [] && b != [] && a[0] == b[0] {
      LexTotal(a[1..], b[1..]);
    }
  }

  lemma {:induction false} LexTransitiva(a: string, b: string, c: string)
    requires LexMenorIgual(a, b) && LexMenorIgual(b, c)
    ensures LexMenorIgual(a, c)
  {
    if a != [] && b != [] && c != [] && a[0] == b[0] && b[0] == c[0] {
      LexTransitiva(a[1..], b[1..], c[1..]);
    }
  }
}
