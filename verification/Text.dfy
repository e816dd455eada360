/** Texts compared without regard to the case of their ASCII letters. */
module Text {

  function Upper(s: string): string
  {
    seq(|s|, i requires 0 <= i < |s| =>
      if 'a' <= s[i] <= 'z' then (s[i] as int - 'a' as int + 'A' as int) as char else s[i])
  }

  function Lower(s: string): string
  {
    seq(|s|, i requires 0 <= i < |s| =>
      if 'A' <= s[i] <= 'Z' then (s[i] as int - 'A' as int + 'a' as int) as char else s[i])
  }

  /** Two characters alike but for the case of a letter. */
  predicate SameLetter(c: char, d: char)
  {
    || c == d
    || ('a' <= c <= 'z' && 'A' <= d <= 'Z' && c as int - d as int == 32)
    || ('A' <= c <= 'Z' && 'a' <= d <= 'z' && d as int - c as int == 32)
  }

  /** Two texts alike but for the case of their letters. */
  ghost predicate SameText(a: string, b: string)
  {
    |a| == |b| && forall i :: 0 <= i < |a| ==> SameLetter(a[i], b[i])
  }

  lemma UpperCompares(a: string, b: string)
    ensures Upper(a) == Upper(b) <==> SameText(a, b)
  {
    assert |Upper(a)| == |a| && |Upper(b)| == |b|;
    forall i | 0 <= i < |a| && |a| == |b| ensures Upper(a)[i] == Upper(b)[i] <==> SameLetter(a[i], b[i]) {
    }
    if SameText(a, b) {
      assert forall i :: 0 <= i < |a| ==> Upper(a)[i] == Upper(b)[i];
    }
    if Upper(a) == Upper(b) {
      assert forall i :: 0 <= i < |a| ==> Upper(a)[i] == Upper(b)[i];
    }
  }

  lemma LowerCompares(a: string, b: string)
    ensures Lower(a) == Lower(b) <==> SameText(a, b)
  {
    assert |Lower(a)| == |a| && |Lower(b)| == |b|;
    forall i | 0 <= i < |a| && |a| == |b| ensures Lower(a)[i] == Lower(b)[i] <==> SameLetter(a[i], b[i]) {
    }
    if SameText(a, b) {
      assert forall i :: 0 <= i < |a| ==> Lower(a)[i] == Lower(b)[i];
    }
    if Lower(a) == Lower(b) {
      assert forall i :: 0 <= i < |a| ==> Lower(a)[i] == Lower(b)[i];
    }
  }
}
