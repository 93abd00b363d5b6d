/** The character classes the link patterns use, read as ASCII. */
module Chars {

  predicate IsDigit(c: char) { '0' <= c <= '9' }

  predicate IsWordChar(c: char)
  {
    'a' <= c <= 'z' || 'A' <= c <= 'Z' || IsDigit(c) || c == '_'
  }

  /** The class `[\w\.-]` allowed in a user handle. */
  predicate IsHandleChar(c: char) { IsWordChar(c) || c == '.' || c == '-' }

  datatype CharClass = Digits | Word | HandleChars

  predicate InClass(k: CharClass, c: char)
  {
    match k
    case Digits => IsDigit(c)
    case Word => IsWordChar(c)
    case HandleChars => IsHandleChar(c)
  }

  /** Every character of `w` is of class `k`. */
  predicate AllIn(k: CharClass, w: string)
  {
    forall p :: 0 <= p < |w| ==> InClass(k, w[p])
  }

  /** A slice is all of class `k` exactly when each of its positions is. */
  lemma AllInSlice(s: string, i: nat, j: nat, k: CharClass)
    requires i <= j <= |s|
    ensures AllIn(k, s[i..j]) <==> forall p :: i <= p < j ==> InClass(k, s[p])
  {
    if AllIn(k, s[i..j]) {
      forall p | i <= p < j ensures InClass(k, s[p]) {
        assert s[i..j][p - i] == s[p];
      }
    }
  }
}
