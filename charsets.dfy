/**
 * The fixed character tables behind every parser predicate
 * (src/utils/CharSets.ts). Each table is a constant set used only for
 * membership tests.
 */
module CharSets {

  /** `UPPERCASE_ALPHABETS`, as the range 'A'..'Z' (see `UppercaseIsAToZ`). */
  const Uppercase: set<char> := set c: char | 'A' <= c <= 'Z'

  /** `LOWERCASE_ALPHABETS`, as the range 'a'..'z' (see `LowercaseIsAToZ`). */
  const Lowercase: set<char> := set c: char | 'a' <= c <= 'z'

  /** `DECIMAL_DIGITS`, as the range '0'..'9' (see `DecimalDigitsAreZeroToNine`). */
  const DecimalDigits: set<char> := set c: char | '0' <= c <= '9'

  /** `SPACES`: the 25 whitespace code points the table lists. */
  const Spaces: set<char> := {
    '\U{000C}', '\U{000A}', '\U{000D}', '\U{0009}', '\U{000B}', '\U{00A0}', '\U{1680}',
    '\U{2000}', '\U{2001}', '\U{2002}', '\U{2003}', '\U{2004}', '\U{2005}', '\U{2006}',
    '\U{2007}', '\U{2008}', '\U{2009}', '\U{200A}', '\U{2028}', '\U{2029}', '\U{202F}',
    '\U{205F}', '\U{3000}', '\U{FEFF}', '\U{0020}'
  }

  /** The range is exactly the characters of the table's literal string. */
  lemma UppercaseIsAToZ()
    ensures forall c: char :: c in Uppercase <==> 'A' <= c <= 'Z'
    ensures Uppercase == set c | c in "ABCDEFGHIJKLMNOPQRSTUVWXYZ"
  {
    var literal := "ABCDEFGHIJKLMNOPQRSTUVWXYZ";
    forall c: char | 'A' <= c <= 'Z'
      ensures c in literal
    {
      assert literal[c as int - 'A' as int] == c;
    }
  }

  /** The range is exactly the characters of the table's literal string. */
  lemma LowercaseIsAToZ()
    ensures forall c: char :: c in Lowercase <==> 'a' <= c <= 'z'
    ensures Lowercase == set c | c in "abcdefghijklmnopqrstuvwxyz"
  {
    var literal := "abcdefghijklmnopqrstuvwxyz";
    forall c: char | 'a' <= c <= 'z'
      ensures c in literal
    {
      assert literal[c as int - 'a' as int] == c;
    }
  }

  /** The range is exactly the characters of the table's literal string. */
  lemma DecimalDigitsAreZeroToNine()
    ensures forall c: char :: c in DecimalDigits <==> '0' <= c <= '9'
    ensures DecimalDigits == set c | c in "0123456789"
  {
    var literal := "0123456789";
    forall c: char | '0' <= c <= '9'
      ensures c in literal
    {
      assert literal[c as int - '0' as int] == c;
    }
  }

  lemma SpacesAreTheListedCodePoints()
    ensures forall c: char :: c in Spaces <==>
      c == ' ' || '\U{0009}' <= c <= '\U{000D}' || c == '\U{00A0}' || c == '\U{1680}'
      || '\U{2000}' <= c <= '\U{200A}' || c == '\U{2028}' || c == '\U{2029}'
      || c == '\U{202F}' || c == '\U{205F}' || c == '\U{3000}' || c == '\U{FEFF}'
  {
  }

  lemma TablesAreDisjoint()
    ensures Uppercase !! DecimalDigits && Uppercase !! Spaces && DecimalDigits !! Spaces
  {
    UppercaseIsAToZ();
    DecimalDigitsAreZeroToNine();
    SpacesAreTheListedCodePoints();
  }

  lemma DelimitersAreInNoTable()
    ensures forall c :: c in "-#()\"\\" ==> c !in Uppercase && c !in DecimalDigits && c !in Spaces
  {
    UppercaseIsAToZ();
    DecimalDigitsAreZeroToNine();
    SpacesAreTheListedCodePoints();
  }
}
