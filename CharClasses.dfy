/** The four character classes of the password generator, their fixed
    alphabets, the class tests used by the strength scorer, and the pool
    that the selected classes make up. */
module CharClasses {

  const LOWER: string := "abcdefghijklmnopqrstuvwxyz"
  const UPPER: string := "ABCDEFGHIJKLMNOPQRSTUVWXYZ"
  const DIGITS: string := "0123456789"
  const SYMBOLS: string := "!@#$%^&*()-_=+[]{};:,.<>/?"

  datatype CharClass = Lower | Upper | Digit | Symbol

  /** The alphabet a class draws from. */
  function Alphabet(k: CharClass): (a: string)
    ensures |a| > 0
  {
    match k
    case Lower => LOWER
    case Upper => UPPER
    case Digit => DIGITS
    case Symbol => SYMBOLS
  }

  /** The character tests `[a-z]`, `[A-Z]` and `[0-9]` over ASCII ranges. */
  predicate IsLower(ch: char) { 'a' <= ch <= 'z' }
  predicate IsUpper(ch: char) { 'A' <= ch <= 'Z' }
  predicate IsDigit(ch: char) { '0' <= ch <= '9' }
  predicate IsAlnum(ch: char) { IsLower(ch) || IsUpper(ch) || IsDigit(ch) }

  /** Each letter and digit alphabet holds exactly the characters its
      range test accepts. */
  lemma LowerMatchesTest(ch: char)
    ensures ch in LOWER <==> IsLower(ch)
  {
  }

  lemma UpperMatchesTest(ch: char)
    ensures ch in UPPER <==> IsUpper(ch)
  {
  }

  lemma DigitsMatchTest(ch: char)
    ensures ch in DIGITS <==> IsDigit(ch)
  {
  }

  /** No symbol is a letter or a digit, so every symbol passes the
      `[^A-Za-z0-9]` test. */
  lemma SymbolsAreNotAlnum(ch: char)
    ensures ch in SYMBOLS ==> !IsAlnum(ch)
  {
  }

  /** The four check boxes of the form. */
  datatype Options = Options(useLower: bool, useUpper: bool, useDigits: bool, useSymbols: bool)

  function Flag(o: Options, k: CharClass): bool
  {
    match k
    case Lower => o.useLower
    case Upper => o.useUpper
    case Digit => o.useDigits
    case Symbol => o.useSymbols
  }

  /** The selected classes in the fixed order Lower, Upper, Digit, Symbol:
      the order in which the pool is built and the mandatory characters are
      drawn. */
  function Selected(o: Options): (r: seq<CharClass>)
  {
    (if o.useLower then [Lower] else [])
    + (if o.useUpper then [Upper] else [])
    + (if o.useDigits then [Digit] else [])
    + (if o.useSymbols then [Symbol] else [])
  }

  /** The number of selected classes, which is the number of mandatory
      characters. */
  function Count(o: Options): (n: nat)
    ensures n <= 4
    ensures n == 0 <==> !o.useLower && !o.useUpper && !o.useDigits && !o.useSymbols
  {
    |Selected(o)|
  }

  /** The pool: the alphabets of the selected classes, concatenated in class
      order. */
  function Pool(o: Options): string
  {
    (if o.useLower then LOWER else "")
    + (if o.useUpper then UPPER else "")
    + (if o.useDigits then DIGITS else "")
    + (if o.useSymbols then SYMBOLS else "")
  }

  /** `Selected` lists a class exactly when its box is ticked, and lists each
      class once, in class order. */
  lemma {:induction false} SelectedExactly(o: Options)
    ensures forall k: CharClass :: k in Selected(o) <==> Flag(o, k)
    ensures forall i, j :: 0 <= i < j < |Selected(o)| ==> Selected(o)[i] != Selected(o)[j]
  {
  }

  /** The pool is empty exactly when no class is selected. */
  lemma PoolEmptyIff(o: Options)
    ensures Pool(o) == [] <==> Count(o) == 0
    ensures Pool(o) == [] <==> !o.useLower && !o.useUpper && !o.useDigits && !o.useSymbols
  {
  }

  /** A character lies in the pool exactly when it lies in the alphabet of a
      selected class. */
  lemma PoolMembers(o: Options, ch: char)
    ensures ch in Pool(o) <==> exists k: CharClass :: Flag(o, k) && ch in Alphabet(k)
  {
    var l := if o.useLower then LOWER else "";
    var u := if o.useUpper then UPPER else "";
    var d := if o.useDigits then DIGITS else "";
    var s := if o.useSymbols then SYMBOLS else "";
    assert Pool(o) == l + u + d + s;
    if ch in Pool(o) {
      if ch in l { assert Flag(o, Lower) && ch in Alphabet(Lower); }
      else if ch in u { assert Flag(o, Upper) && ch in Alphabet(Upper); }
      else if ch in d { assert Flag(o, Digit) && ch in Alphabet(Digit); }
      else { assert Flag(o, Symbol) && ch in Alphabet(Symbol); }
    }
  }

  /** The size of the pool is the sum of the sizes of the selected alphabets. */
  lemma PoolSize(o: Options)
    ensures |Pool(o)| == (if o.useLower then 26 else 0) + (if o.useUpper then 26 else 0)
                         + (if o.useDigits then 10 else 0) + (if o.useSymbols then 26 else 0)
  {
  }
}
