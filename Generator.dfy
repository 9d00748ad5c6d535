/** `generate`: build the pool from the ticked classes, draw one mandatory
    character per class and the filler from the pool, shuffle, and record the
    result in the history. Every `Math.random()` draw of the component is an
    index supplied by the caller in a `Draws` value. */
module Generator {
  import opened CharClasses
  import opened Shuffle
  import opened History
  import opened Strength

  /** What the password field shows when no class is ticked
      ("choose at least one type of characters"). */
  const Placeholder: string := "Выберите хотя бы один тип символов"

  /** `randomChar`: the character at the drawn index `k`. */
  function RandomChar(str: string, k: nat): (ch: char)
    requires k < |str|
    ensures ch in str
  {
    str[k]
  }

  /** The index each class's mandatory `randomChar` call draws; a draw is
      made only for a ticked class. */
  datatype MandatoryDraws = MandatoryDraws(lower: nat, upper: nat, digit: nat, symbol: nat)

  function Slot(m: MandatoryDraws, k: CharClass): nat
  {
    match k
    case Lower => m.lower
    case Upper => m.upper
    case Digit => m.digit
    case Symbol => m.symbol
  }

  /** The draws of one call of `generate`: the mandatory draws, `filler[k]`
      for the k-th filler character, and `swaps` for the shuffle. */
  datatype Draws = Draws(mandatory: MandatoryDraws, filler: seq<nat>, swaps: seq<nat>)

  function Max(a: int, b: int): int { if a < b then b else a }

  /** How often the filler loop runs: `length - mandatory.length` times, or
      not at all when that is not positive. */
  function FillerCount(o: Options, length: int): nat
  {
    Max(length - Count(o), 0)
  }

  /** Each ticked class's mandatory draw lies within its alphabet. */
  predicate MandatoryFits(o: Options, m: MandatoryDraws)
  {
    (o.useLower ==> m.lower < |LOWER|)
    && (o.useUpper ==> m.upper < |UPPER|)
    && (o.useDigits ==> m.digit < |DIGITS|)
    && (o.useSymbols ==> m.symbol < |SYMBOLS|)
  }

  /** The draws fit when each index lies in range of the string it picks from.
      Nothing is drawn when the pool is empty, so any draws fit then. */
  predicate DrawsFit(o: Options, length: int, d: Draws)
  {
    Pool(o) != [] ==>
      MandatoryFits(o, d.mandatory)
      && |d.filler| == FillerCount(o, length)
      && (forall k :: 0 <= k < |d.filler| ==> d.filler[k] < |Pool(o)|)
      && SwapsFit(FillerCount(o, length) + Count(o), d.swaps)
  }

  /** The mandatory characters, one per ticked class in class order. */
  function Mandatory(o: Options, m: MandatoryDraws): string
    requires MandatoryFits(o, m)
  {
    (if o.useLower then [RandomChar(LOWER, m.lower)] else [])
    + (if o.useUpper then [RandomChar(UPPER, m.upper)] else [])
    + (if o.useDigits then [RandomChar(DIGITS, m.digit)] else [])
    + (if o.useSymbols then [RandomChar(SYMBOLS, m.symbol)] else [])
  }

  /** The filler characters drawn from the pool. */
  function Filler(pool: string, fs: seq<nat>): (f: string)
    requires forall k :: 0 <= k < |fs| ==> fs[k] < |pool|
    ensures |f| == |fs|
  {
    seq(|fs|, k requires 0 <= k < |fs| => RandomChar(pool, fs[k]))
  }

  /** Every character of `s` lies in `pool`. */
  predicate AllIn(s: string, pool: string)
  {
    forall i :: 0 <= i < |s| ==> s[i] in pool
  }

  /** Some character of `s` lies in `alphabet`. */
  predicate Has(s: string, alphabet: string)
  {
    exists i :: 0 <= i < |s| && s[i] in alphabet
  }

  /** The filler draws only from the pool. */
  lemma FillerInPool(pool: string, fs: seq<nat>)
    requires forall k :: 0 <= k < |fs| ==> fs[k] < |pool|
    ensures AllIn(Filler(pool, fs), pool)
  {
    var f := Filler(pool, fs);
    forall i | 0 <= i < |f| ensures f[i] in pool {
      assert f[i] == RandomChar(pool, fs[i]);
    }
  }

  /** There is one mandatory character per ticked class, the k-th from the
      alphabet of the k-th ticked class; so they all lie in the pool and
      every ticked class has one. */
  lemma MandatoryProperties(o: Options, m: MandatoryDraws)
    requires MandatoryFits(o, m)
    ensures |Mandatory(o, m)| == Count(o)
    ensures forall i :: 0 <= i < Count(o) ==> Mandatory(o, m)[i] in Alphabet(Selected(o)[i])
    ensures AllIn(Mandatory(o, m), Pool(o))
    ensures forall k: CharClass :: Flag(o, k) ==> Has(Mandatory(o, m), Alphabet(k))
  {
    var mand := Mandatory(o, m);
    var sel := Selected(o);
    assert |mand| == |sel|;
    // split on which class sits at position i: a ticked Lower is first, a
    // ticked Upper follows it, and the solver settles the remaining positions
    forall i | 0 <= i < |sel| ensures mand[i] in Alphabet(sel[i]) {
      if o.useLower && i == 0 {
        assert sel[0] == Lower && mand[0] == RandomChar(LOWER, m.lower);
      } else if o.useLower && o.useUpper && i == 1 {
        assert sel[1] == Upper && mand[1] == RandomChar(UPPER, m.upper);
      } else {
      }
    }
    SelectedExactly(o);
    forall i | 0 <= i < |mand| ensures mand[i] in Pool(o) {
      PoolMembers(o, mand[i]);
      assert Flag(o, sel[i]);
    }
    forall k: CharClass | Flag(o, k) ensures Has(mand, Alphabet(k)) {
      var i :| 0 <= i < |sel| && sel[i] == k;
      assert mand[i] in Alphabet(k);
    }
  }

  /** Appending keeps drawing from the pool and keeps a character of each
      alphabet already present. */
  lemma AppendProperties(a: string, b: string, pool: string)
    ensures AllIn(a, pool) && AllIn(b, pool) ==> AllIn(a + b, pool)
    ensures forall alphabet :: Has(b, alphabet) ==> Has(a + b, alphabet)
  {
    forall alphabet | Has(b, alphabet) ensures Has(a + b, alphabet) {
      var i :| 0 <= i < |b| && b[i] in alphabet;
      assert (a + b)[|a| + i] == b[i];
    }
  }

  /** A rearrangement keeps drawing from the pool and keeps a character of
      each alphabet present. */
  lemma PermutationProperties(s: string, t: string, pool: string)
    requires multiset(s) == multiset(t)
    ensures AllIn(s, pool) ==> AllIn(t, pool)
    ensures forall alphabet :: Has(s, alphabet) ==> Has(t, alphabet)
  {
    if AllIn(s, pool) {
      forall i | 0 <= i < |t| ensures t[i] in pool {
        assert t[i] in multiset(s);
        var j :| 0 <= j < |s| && s[j] == t[i];
      }
    }
    forall alphabet | Has(s, alphabet) ensures Has(t, alphabet) {
      var i :| 0 <= i < |s| && s[i] in alphabet;
      assert s[i] in multiset(t);
      var j :| 0 <= j < |t| && t[j] == s[i];
    }
  }

  /** For a string drawn from the pool that has a character of every ticked
      class, each class test of the scorer passes exactly when its class is
      ticked. */
  lemma ClassTestsMatchFlags(o: Options, pw: string)
    requires AllIn(pw, Pool(o))
    requires forall k: CharClass :: Flag(o, k) ==> Has(pw, Alphabet(k))
    ensures HasLower(pw) <==> o.useLower
    ensures HasUpper(pw) <==> o.useUpper
    ensures HasDigit(pw) <==> o.useDigits
    ensures HasOther(pw) <==> o.useSymbols
  {
    // every character of the pool lies in a ticked alphabet
    forall i | 0 <= i < |pw|
      ensures (o.useLower && IsLower(pw[i])) || (o.useUpper && IsUpper(pw[i]))
           || (o.useDigits && IsDigit(pw[i])) || (o.useSymbols && !IsAlnum(pw[i]))
    {
      PoolMembers(o, pw[i]);
      var k: CharClass :| Flag(o, k) && pw[i] in Alphabet(k);
      LowerMatchesTest(pw[i]);
      UpperMatchesTest(pw[i]);
      DigitsMatchTest(pw[i]);
      SymbolsAreNotAlnum(pw[i]);
    }
    // every ticked class is present
    if o.useLower {
      assert Flag(o, Lower);
      var i :| 0 <= i < |pw| && pw[i] in LOWER;
      LowerMatchesTest(pw[i]);
    }
    if o.useUpper {
      assert Flag(o, Upper);
      var i :| 0 <= i < |pw| && pw[i] in UPPER;
      UpperMatchesTest(pw[i]);
    }
    if o.useDigits {
      assert Flag(o, Digit);
      var i :| 0 <= i < |pw| && pw[i] in DIGITS;
      DigitsMatchTest(pw[i]);
    }
    if o.useSymbols {
      assert Flag(o, Symbol);
      var i :| 0 <= i < |pw| && pw[i] in SYMBOLS;
      SymbolsAreNotAlnum(pw[i]);
    }
  }

  /** The strength of a successful generation depends only on its length and
      on which classes were ticked: the length points plus one point per
      ticked class. */
  lemma GeneratedStrength(o: Options, pw: string)
    requires pw != []
    requires AllIn(pw, Pool(o))
    requires forall k: CharClass :: Flag(o, k) ==> Has(pw, Alphabet(k))
    ensures StrengthScore(pw) == LengthPoints(|pw|) + Count(o)
  {
    ClassTestsMatchFlags(o, pw);
  }

  /** The placeholder is no password the generator can return: its first
      letter lies in no pool. */
  lemma PlaceholderOutsidePools(o: Options)
    ensures Placeholder[0] !in Pool(o)
  {
    PoolMembers(o, Placeholder[0]);
    LowerMatchesTest(Placeholder[0]);
    UpperMatchesTest(Placeholder[0]);
    DigitsMatchTest(Placeholder[0]);
    assert Placeholder[0] !in SYMBOLS;
  }

  /** The placeholder is rated "good": two length points and one for its
      non-alphanumeric characters, as none of its characters is an ASCII
      letter or digit. */
  lemma PlaceholderRating()
    ensures StrengthScore(Placeholder) == 3 && StrengthLabel(Placeholder) == Labels[3]
  {
    assert forall i :: 0 <= i < |Placeholder| ==> Placeholder[i] == ' ' || Placeholder[i] > 'z';
    assert !IsAlnum(Placeholder[0]);
  }

  /** Before the shuffle, the filler followed by the mandatory characters
      has `max(length, #classes)` characters, draws only from the pool and
      has a character of every ticked class. */
  lemma UnshuffledProperties(o: Options, length: int, d: Draws)
    requires DrawsFit(o, length, d) && Pool(o) != []
    ensures var u := Filler(Pool(o), d.filler) + Mandatory(o, d.mandatory);
      |u| == Max(length, Count(o))
      && AllIn(u, Pool(o))
      && (forall k: CharClass :: Flag(o, k) ==> Has(u, Alphabet(k)))
  {
    var filler := Filler(Pool(o), d.filler);
    var mandatory := Mandatory(o, d.mandatory);
    FillerInPool(Pool(o), d.filler);
    MandatoryProperties(o, d.mandatory);
    AppendProperties(filler, mandatory, Pool(o));
  }

  /** What a successful generation promises, stated of the shuffle of the
      filler followed by the mandatory characters: its length is
      `max(length, #classes)`, it draws only from the pool, it has a
      character of every ticked class, and its strength is the length points
      plus one per ticked class. */
  lemma GenerationCorrect(o: Options, length: int, d: Draws)
    requires DrawsFit(o, length, d) && Pool(o) != []
    ensures var pw := FisherYates(Filler(Pool(o), d.filler) + Mandatory(o, d.mandatory), d.swaps);
      |pw| == Max(length, Count(o))
      && AllIn(pw, Pool(o))
      && (forall k: CharClass :: Flag(o, k) ==> Has(pw, Alphabet(k)))
      && StrengthScore(pw) == LengthPoints(|pw|) + Count(o)
  {
    var unshuffled := Filler(Pool(o), d.filler) + Mandatory(o, d.mandatory);
    UnshuffledProperties(o, length, d);
    var pw := FisherYates(unshuffled, d.swaps);
    FisherYatesPermutes(unshuffled, d.swaps);
    PermutationProperties(unshuffled, pw, Pool(o));
    PoolEmptyIff(o);
    GeneratedStrength(o, pw);
  }

  /** Lines 48-52: concatenate the alphabets of the ticked classes. */
  method BuildPool(o: Options) returns (pool: string)
    ensures pool == Pool(o)
  {
    var l := if o.useLower then LOWER else "";
    var u := if o.useUpper then UPPER else "";
    var g := if o.useDigits then DIGITS else "";
    var y := if o.useSymbols then SYMBOLS else "";
    pool := "";
    if o.useLower { pool := pool + LOWER; }
    assert pool == l;
    if o.useUpper { pool := pool + UPPER; }
    assert pool == l + u;
    if o.useDigits { pool := pool + DIGITS; }
    assert pool == l + u + g;
    if o.useSymbols { pool := pool + SYMBOLS; }
    assert pool == l + u + g + y;
  }

  /** Lines 59-63: push one character of each ticked alphabet, in class
      order. */
  method DrawMandatory(o: Options, m: MandatoryDraws) returns (mandatory: string)
    requires MandatoryFits(o, m)
    ensures mandatory == Mandatory(o, m)
  {
    mandatory := [];
    if o.useLower { mandatory := mandatory + [RandomChar(LOWER, m.lower)]; }
    if o.useUpper { mandatory := mandatory + [RandomChar(UPPER, m.upper)]; }
    if o.useDigits { mandatory := mandatory + [RandomChar(DIGITS, m.digit)]; }
    if o.useSymbols { mandatory := mandatory + [RandomChar(SYMBOLS, m.symbol)]; }
  }

  /** Lines 65-68: append `count` characters drawn from the pool, or none
      when `count` is not positive. */
  method DrawFiller(pool: string, count: int, fs: seq<nat>) returns (result: string)
    requires |fs| == Max(count, 0)
    requires forall k :: 0 <= k < |fs| ==> fs[k] < |pool|
    ensures result == Filler(pool, fs)
  {
    result := "";
    var i := 0;
    while i < count
      invariant 0 <= i <= |fs|
      invariant result == Filler(pool, fs[..i])
    {
      result := result + [RandomChar(pool, fs[i])];
      i := i + 1;
    }
    assert fs[..i] == fs;
  }

  /** `generate`. On an empty pool the field shows the placeholder and the
      history is untouched. Otherwise the password is the shuffle of the
      filler followed by the mandatory characters; it has `length`
      characters (the number of ticked classes if that is larger), draws
      only from the pool, has a character of every ticked class, and is
      prepended to the in-memory history. */
  method Generate(o: Options, length: int, d: Draws, now: string, history: seq<Entry>)
    returns (password: string, newHistory: seq<Entry>)
    requires DrawsFit(o, length, d)
    ensures Pool(o) == [] <==> password == Placeholder
    ensures Pool(o) == [] ==> newHistory == history
    ensures Pool(o) != [] ==>
      password == FisherYates(Filler(Pool(o), d.filler) + Mandatory(o, d.mandatory), d.swaps)
    ensures Pool(o) != [] ==> |password| == Max(length, Count(o))
    ensures Pool(o) != [] ==> AllIn(password, Pool(o))
    ensures Pool(o) != [] ==> forall k: CharClass :: Flag(o, k) ==> Has(password, Alphabet(k))
    ensures Pool(o) != [] ==> StrengthScore(password) == LengthPoints(|password|) + Count(o)
    ensures Pool(o) != [] ==> newHistory == Prepend(Entry(password, now), history)
  {
    var pool := BuildPool(o);
    if pool == "" {
      password := Placeholder;
      newHistory := history;
      return;
    }

    var mandatory := DrawMandatory(o, d.mandatory);
    MandatoryProperties(o, d.mandatory);
    var result := DrawFiller(pool, length - |mandatory|, d.filler);
    result := result + mandatory;
    result := ShuffleString(result, d.swaps);

    password := result;
    newHistory := Prepend(Entry(result, now), history);

    GenerationCorrect(o, length, d);
    PlaceholderOutsidePools(o);
    PoolEmptyIff(o);
    assert password[0] in Pool(o);
  }

  /** The pool of letters and digits only holds alphanumeric characters. */
  lemma PoolWithoutSymbols(o: Options)
    requires !o.useSymbols
    ensures forall i :: 0 <= i < |Pool(o)| ==> IsAlnum(Pool(o)[i])
  {
    forall i | 0 <= i < |Pool(o)| ensures IsAlnum(Pool(o)[i]) {
      var ch := Pool(o)[i];
      PoolMembers(o, ch);
      LowerMatchesTest(ch);
      UpperMatchesTest(ch);
      DigitsMatchTest(ch);
    }
  }

  /** Twelve characters with lower case, upper case and digits ticked: the
      password has exactly 12 alphanumeric characters, among them a lower-case
      letter, an upper-case letter and a digit, and it is the newest history
      entry. */
  method GenerateTwelveAlphanumeric(d: Draws, now: string, history: seq<Entry>)
    returns (password: string, newHistory: seq<Entry>)
    requires DrawsFit(Options(true, true, true, false), 12, d)
    ensures |password| == 12
    ensures forall i :: 0 <= i < |password| ==> IsAlnum(password[i])
    ensures HasLower(password) && HasUpper(password) && HasDigit(password)
    ensures newHistory == [Entry(password, now)] + history
  {
    var o := Options(true, true, true, false);
    password, newHistory := Generate(o, 12, d, now, history);
    PoolWithoutSymbols(o);
    ClassTestsMatchFlags(o, password);
  }
}
