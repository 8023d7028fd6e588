/** An alphabet: a finite, duplicate-free, ordered set of symbols whose index
    is the digit value, so that the alphabet is a base-N positional numeral
    system, together with the words written in it. */
module Alphabets {
  import opened AlphabetSpec

  /** Raised while building an alphabet: the first symbol found twice, or a
      negative size for the array of a radix alphabet. */
  datatype AlphabetError = DuplicateSymbol(symbol: CodeUnit) | NegativeArraySize(size: int)

  /** Raised while creating a word: the rejected text and every symbol of it
      that is not in the alphabet. */
  datatype WordError = InvalidWord(word: seq<CodeUnit>, offending: seq<CodeUnit>) | NullWord

  /** Raised while turning a number into a word: a digit index outside the
      alphabet. */
  datatype ParseError = IndexOutOfBounds(index: int)

  /** A word: its text together with the alphabet that created it. */
  datatype Word = Word(text: seq<CodeUnit>, alphabet: Alphabet) {
    /** The invariant of a word: every symbol of its text is in its alphabet. */
    ghost predicate Valid() {
      AllIn(alphabet.symbols, text)
    }
  }

  class Alphabet {
    /** The symbols in digit order. */
    const symbols: seq<CodeUnit>
    /** Symbol-to-digit map, for lookup. */
    const alphabetMap: map<CodeUnit, nat>
    const radix: nat

    /** The alphabet invariant: the radix is the number of symbols, no symbol
        repeats, and the map is the one built from the symbols. */
    ghost predicate Valid() {
      && radix == |symbols|
      && Distinct(symbols)
      && alphabetMap == IndexMap(symbols)
    }

    /** Stores the symbols and their map once both have been checked. */
    constructor (symbols: seq<CodeUnit>, alphabetMap: map<CodeUnit, nat>)
      requires Distinct(symbols) && alphabetMap == IndexMap(symbols)
      ensures Valid() && this.symbols == symbols
    {
      this.symbols := symbols;
      this.alphabetMap := alphabetMap;
      this.radix := |symbols|;
    }

    /** Builds an alphabet from a string of symbols, filling the map in one
        pass and failing on the first symbol that was already seen. */
    static method FromString(alpha: seq<CodeUnit>) returns (r: Result<Alphabet, AlphabetError>)
      ensures r.Success? <==> Distinct(alpha)
      ensures r.Success? ==> r.value.Valid() && r.value.symbols == alpha && r.value.radix == |alpha|
      ensures r.Success? ==> forall i :: 0 <= i < |alpha| ==> r.value.alphabetMap[alpha[i]] == i
      ensures r.Failure? ==>
        FirstRepeat(alpha).Some? && r.error == DuplicateSymbol(alpha[FirstRepeat(alpha).value])
    {
      var m: map<CodeUnit, nat> := map[];
      for index := 0 to |alpha|
        invariant m == IndexMap(alpha[..index])
        invariant Distinct(alpha[..index])
        invariant FirstRepeatFrom(alpha, index) == FirstRepeat(alpha)
      {
        var c := alpha[index];
        if c in m {
          ScanRepeat(alpha, index, m);
          return Failure(DuplicateSymbol(c));
        }
        ScanFresh(alpha, index, m);
        m := m[c := index];
      }
      ScanDone(alpha, m);
      var a := new Alphabet(alpha, m);
      return Success(a);
    }

    /** Builds an alphabet from an array of symbols, as from the string they
        spell. */
    static method FromChars(alpha: array<CodeUnit>) returns (r: Result<Alphabet, AlphabetError>)
      ensures r.Success? <==> Distinct(alpha[..])
      ensures r.Success? ==> r.value.Valid() && r.value.symbols == alpha[..]
      ensures r.Failure? ==>
        FirstRepeat(alpha[..]).Some? && r.error == DuplicateSymbol(alpha[FirstRepeat(alpha[..]).value])
    {
      r := FromString(alpha[..]);
    }

    /** Builds the alphabet of code units 0 to radix - 1. A negative radix
        is not an array size; every radix up to 65536 succeeds; a larger one
        wraps around to code unit 0 and fails. */
    static method OfRadix(radix: int) returns (r: Result<Alphabet, AlphabetError>)
      ensures r.Success? <==> 0 <= radix <= 0x1_0000
      ensures r.Success? ==> r.value.Valid() && r.value.radix == radix
      ensures r.Success? ==> forall i :: 0 <= i < radix ==> r.value.symbols[i] as int == i
      ensures radix < 0 ==> r == Failure(NegativeArraySize(radix))
      ensures radix > 0x1_0000 ==> r == Failure(DuplicateSymbol(0))
    {
      if radix < 0 {
        return Failure(NegativeArraySize(radix));
      }
      var chars := FromRadix(radix);
      r := FromChars(chars);
      IdentityAlphabet(radix);
    }

    /** The symbols of the radix alphabet, written into a fresh array: slot i
        holds i cast to a code unit. */
    static method FromRadix(radix: nat) returns (a: array<CodeUnit>)
      ensures a[..] == IdentitySymbols(radix)
    {
      a := new CodeUnit[radix];
      for i := 0 to radix
        invariant forall k :: 0 <= k < i ==> a[k] == (k % 0x1_0000) as CodeUnit
      {
        a[i] := (i % 0x1_0000) as CodeUnit;
      }
    }

    /** Whether every symbol of the word is in the alphabet; an absent word
        is not valid and the empty word is. */
    method Validate(word: Option<seq<CodeUnit>>) returns (ok: bool)
      requires Valid()
      ensures ok <==> word.Some? && AllIn(symbols, word.value)
    {
      if word.None? {
        return false;
      }
      var s := word.value;
      for i := 0 to |s|
        invariant forall k :: 0 <= k < i ==> s[k] in symbols
      {
        if s[i] !in alphabetMap {
          return false;
        }
      }
      return true;
    }

    /** The symbols of the word that are not in the alphabet, in input
        order and with repeats; absent for an absent word. */
    method OffendingCharacters(word: Option<seq<CodeUnit>>) returns (r: Option<seq<CodeUnit>>)
      requires Valid()
      ensures word.None? <==> r.None?
      ensures word.Some? ==> r.value == Offending(symbols, word.value)
    {
      if word.None? {
        return None;
      }
      var s := word.value;
      var result := [];
      for i := 0 to |s|
        invariant result == Offending(symbols, s[..i])
      {
        assert s[..i + 1][..i] == s[..i];
        if s[i] !in alphabetMap {
          result := result + [s[i]];
        }
      }
      assert s[..|s|] == s;
      return Some(result);
    }

    /** Wraps text as a word of this alphabet without checking it: the word
        is well formed only if the text already was. */
    function MakeWord(text: seq<CodeUnit>): (w: Word)
      ensures w.text == text && w.alphabet == this
      ensures w.Valid() <==> AllIn(symbols, text)
    {
      Word(text, this)
    }

    /** A word of this alphabet, created only when the text has no offending
        symbols; otherwise the error lists all of them. An absent text has no
        list of offending symbols to inspect. */
    method CreateWord(word: Option<seq<CodeUnit>>) returns (r: Result<Word, WordError>)
      requires Valid()
      ensures r.Success? <==> word.Some? && AllIn(symbols, word.value)
      ensures r.Success? ==> r.value.text == word.value && r.value.alphabet == this && r.value.Valid()
      ensures word.None? ==> r == Failure(NullWord)
      ensures word.Some? && r.Failure? ==>
        r.error == InvalidWord(word.value, Offending(symbols, word.value)) && r.error.offending != []
    {
      var offendingChars := OffendingCharacters(word);
      if offendingChars.None? {
        return Failure(NullWord);
      }
      OffendingEmpty(symbols, word.value);
      if |offendingChars.value| == 0 {
        return Success(MakeWord(word.value));
      } else {
        return Failure(InvalidWord(word.value, offendingChars.value));
      }
    }

    /** The word for a long: digits are produced least significant first
        and prepended, and the loop runs while the quotient is positive, so
        0 still yields one digit. Division and remainder are Java's, which
        truncate toward zero; the quotient is narrowed to an int, which is
        exact because the first one fits. A negative value stops after one
        step: with a remainder of 0 its word is the zero symbol, otherwise
        the negative remainder is an index outside the alphabet. */
    method ParseLong(value: int) returns (r: Result<Word, ParseError>)
      requires Valid()
      requires -MaxLong - 1 <= value <= MaxLong
      requires radix != 1 || value <= 0
      requires radix > 0 ==> value / radix <= MaxInt
      requires radix > 0 && value % radix == 0 ==> -MaxInt - 1 <= value / radix
      ensures r.Success? ==> r.value.alphabet == this && r.value.Valid()
      ensures 0 <= value ==> r.Success? && r.value.text == Encode(symbols, value)
      ensures radix == 0 ==> r.Success? && r.value.text == []
      ensures value < 0 && radix > 0 ==> (r.Success? <==> value % radix == 0)
      ensures value < 0 && radix > 0 && r.Success? ==> r.value.text == [symbols[0]]
      ensures r.Failure? ==> r.error == IndexOutOfBounds(JavaRem(value, radix))
    {
      var v := value;
      var resDiv: int := radix;
      var res: seq<CodeUnit> := [];
      while resDiv > 0
        invariant ParseInvariant(symbols, value, v, resDiv, res)
        decreases ParseMeasure(v, resDiv)
      {
        ParseStep(symbols, value, v, resDiv, res);
        var resMod := JavaRem(v, radix);
        resDiv := Int32(JavaDiv(v, radix));
        v := resDiv;
        if resMod < 0 {
          return Failure(IndexOutOfBounds(resMod));
        }
        res := [symbols[resMod]] + res;
      }
      return Success(MakeWord(res));
    }

    /** The word for an int, through ParseLong. */
    method ParseInt(value: int) returns (r: Result<Word, ParseError>)
      requires Valid()
      requires -MaxInt - 1 <= value <= MaxInt
      requires radix != 1 || value <= 0
      ensures r.Success? ==> r.value.alphabet == this && r.value.Valid()
      ensures 0 <= value ==> r.Success? && r.value.text == Encode(symbols, value)
      ensures radix == 0 ==> r.Success? && r.value.text == []
      ensures value < 0 && radix > 0 ==> (r.Success? <==> value % radix == 0)
      ensures value < 0 && radix > 0 && r.Success? ==> r.value.text == [symbols[0]]
      ensures r.Failure? ==> r.error == IndexOutOfBounds(JavaRem(value, radix))
    {
      if radix >= 2 && value >= 0 {
        DivShrinks(value, radix);
      } else if radix >= 1 && value < 0 {
        NegativeQuotient(value, radix);
      }
      r := ParseLong(value);
    }

    /** The value of a word: the scan runs from the last symbol, whose
        weight is radix^0, to the first, and stops at the last symbol that
        has no digit in this alphabet. */
    method ToLong(word: Word) returns (r: Result<int, LookupError>)
      requires Valid()
      ensures ReadOutcome(symbols, word.text, r)
      ensures r.Success? <==> AllIn(symbols, word.text)
    {
      var text := word.text;
      var value: int := 0;
      var pow := 0;
      var i := |text| - 1;
      while i >= 0
        invariant ReadInvariant(symbols, text, i, pow, value)
      {
        var c := text[i];
        if c !in alphabetMap {
          ReadFails(symbols, text, i, pow, value);
          return Failure(UnknownSymbol(i));
        }
        var digit: int := alphabetMap[c];
        var weight: int := Pow(radix, pow);
        ReadStep(symbols, text, i, pow, value, digit, weight);
        value := value + digit * weight;
        pow := pow + 1;
        i := i - 1;
      }
      ReadDone(symbols, text, pow, value);
      return Success(value);
    }

    /** The value of a word narrowed to an int. */
    method ToInt(word: Word) returns (r: Result<int, LookupError>)
      requires Valid()
      ensures r.Success? <==> AllIn(symbols, word.text)
      ensures r.Success? ==> r.value == Int32(Eval(symbols, word.text))
      ensures r.Success? && Eval(symbols, word.text) <= MaxInt ==> r.value == Eval(symbols, word.text)
      ensures r.Failure? ==> ReadOutcome(symbols, word.text, r)
    {
      var value := ToLong(word);
      if value.Failure? {
        return Failure(value.error);
      }
      return Success(Int32(value.value));
    }

    /** The symbols in digit order: the i-th is the symbol of digit i. */
    function ToString(): (s: seq<CodeUnit>)
      requires Valid()
      ensures |s| == radix
      ensures forall i :: 0 <= i < |s| ==> s[i] in alphabetMap && alphabetMap[s[i]] == i
    {
      symbols
    }
  }
}
