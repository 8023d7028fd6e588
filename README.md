# Alphabet: a positional numeral system over an arbitrary set of characters

An `Alphabet` is an ordered, duplicate-free sequence of Java `char`s. The
index of a symbol is its digit value, so an alphabet of N symbols is a
base-N numeral system.

- **Building.** An alphabet is built from a string, from a char array, or
  from a radix R, which stands for the code units 0 … R-1. The constructor
  fills a symbol-to-index map in one pass and rejects the first repeated
  symbol.
- **Words.** A word is checked against an alphabet by `validate` and
  `offendingCharacters`. `createWord` wraps only text whose symbols are all
  in the alphabet.
- **Numbers.** `parseLong` and `parseInt` convert a number into a word.
  `toLong` and `toInt` read a word back as a number. `toString` gives back
  the symbols.

The model has two modules:

- `AlphabetSpec` (`alphabet_spec.dfy`) holds the pure definitions, with
  lemmas about them:
  - duplicate detection;
  - the index map;
  - the offending-symbol filter;
  - the exact positional representation `Encode` and its value `Eval`;
  - Java's truncating `/` and `%` and the `(int)` narrowing;
  - the conversion loop exactly as written, for radix >= 2 and a non-negative value.
- `Alphabets` (`alphabet.dfy`) holds the class `Alphabet`, with const
  fields `symbols`, `alphabetMap` and `radix`. Each Java method is a
  Dafny method, or a function where the Java method only builds a value
  (`makeWord`, `toString`). A Java loop stays a loop, with the same
  branches, and each member is proved against the definitions in
  `AlphabetSpec`.

Java exceptions become `Result` values: a duplicate symbol, a negative
array size, an invalid or null word, an array index out of bounds, and a
missing map entry that makes `alphabetMap.get(c)` unbox `null`. The word
argument of `validate`, `offendingCharacters` and `createWord` may be
`null`, which the model writes as `Option.None`; null arguments of the
other operations are not modelled (see "Left out").

## Model

| member | source | states |
|---|---|---|
| `Alphabets.Alphabet.constructor` | src/main/java/org/alphabet/Alphabet.java:43-45 | the fields hold the checked symbols and their map, and the radix is the number of symbols |
| `Alphabets.Alphabet.FromString` | src/main/java/org/alphabet/Alphabet.java:28-46 | construction succeeds iff no symbol repeats; the result keeps the symbols in order, radix = length, and maps each symbol to its own index; otherwise the error names the symbol at the first position that repeats an earlier one |
| `Alphabets.Alphabet.FromChars` | src/main/java/org/alphabet/Alphabet.java:53-55 | same outcome as building from the string the array spells |
| `Alphabets.Alphabet.OfRadix` | src/main/java/org/alphabet/Alphabet.java:62-64 | succeeds iff 0 <= R <= 65536, with radix R and symbol i equal to code unit i; a negative R fails as a negative array size; R > 65536 fails on the duplicate code unit 0 |
| `Alphabets.Alphabet.FromRadix` | src/main/java/org/alphabet/Alphabet.java:66-74 | the array holds exactly the R symbols (char) i, i.e. i mod 65536 |
| `AlphabetSpec.IdentitySymbols` | src/main/java/org/alphabet/Alphabet.java:67-71 | the symbols fromRadix writes have length R, and symbol i is code unit i for every i below 65536 |
| `AlphabetSpec.IdentityAlphabet` | src/main/java/org/alphabet/Alphabet.java:66-74 | the radix-R symbols have length R; they are distinct, and symbol i is code unit i, exactly when R <= 65536; beyond that the first repeat is at index 65536 |
| `AlphabetSpec.FirstRepeatFrom` | src/main/java/org/alphabet/Alphabet.java:34-40 | the position found holds a symbol already seen, and no position scanned before it does; when none is found, no position from the start on repeats |
| `AlphabetSpec.FirstRepeatCharacterization` | src/main/java/org/alphabet/Alphabet.java:34-40 | no repeat is found iff the symbols are distinct; a repeat found is the earliest, and the prefix before it is distinct |
| `AlphabetSpec.IndexMap` | src/main/java/org/alphabet/Alphabet.java:31-40 | the map's keys are exactly the symbols, every key maps back to a position holding it, and on distinct symbols each symbol maps to its own index (the map is the inverse of the symbol sequence) |
| `AlphabetSpec.ScanFresh` | src/main/java/org/alphabet/Alphabet.java:35-39 | a symbol not yet in the map keeps the scanned prefix distinct and extends the map by that symbol at its index |
| `AlphabetSpec.ScanRepeat` | src/main/java/org/alphabet/Alphabet.java:36-37 | a symbol already in the map makes the symbols non-distinct and is the first repeat |
| `AlphabetSpec.ScanDone` | src/main/java/org/alphabet/Alphabet.java:40-45 | after the whole scan the symbols are distinct and the map sends each symbol to its index |
| `Alphabets.Alphabet.Validate` | src/main/java/org/alphabet/Alphabet.java:82-94 | false for a null word; otherwise true iff every symbol of the word is in the alphabet |
| `Alphabets.Alphabet.OffendingCharacters` | src/main/java/org/alphabet/Alphabet.java:102-114 | null iff the word is null; otherwise the symbols not in the alphabet, in input order with repeats |
| `AlphabetSpec.Offending` | src/main/java/org/alphabet/Alphabet.java:106-113 | every symbol in the result is outside the alphabet, and the result is no longer than the word |
| `AlphabetSpec.OffendingCounts` | src/main/java/org/alphabet/Alphabet.java:108-111 | each symbol outside the alphabet occurs in the result as often as in the word, and each symbol inside it not at all |
| `AlphabetSpec.OffendingEmpty` | src/main/java/org/alphabet/Alphabet.java:130-133 | no offending symbols iff every symbol is in the alphabet, so createWord agrees with validate |
| `Alphabets.Alphabet.MakeWord` | src/main/java/org/alphabet/Alphabet.java:121-123 | the word carries the given text and this alphabet, and is well formed iff its text is all in the alphabet |
| `Alphabets.Alphabet.CreateWord` | src/main/java/org/alphabet/Alphabet.java:130-139 | a word is returned iff the text is present and all of it is in the alphabet, and then it is that text in this alphabet; a null text fails; any other failure lists all offending symbols, and that list is non-empty |
| `AlphabetSpec.Encode` | src/main/java/org/alphabet/Alphabet.java:147-161 | the exact representation is empty only for the empty alphabet, uses only alphabet symbols, and starts with the zero symbol iff the value is 0 |
| `AlphabetSpec.EncodeLength` | src/main/java/org/alphabet/Alphabet.java:152-158 | a value in [R^k, R^(k+1)) has exactly k + 1 digits |
| `AlphabetSpec.EncodeStep` | src/main/java/org/alphabet/Alphabet.java:152-158 | one loop step: the remainder is the next digit and the shrinking quotient spells the digits before it |
| `AlphabetSpec.TruncatedDivision` | src/main/java/org/alphabet/Alphabet.java:153-154 | Java's / and % satisfy a = b*q + r with -b < r < b; they match Euclidean division on non-negative values; a negative dividend gives a remainder <= 0 that is 0 iff b divides it |
| `AlphabetSpec.Int32` | src/main/java/org/alphabet/Alphabet.java:154 | the (int) cast lands in the int range, is congruent mod 2^32, is the identity on ints, and does not grow a non-negative value |
| `AlphabetSpec.NegativeStep` | src/main/java/org/alphabet/Alphabet.java:153-154 | on a negative value the remainder is <= 0, is 0 iff the radix divides the value, and then the narrowed quotient is <= 0 |
| `AlphabetSpec.ParseOutcome` | src/main/java/org/alphabet/Alphabet.java:147-161 | the word produced uses only alphabet symbols and is non-empty for any non-empty alphabet |
| `AlphabetSpec.JavaDiv` | src/main/java/org/alphabet/Alphabet.java:154 | Java's long division truncates toward zero: the product of the divisor and the quotient lies between 0 and the dividend, on the dividend's side |
| `AlphabetSpec.JavaRem` | src/main/java/org/alphabet/Alphabet.java:153 | Java's long remainder completes the truncating quotient (a == b * q + r), is smaller than the divisor in magnitude and takes the dividend's sign |
| `AlphabetSpec.ParseStep` | src/main/java/org/alphabet/Alphabet.java:152-158 | one step as written: the remainder is negative iff the value is negative and not divisible by the radix; otherwise the step keeps the loop invariant and decreases the measure |
| `Alphabets.Alphabet.ParseLong` | src/main/java/org/alphabet/Alphabet.java:147-161 | a non-negative value yields exactly Encode(value); radix 0 yields the empty word; a negative value succeeds iff the radix divides it, and then yields the zero symbol; otherwise it fails with the negative index JavaRem(value, radix); every word returned is well formed in this alphabet |
| `Alphabets.Alphabet.ParseInt` | src/main/java/org/alphabet/Alphabet.java:169-171 | the same outcomes as ParseLong for every int value |
| `AlphabetSpec.ParseLoop` | src/main/java/org/alphabet/Alphabet.java:152-158 | the loop as written, with narrowing, yields only alphabet symbols and never shortens the accumulated word |
| `AlphabetSpec.ParseLoopAgrees` | src/main/java/org/alphabet/Alphabet.java:152-158 | while the first quotient fits in an int, the loop as written produces exactly Encode |
| `AlphabetSpec.NarrowedQuotientDropsDigits` | src/main/java/org/alphabet/Alphabet.java:154 | in a binary alphabet, 2^33 becomes the single zero symbol, which reads back as 0, while the exact representation reads back as 2^33 |
| `AlphabetSpec.NarrowedNegativeQuotientContinues` | src/main/java/org/alphabet/Alphabet.java:153-155 | in a binary alphabet, -(2^32+2) leaves remainder 0 and its quotient -(2^31+1) narrows to the positive 2^31-1, so the loop does not stop after the first step |
| `AlphabetSpec.Pow` | src/main/java/org/alphabet/Alphabet.java:188 | radix^pow is at least 1 for a positive radix |
| `AlphabetSpec.Eval` | src/main/java/org/alphabet/Alphabet.java:186-190 | the value of a word, the sum of digit * radix^position from the end, is below radix^(length of the word) |
| `AlphabetSpec.EvalPrepend` | src/main/java/org/alphabet/Alphabet.java:186-189 | putting a symbol in front adds its digit times radix^(length of the rest) |
| `AlphabetSpec.EvalAppend` | src/main/java/org/alphabet/Alphabet.java:186-190 | appending a symbol multiplies the value by the radix and adds its digit (Horner's rule) |
| `AlphabetSpec.ReadStep` | src/main/java/org/alphabet/Alphabet.java:186-190 | one step from the end adds digit * radix^pow and keeps the read invariant |
| `AlphabetSpec.ReadFails` | src/main/java/org/alphabet/Alphabet.java:187-188 | a symbol without a map entry is the last unknown position of the word, so the word is not all in the alphabet |
| `AlphabetSpec.ReadDone` | src/main/java/org/alphabet/Alphabet.java:186-192 | once the scan passes the first symbol, the accumulated value is the value of the whole word |
| `Alphabets.Alphabet.ToLong` | src/main/java/org/alphabet/Alphabet.java:179-193 | succeeds iff every symbol is in the alphabet, and then returns the power sum over i of digit(w[i]) * radix^(len-1-i); otherwise it reports the last position whose symbol is not in the alphabet |
| `Alphabets.Alphabet.ToInt` | src/main/java/org/alphabet/Alphabet.java:201-203 | succeeds iff ToLong does; the value is the (int) narrowing of the word's value, and equals it whenever that fits in an int; failures report like ToLong |
| `AlphabetSpec.EvalEncode` | src/main/java/org/alphabet/Alphabet.java:147-193 | round trip: reading back the representation of v gives v, i.e. toLong(parseLong(v)) == v for v >= 0 |
| `AlphabetSpec.EvalZero` | src/main/java/org/alphabet/Alphabet.java:179-193 | a word is worth 0 iff all its symbols are the zero symbol |
| `Alphabets.Alphabet.ToString` | src/main/java/org/alphabet/Alphabet.java:205-208 | returns radix symbols in digit order: the i-th symbol maps to digit i |

## Left out

- Alphabets.Alphabet.ToLong: uses exact integers. The source accumulates in a `long` with `Math.pow` in `double`, so large words round or saturate there; that overflow and rounding is not modelled. The two agree while every power and partial sum stays below 2^53, where `double` arithmetic on integers is exact; this bound is not proved here.
- Alphabets.Alphabet.ParseLong: requires that the first quotient `value / radix` fits in an int. The source narrows every quotient with `(int)` and loses digits beyond that; see Findings. For radix >= 2 and a non-negative value, the loop as written, narrowing included, is `AlphabetSpec.ParseLoop`.
- Alphabets.Alphabet.ParseLong: requires that a negative value the radix divides has a quotient of at least -2^31. No member models the loop on such a value below that bound. There the source narrows the quotient to a positive int and keeps emitting digits. With radix 2 and value -(2^32+2), the remainder is 0 and the quotient -(2^31+1) narrows to 2^31-1 (`AlphabetSpec.NarrowedNegativeQuotientContinues`). The source then returns 31 copies of `symbols[1]` followed by `symbols[0]`, the word for 2^32-2. With radix 1, such a value stops or loops forever depending on `(int) value`.
- Alphabets.Alphabet.ParseLong: requires `radix != 1 || value <= 0`. With one symbol, the source loops forever exactly when `(int) value > 0`. For `0 < value <= 2^31-1` the quotient equals the value, so it never shrinks. Larger values (for example 2^32, which narrows to 0) are already excluded by the quotient bound above.
- Alphabets.Alphabet.ParseInt: inherits the radix-1 precondition of ParseLong.
- Alphabets.Alphabet.FromString: takes a sequence, so a null string (a `NullPointerException` in `toCharArray`) is not modelled. The same goes for a null array passed to `FromChars`.
- Alphabets.Alphabet.ToLong: takes a word, so a null word object (a `NullPointerException`) is not modelled.
- The generic self-type parameter `T` is not part of this model; a word records only its alphabet. The same goes for the `Word` class's own code, the exception message texts, and the internals of `HashMap`.
- alphabetMap is a Dafny `map`; Java's boxing of `Character` and `Integer` is not modelled.
- There is no I/O, clock or randomness in the core.

## Findings

| source | as written | input that shows it | evidently intended | confidence | as-written member | corrected member |
|---|---|---|---|---|---|---|
| src/main/java/org/alphabet/Alphabet.java:154 | `resDiv = (int) (value / radix)` narrows every quotient of a long to 32 bits | alphabet "01" and `parseLong(8589934592L)` (2^33): the first quotient 2^32 narrows to 0, so the loop stops and returns "0" | the 34-symbol binary representation of 2^33, which `toLong` reads back as 2^33 (proved for every value as `AlphabetSpec.EvalEncode`) | not executed | `AlphabetSpec.NarrowedQuotientDropsDigits` | `AlphabetSpec.Encode` |
