/** The generating half of utils/PasswordGenerator.kt: the character pools,
    the look-alike filter, the forced one-per-class draw, the padding from
    the union pool and the final shuffle.

    `SecureRandom` is an oracle `rng: nat -> nat`: the k-th call of
    `nextInt(bound)` in a run answers `rng(k) % bound`. Every answer is
    therefore in range, and any sequence of in-range answers is some oracle;
    nothing here says how the answers are distributed. */
module Generator {
  import opened Results
  import opened Models

  /** The n characters with consecutive code points starting at `first`. */
  function Run(first: char, n: nat): (r: string)
    requires first as int + n <= 0xD800
    ensures |r| == n
    ensures forall i :: 0 <= i < n ==> r[i] as int == first as int + i
  {
    seq(n, i requires 0 <= i < n => (first as int + i) as char)
  }

  /** The built-in pools "a".."z", "A".."Z" and "0".."9". */
  const Lowercase: string := Run('a', 26)
  const Uppercase: string := Run('A', 26)
  const Numbers: string := Run('0', 10)

  /** Characters that are easy to misread for one another. */
  const SimilarChars: string := "0O1lI|"

  /** Membership in `SimilarChars`, spelled out character by character. */
  predicate IsSimilar(c: char)
  {
    c == '0' || c == 'O' || c == '1' || c == 'l' || c == 'I' || c == '|'
  }

  lemma SimilarCharsAre(c: char)
    ensures c in SimilarChars <==> IsSimilar(c)
  {
    if IsSimilar(c) {
      assert c == SimilarChars[0] || c == SimilarChars[1] || c == SimilarChars[2]
          || c == SimilarChars[3] || c == SimilarChars[4] || c == SimilarChars[5];
    }
  }

  /** The four character classes, in the order the generator visits them. */
  datatype CharClass = Lower | Upper | Digit | Symbol

  /** `nextInt(0)` throws: drawing from an enabled class whose filtered pool is empty. */
  datatype GenerateError = EmptyPool(cls: CharClass)

  /** `chars` without the look-alike characters, order kept. */
  function WithoutSimilar(chars: string): (r: string)
    ensures |r| <= |chars|
    ensures forall c :: c in r <==> c in chars && !IsSimilar(c)
  {
    if chars == [] then []
    else (if IsSimilar(chars[0]) then [] else [chars[0]]) + WithoutSimilar(chars[1..])
  }

  /** `getFilteredChars`: the pool unchanged, or without look-alikes when asked. */
  function FilteredChars(chars: string, excludeSimilar: bool): (r: string)
    ensures !excludeSimilar ==> r == chars
    ensures excludeSimilar ==> forall c :: c in r <==> c in chars && !IsSimilar(c)
  {
    if excludeSimilar then WithoutSimilar(chars) else chars
  }

  predicate Enabled(s: GeneratorSettings, cls: CharClass)
  {
    match cls
    case Lower => s.includeLowercase
    case Upper => s.includeUppercase
    case Digit => s.includeNumbers
    case Symbol => s.includeSymbols
  }

  /** The filtered pool a class draws from under settings `s`. */
  function Pool(s: GeneratorSettings, cls: CharClass): string
  {
    match cls
    case Lower => FilteredChars(Lowercase, s.excludeSimilar)
    case Upper => FilteredChars(Uppercase, s.excludeSimilar)
    case Digit => FilteredChars(Numbers, s.excludeSimilar)
    case Symbol => FilteredChars(s.customSymbols, s.excludeSimilar)
  }

  /** The enabled classes, each once, in the order lower, upper, digit, symbol. */
  function EnabledClasses(s: GeneratorSettings): (r: seq<CharClass>)
    ensures forall cls :: cls in r <==> Enabled(s, cls)
    ensures forall i, j :: 0 <= i < j < |r| ==> r[i] != r[j]
    ensures |r| <= 4
  {
    (if s.includeLowercase then [Lower] else [])
    + (if s.includeUppercase then [Upper] else [])
    + (if s.includeNumbers then [Digit] else [])
    + (if s.includeSymbols then [Symbol] else [])
  }

  /** `buildCharacterSet`: the enabled pools appended in class order. */
  function CharacterSet(s: GeneratorSettings): (r: string)
    ensures forall c :: c in r <==> exists cls :: Enabled(s, cls) && c in Pool(s, cls)
  {
    var r := (if s.includeLowercase then Pool(s, Lower) else [])
      + (if s.includeUppercase then Pool(s, Upper) else [])
      + (if s.includeNumbers then Pool(s, Digit) else [])
      + (if s.includeSymbols then Pool(s, Symbol) else []);
    PoolsInUnion(s, r);
    r
  }

  lemma PoolsInUnion(s: GeneratorSettings, r: string)
    requires r == (if s.includeLowercase then Pool(s, Lower) else [])
      + (if s.includeUppercase then Pool(s, Upper) else [])
      + (if s.includeNumbers then Pool(s, Digit) else [])
      + (if s.includeSymbols then Pool(s, Symbol) else [])
    ensures forall c, cls :: Enabled(s, cls) && c in Pool(s, cls) ==> c in r
  {
    forall c, cls | Enabled(s, cls) && c in Pool(s, cls) ensures c in r {
      match cls
      case Lower =>
      case Upper =>
      case Digit =>
      case Symbol =>
    }
  }

  /** `getRandomChar`: the k-th draw picks an index of `chars`; an empty
      pool makes `nextInt(0)` throw, shown as `None`. */
  function RandomChar(chars: string, rng: nat -> nat, k: nat): (r: Option<char>)
    ensures r.None? <==> |chars| == 0
    ensures r.Some? ==> r.value in chars
  {
    if |chars| == 0 then None else Some(chars[rng(k) % |chars|])
  }

  /** The forced characters: one draw from each class of `classes`, in order,
      stopping at the first class whose pool is empty. */
  function RequiredChars(s: GeneratorSettings, classes: seq<CharClass>, rng: nat -> nat, k: nat)
    : (r: Result<string, GenerateError>)
    ensures r.Err? <==> exists i :: 0 <= i < |classes| && |Pool(s, classes[i])| == 0
    ensures r.Err? ==> r.error.cls in classes && |Pool(s, r.error.cls)| == 0
    ensures r.Ok? ==> |r.value| == |classes|
    ensures r.Ok? ==> forall i :: 0 <= i < |classes| ==> r.value[i] in Pool(s, classes[i])
    decreases |classes|
  {
    if classes == [] then Ok([])
    else
      match RandomChar(Pool(s, classes[0]), rng, k)
      case None => Err(EmptyPool(classes[0]))
      case Some(c) =>
        match RequiredChars(s, classes[1..], rng, k + 1)
        case Err(e) => Err(e)
        case Ok(rest) => Ok([c] + rest)
  }

  /** `(0 until n).map { getRandomChar(chars) }`, drawing from call k on. */
  function Fill(chars: string, n: nat, rng: nat -> nat, k: nat): (r: string)
    requires |chars| > 0 || n == 0
    ensures |r| == n
    ensures forall c :: c in r ==> c in chars
  {
    seq(n, i requires 0 <= i < n => chars[rng(k + i) % |chars|])
  }

  /** One exchange of positions i and j. */
  function Swap(s: string, i: nat, j: nat): (r: string)
    requires i < |s| && j < |s|
    ensures |r| == |s|
    ensures multiset(r) == multiset(s)
  {
    s[i := s[j]][j := s[i]]
  }

  /** The swap loop of `java.util.Collections.shuffle`, which Kotlin's
      `MutableList.shuffle(Random)` calls: for i from `bound` down to 2,
      exchange position i - 1 with position `nextInt(i)`. */
  function ShuffleDown(s: string, bound: nat, rng: nat -> nat, k: nat): (r: string)
    requires bound <= |s|
    ensures |r| == |s|
    decreases bound
  {
    if bound <= 1 then s
    else ShuffleDown(Swap(s, bound - 1, rng(k) % bound), bound - 1, rng, k + 1)
  }

  /** Every swap keeps the multiset, so the whole swap loop does. */
  lemma {:induction false} ShuffleDownPermutes(s: string, bound: nat, rng: nat -> nat, k: nat)
    requires bound <= |s|
    ensures multiset(ShuffleDown(s, bound, rng, k)) == multiset(s)
    decreases bound
  {
    if bound > 1 {
      ShuffleDownPermutes(Swap(s, bound - 1, rng(k) % bound), bound - 1, rng, k + 1);
    }
  }

  function Shuffle(s: string, rng: nat -> nat, k: nat): string
  {
    ShuffleDown(s, |s|, rng, k)
  }

  /** The characters before shuffling: the forced ones, then the padding up to
      `length` drawn from the union pool. */
  function Unshuffled(s: GeneratorSettings, rng: nat -> nat): (r: Result<string, GenerateError>)
    requires |CharacterSet(s)| > 0
  {
    match RequiredChars(s, EnabledClasses(s), rng, 0)
    case Err(e) => Err(e)
    case Ok(required) =>
      var remaining := s.length - |required|;
      Ok(required + Fill(CharacterSet(s), if remaining > 0 then remaining else 0, rng, |required|))
  }

  function Max(a: int, b: int): int
  {
    if a < b then b else a
  }

  /** Some enabled class has nothing left to draw from. */
  predicate HasEmptyEnabledPool(s: GeneratorSettings)
  {
    exists cls :: Enabled(s, cls) && |Pool(s, cls)| == 0
  }

  /** `out` holds at least one character of every enabled class's pool. */
  predicate CoversEnabledClasses(s: GeneratorSettings, out: string)
  {
    forall cls :: Enabled(s, cls) ==> exists c :: c in out && c in Pool(s, cls)
  }

  /** `generatePassword`. */
  function GeneratePassword(s: GeneratorSettings, rng: nat -> nat): (r: Result<string, GenerateError>)
    // the two early returns of the empty string
    ensures s.length < 1 ==> r == Ok("")
    ensures |CharacterSet(s)| == 0 ==> r == Ok("")
    // the crash: an enabled class with nothing to draw from while the union is not empty
    ensures r.Err? <==> s.length >= 1 && |CharacterSet(s)| > 0 && HasEmptyEnabledPool(s)
    ensures r.Ok? && r.value != [] ==> s.length >= 1 && |CharacterSet(s)| > 0
    // length, membership and class coverage of a real result
    ensures r.Ok? && s.length >= 1 && |CharacterSet(s)| > 0 ==>
              |r.value| == Max(s.length, |EnabledClasses(s)|)
    ensures r.Ok? ==> forall c :: c in r.value ==> c in CharacterSet(s)
    ensures r.Ok? && r.value != [] ==> CoversEnabledClasses(s, r.value)
    ensures r.Ok? && s.excludeSimilar ==> forall c :: c in r.value ==> c !in SimilarChars
  {
    if s.length < 1 then Ok("")
    else if |CharacterSet(s)| == 0 then Ok("")
    else
      var u := Unshuffled(s, rng);
      UnshuffledFails(s, rng);
      if u.Err? then Err(u.error)
      else
        var out := Shuffle(u.value, rng, |u.value|);
        UnshuffledLength(s, rng);
        UnshuffledMembers(s, rng);
        UnshuffledCovers(s, rng);
        ShuffleDownPermutes(u.value, |u.value|, rng, |u.value|);
        ShuffleKeepsMembers(u.value, out);
        if s.excludeSimilar then UnionAvoidsSimilar(s); Ok(out) else Ok(out)
  }

  lemma ShuffleKeepsMembers(a: string, b: string)
    requires multiset(a) == multiset(b)
    ensures forall c :: c in a <==> c in b
  {
    forall c ensures c in a <==> c in b {
      assert c in a <==> c in multiset(a);
      assert c in b <==> c in multiset(b);
    }
  }

  lemma UnionAvoidsSimilar(s: GeneratorSettings)
    requires s.excludeSimilar
    ensures forall c :: c in CharacterSet(s) ==> c !in SimilarChars
  {
    forall c | c in CharacterSet(s) ensures c !in SimilarChars {
      SimilarCharsAre(c);
      var cls :| Enabled(s, cls) && c in Pool(s, cls);
      match cls
      case Lower =>
      case Upper =>
      case Digit =>
      case Symbol =>
    }
  }

  lemma UnshuffledFails(s: GeneratorSettings, rng: nat -> nat)
    requires |CharacterSet(s)| > 0
    ensures Unshuffled(s, rng).Err? <==> HasEmptyEnabledPool(s)
  {
    var classes := EnabledClasses(s);
    if RequiredChars(s, classes, rng, 0).Err? {
      var i :| 0 <= i < |classes| && |Pool(s, classes[i])| == 0;
      assert Enabled(s, classes[i]);
    } else {
      forall cls | Enabled(s, cls) ensures |Pool(s, cls)| > 0 {
        assert cls in classes;
        var i :| 0 <= i < |classes| && classes[i] == cls;
      }
    }
  }

  lemma UnshuffledLength(s: GeneratorSettings, rng: nat -> nat)
    requires |CharacterSet(s)| > 0
    ensures Unshuffled(s, rng).Ok? ==> |Unshuffled(s, rng).value| == Max(s.length, |EnabledClasses(s)|)
  {
  }

  lemma UnshuffledMembers(s: GeneratorSettings, rng: nat -> nat)
    requires |CharacterSet(s)| > 0
    ensures Unshuffled(s, rng).Ok? ==> forall c :: c in Unshuffled(s, rng).value ==> c in CharacterSet(s)
  {
    var classes := EnabledClasses(s);
    var req := RequiredChars(s, classes, rng, 0);
    if req.Ok? {
      forall c | c in req.value ensures c in CharacterSet(s) {
        var i :| 0 <= i < |req.value| && req.value[i] == c;
        assert c in Pool(s, classes[i]);
        assert Enabled(s, classes[i]);
      }
    }
  }

  lemma UnshuffledCovers(s: GeneratorSettings, rng: nat -> nat)
    requires |CharacterSet(s)| > 0
    ensures Unshuffled(s, rng).Ok? ==> CoversEnabledClasses(s, Unshuffled(s, rng).value)
  {
    var classes := EnabledClasses(s);
    var req := RequiredChars(s, classes, rng, 0);
    if req.Ok? {
      var all := Unshuffled(s, rng).value;
      forall cls | Enabled(s, cls) ensures exists c :: c in all && c in Pool(s, cls) {
        assert cls in classes;
        var i :| 0 <= i < |classes| && classes[i] == cls;
        assert all[i] == req.value[i];
        assert all[i] in all;
      }
    }
  }

  /** The built-in pools keep letters and digits however they are filtered,
      so only the caller's symbol string can leave an enabled pool empty. */
  lemma FixedPoolsNonEmpty(s: GeneratorSettings)
    ensures 'a' in Pool(s, Lower) && 'A' in Pool(s, Upper) && '2' in Pool(s, Digit)
  {
    assert Lowercase[0] == 'a' && Uppercase[0] == 'A' && Numbers[2] == '2';
    assert !IsSimilar('a') && !IsSimilar('A') && !IsSimilar('2');
  }

  /** The union pool is empty exactly when no letter or digit class is on
      and the symbol pool, if on, filtered to nothing. */
  lemma UnionNonEmptyIff(s: GeneratorSettings)
    ensures |CharacterSet(s)| > 0 <==>
              s.includeLowercase || s.includeUppercase || s.includeNumbers
              || (s.includeSymbols && |Pool(s, Symbol)| > 0)
  {
    FixedPoolsNonEmpty(s);
    if s.includeLowercase {
      assert 'a' in CharacterSet(s);
    } else if s.includeUppercase {
      assert 'A' in CharacterSet(s);
    } else if s.includeNumbers {
      assert '2' in CharacterSet(s);
    } else if s.includeSymbols && |Pool(s, Symbol)| > 0 {
      assert Pool(s, Symbol)[0] in CharacterSet(s);
    } else {
      assert CharacterSet(s) == [];
    }
  }

  /** Only the symbol class can be enabled with an empty pool. */
  lemma EmptyPoolIsSymbols(s: GeneratorSettings)
    ensures HasEmptyEnabledPool(s) <==> s.includeSymbols && |Pool(s, Symbol)| == 0
  {
    FixedPoolsNonEmpty(s);
    if HasEmptyEnabledPool(s) {
      var cls :| Enabled(s, cls) && |Pool(s, cls)| == 0;
      assert cls == Symbol;
    }
    if s.includeSymbols && |Pool(s, Symbol)| == 0 {
      assert Enabled(s, Symbol);
    }
  }

  /** Generation crashes exactly when symbols are enabled, their filtered
      pool is empty, and another class keeps the union non-empty: for
      example an empty symbol string, or "|" with look-alikes excluded. */
  lemma GenerateFailsIff(s: GeneratorSettings, rng: nat -> nat)
    ensures GeneratePassword(s, rng).Err? <==>
              s.length >= 1 && s.includeSymbols
              && |FilteredChars(s.customSymbols, s.excludeSimilar)| == 0
              && (s.includeLowercase || s.includeUppercase || s.includeNumbers)
  {
    UnionNonEmptyIff(s);
    EmptyPoolIsSymbols(s);
  }

  /** Examples of the empty-result and crash conditions. */
  lemma EmptyPoolExamples(rng: nat -> nat)
    ensures GeneratePassword(GeneratorSettings(20, false, false, false, true, true, ""), rng) == Ok("")
    ensures GeneratePassword(GeneratorSettings(20, true, false, false, true, false, ""), rng).Err?
    ensures GeneratePassword(GeneratorSettings(20, false, false, true, true, true, "|"), rng).Err?
    ensures GeneratePassword(GeneratorSettings(20, false, false, false, false, true, "!"), rng) == Ok("")
  {
    GenerateFailsIff(GeneratorSettings(20, true, false, false, true, false, ""), rng);
    var s := GeneratorSettings(20, false, false, true, true, true, "|");
    assert WithoutSimilar("|") == [];
    GenerateFailsIff(s, rng);
  }

  /** Filtering distributes over concatenation. */
  lemma {:induction false} WithoutSimilarAppend(a: string, b: string)
    ensures WithoutSimilar(a + b) == WithoutSimilar(a) + WithoutSimilar(b)
    decreases |a|
  {
    if a == [] {
      assert a + b == b;
    } else {
      assert (a + b)[1..] == a[1..] + b;
      WithoutSimilarAppend(a[1..], b);
    }
  }

  predicate NoSimilar(a: string)
  {
    forall i :: 0 <= i < |a| ==> !IsSimilar(a[i])
  }

  /** A string with no look-alike is left unchanged by the filter. */
  lemma {:induction false} WithoutSimilarKeeps(a: string)
    requires NoSimilar(a)
    ensures WithoutSimilar(a) == a
    decreases |a|
  {
    if a != [] {
      assert NoSimilar(a[1..]) by {
        forall i | 0 <= i < |a[1..]| ensures !IsSimilar(a[1..][i]) {
          assert a[1..][i] == a[i + 1];
        }
      }
      WithoutSimilarKeeps(a[1..]);
      assert !IsSimilar(a[0]);
    }
  }

  /** Dropping the look-alikes around a middle part the filter removes. */
  lemma WithoutSimilarAround(front: string, mid: string, back: string)
    requires WithoutSimilar(mid) == []
    ensures WithoutSimilar(front + mid + back) == WithoutSimilar(front) + WithoutSimilar(back)
  {
    WithoutSimilarAppend(front + mid, back);
    WithoutSimilarAppend(front, mid);
  }

  /** The default symbol string: 26 distinct characters, of which only '|'
      is a look-alike. */
  lemma DefaultSymbolsDistinct()
    ensures |DefaultSymbols| == 26
    ensures forall i, j :: 0 <= i < j < |DefaultSymbols| ==> DefaultSymbols[i] != DefaultSymbols[j]
    ensures forall i :: 0 <= i < |DefaultSymbols| && DefaultSymbols[i] in SimilarChars ==> DefaultSymbols[i] == '|'
  {
    forall i | 0 <= i < |DefaultSymbols| && DefaultSymbols[i] in SimilarChars
      ensures DefaultSymbols[i] == '|'
    {
      SimilarCharsAre(DefaultSymbols[i]);
    }
  }

  /** Filtering a string whose only look-alike is one '|' drops just that '|'. */
  lemma WithoutSimilarDropsBar(front: string, back: string)
    requires NoSimilar(front) && NoSimilar(back)
    ensures WithoutSimilar(front + "|" + back) == front + back
  {
    var bar := "|";
    assert WithoutSimilar(bar) == [] by {
      assert IsSimilar(bar[0]) && bar[1..] == [];
    }
    WithoutSimilarAround(front, bar, back);
    WithoutSimilarKeeps(front);
    WithoutSimilarKeeps(back);
  }

  /** So the default filtered symbol pool keeps the other 25 characters. */
  lemma DefaultSymbolsFiltered()
    ensures |FilteredChars(DefaultSymbols, true)| == 25
  {
    var front, back := "!@#$%^&*()_+-=[]{}", ";:,.<>?";
    assert DefaultSymbols == front + "|" + back;
    assert NoSimilar(front) && NoSimilar(back);
    WithoutSimilarDropsBar(front, back);
  }

  /** The user interface only offers lengths 4..128; there, every non-empty
      result has exactly the requested length, since at most four classes
      are forced. */
  lemma InterfaceLengthExact(s: GeneratorSettings, rng: nat -> nat)
    requires 4 <= s.length <= 128
    ensures GeneratePassword(s, rng).Ok? && GeneratePassword(s, rng).value != [] ==>
              |GeneratePassword(s, rng).value| == s.length
  {
  }

  /** Default settings with any length never crash, and from length 1 on
      produce max(length, 4) characters covering all four classes without
      any look-alike. */
  lemma DefaultsGenerate(length: int, rng: nat -> nat)
    ensures GeneratePassword(DefaultSettings.(length := length), rng).Ok?
    ensures length >= 1 ==>
              |GeneratePassword(DefaultSettings.(length := length), rng).value| == Max(length, 4)
    ensures length >= 1 ==>
              CoversEnabledClasses(DefaultSettings.(length := length), GeneratePassword(DefaultSettings.(length := length), rng).value)
    ensures forall c :: c in GeneratePassword(DefaultSettings.(length := length), rng).value ==> c !in SimilarChars
  {
    var s := DefaultSettings.(length := length);
    DefaultSymbolsFiltered();
    FixedPoolsNonEmpty(s);
    GenerateFailsIff(s, rng);
    assert |EnabledClasses(s)| == 4;
    assert 'a' in CharacterSet(s);
  }

  /** The shuffle only reorders: the result is a permutation of the forced
      characters followed by the padding. */
  lemma GeneratePermutesDraws(s: GeneratorSettings, rng: nat -> nat)
    requires s.length >= 1 && |CharacterSet(s)| > 0
    ensures GeneratePassword(s, rng).Ok? <==> Unshuffled(s, rng).Ok?
    ensures GeneratePassword(s, rng).Ok? ==>
              multiset(GeneratePassword(s, rng).value) == multiset(Unshuffled(s, rng).value)
  {
    var u := Unshuffled(s, rng);
    if u.Ok? {
      ShuffleDownPermutes(u.value, |u.value|, rng, |u.value|);
    }
  }

  // ---- the statement-by-statement version ----

  /** `Ok(prefix + x)` for `Ok(x)`; errors pass through. */
  function Prepend(prefix: string, r: Result<string, GenerateError>): Result<string, GenerateError>
  {
    match r
    case Err(e) => Err(e)
    case Ok(x) => Ok(prefix + x)
  }

  /** Prepending in two steps is prepending the concatenation. */
  lemma PrependTwice(a: string, b: string, r: Result<string, GenerateError>)
    ensures Prepend(a, Prepend(b, r)) == Prepend(a + b, r)
  {
    if r.Ok? {
      assert a + (b + r.value) == (a + b) + r.value;
    }
  }

  /** One forced draw: the first class's character, then the rest from the next call. */
  lemma RequiredStep(s: GeneratorSettings, classes: seq<CharClass>, rng: nat -> nat, k: nat)
    requires classes != [] && |Pool(s, classes[0])| > 0
    ensures RequiredChars(s, classes, rng, k)
            == Prepend([Pool(s, classes[0])[rng(k) % |Pool(s, classes[0])|]], RequiredChars(s, classes[1..], rng, k + 1))
  {
  }

  /** The forced draws as a loop over the enabled classes, call k for the
      k-th class, stopping at the first empty pool. */
  method DrawRequired(s: GeneratorSettings, classes: seq<CharClass>, rng: nat -> nat) returns (r: Result<string, GenerateError>)
    ensures r == RequiredChars(s, classes, rng, 0)
  {
    var required: string := [];
    var calls := 0;
    assert classes[0..] == classes;
    assert Prepend([], RequiredChars(s, classes, rng, 0)) == RequiredChars(s, classes, rng, 0) by {
      if RequiredChars(s, classes, rng, 0).Ok? {
        assert [] + RequiredChars(s, classes, rng, 0).value == RequiredChars(s, classes, rng, 0).value;
      }
    }
    while calls < |classes|
      invariant 0 <= calls <= |classes|
      invariant RequiredChars(s, classes, rng, 0) == Prepend(required, RequiredChars(s, classes[calls..], rng, calls))
    {
      var pool := Pool(s, classes[calls]);
      if |pool| == 0 {
        return Err(EmptyPool(classes[calls]));
      }
      var c := pool[rng(calls) % |pool|];
      RequiredStep(s, classes[calls..], rng, calls);
      assert classes[calls..][1..] == classes[calls + 1..];
      PrependTwice(required, [c], RequiredChars(s, classes[calls + 1..], rng, calls + 1));
      required := required + [c];
      calls := calls + 1;
    }
    assert classes[calls..] == [];
    assert required + [] == required;
    return Ok(required);
  }

  /** The padding: `remaining` draws from `chars` appended to `prefix`, call
      k onwards; none when `remaining` is not positive. */
  method DrawPadding(prefix: string, chars: string, remaining: int, rng: nat -> nat, k: nat) returns (all: string)
    requires |chars| > 0
    ensures all == prefix + Fill(chars, if remaining > 0 then remaining else 0, rng, k)
  {
    all := prefix;
    var i := 0;
    while i < remaining
      invariant 0 <= i && (i <= remaining || i == 0)
      invariant all == prefix + Fill(chars, i, rng, k)
    {
      assert Fill(chars, i + 1, rng, k) == Fill(chars, i, rng, k) + [chars[rng(k + i) % |chars|]];
      all := all + [chars[rng(k + i) % |chars|]];
      i := i + 1;
    }
  }

  /** The swap loop of the shuffle, from call k on. */
  method ShuffleInPlace(a: string, rng: nat -> nat, k: nat) returns (shuffled: string)
    ensures shuffled == Shuffle(a, rng, k)
    ensures multiset(shuffled) == multiset(a)
  {
    shuffled := a;
    var bound: nat := |a|;
    var calls: nat := k;
    while bound > 1
      invariant bound <= |shuffled|
      invariant Shuffle(a, rng, k) == ShuffleDown(shuffled, bound, rng, calls)
    {
      assert ShuffleDown(shuffled, bound, rng, calls)
          == ShuffleDown(Swap(shuffled, bound - 1, rng(calls) % bound), bound - 1, rng, calls + 1);
      shuffled := Swap(shuffled, bound - 1, rng(calls) % bound);
      bound := bound - 1;
      calls := calls + 1;
    }
    ShuffleDownPermutes(a, |a|, rng, k);
  }

  /** `generatePassword` as written: the early returns, the forced draws,
      the padding and the shuffle, on one running count of `nextInt` calls.
      It agrees with `GeneratePassword` on every input. */
  method GeneratePasswordSteps(s: GeneratorSettings, rng: nat -> nat) returns (r: Result<string, GenerateError>)
    ensures r == GeneratePassword(s, rng)
  {
    if s.length < 1 {
      return Ok("");
    }
    var characterSet := CharacterSet(s);
    if |characterSet| == 0 {
      return Ok("");
    }
    var required := DrawRequired(s, EnabledClasses(s), rng);
    if required.Err? {
      return Err(required.error);
    }
    var all := DrawPadding(required.value, characterSet, s.length - |required.value|, rng, |required.value|);
    var shuffled := ShuffleInPlace(all, rng, |all|);
    return Ok(shuffled);
  }
}
