/** The plain value types of data/models/PasswordGeneratorSettings.kt. */
module Models {

  /** The symbol pool a fresh settings object starts with. */
  const DefaultSymbols: string := "!@#$%^&*()_+-=[]{}|;:,.<>?"

  /** Generator options; `length` is a Kotlin `Int` and may hold any value. */
  datatype GeneratorSettings = GeneratorSettings(
    length: int,
    includeLowercase: bool,
    includeUppercase: bool,
    includeNumbers: bool,
    includeSymbols: bool,
    excludeSimilar: bool,
    customSymbols: string)

  /** `PasswordGeneratorSettings()` with every argument defaulted. */
  const DefaultSettings: GeneratorSettings :=
    GeneratorSettings(12, true, true, true, true, true, DefaultSymbols)

  /** The six strength levels, declared weakest first. */
  datatype PasswordStrength = VeryWeak | Weak | Fair | Good | Strong | VeryStrong

  /** The enum's ordinal: its position in the declaration, which is also the
      order Kotlin's `compareTo` uses. */
  function Ordinal(s: PasswordStrength): (n: nat)
    ensures n < 6
  {
    match s
    case VeryWeak => 0
    case Weak => 1
    case Fair => 2
    case Good => 3
    case Strong => 4
    case VeryStrong => 5
  }

  /** The level with a given ordinal, as Kotlin's `PasswordStrength.values()[n]`. */
  function LevelAt(n: nat): PasswordStrength
    requires n < 6
  {
    [VeryWeak, Weak, Fair, Good, Strong, VeryStrong][n]
  }

  /** Exactly six levels: the ordinal and `LevelAt` are inverse bijections
      between the levels and 0..5. */
  lemma OrdinalBijective(s: PasswordStrength, n: nat)
    requires n < 6
    ensures LevelAt(Ordinal(s)) == s
    ensures Ordinal(LevelAt(n)) == n
  {
  }

  /** The report of a strength check; `score` is documented as 0..100. */
  datatype PasswordStrengthResult = PasswordStrengthResult(
    strength: PasswordStrength,
    score: int,
    feedback: seq<string>)
}
