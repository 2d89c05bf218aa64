# RAVault password manager core, in Dafny

This project models the logic core of the RAVault Android password manager (Kotlin):

- the **password generator** (`generatePassword` and its helpers): character pools, the look-alike filter, one forced character per enabled class, padding from the union pool, and the final shuffle;
- the **strength scorer** (`calculateStrength`): length bands, class variety, an entropy bonus, two pattern penalties, the clamp, the level bands and the feedback list;
- the **encryption manager**: master-key lookup, `deriveKey`, `generateSalt`, the `iv ++ sealed` framing of ciphertexts, decryption with its length check, and `clearSensitiveData`;
- the **password repository**: mapping stored rows to decrypted entries while skipping rows that fail, and get-by-id, insert, update, delete and search;
- the **generator preferences**: saving and loading the settings as a key/value store;
- the settings, strength-level and result types these share.

Modules, one per source file:

- `Results` (results.dfy): `Option` and `Result`.
- `Models` (models.dfy): `PasswordGeneratorSettings.kt`.
- `Generator` (generator.dfy) and `Strength` (strength.dfy): the two halves of `PasswordGenerator.kt`.
- `Encryption` (encryption.dfy): `EncryptionManager.kt`.
- `Repository` (repository.dfy): `PasswordRepository.kt`.
- `Preferences` (preferences.dfy): `GeneratorPreferences.kt`.

How the parts that are not plain logic are represented:

- **`SecureRandom`** is an oracle `rng: nat -> nat`. The k-th `nextInt(bound)` call of a run answers `rng(k) % bound`. No claim is made about the distribution.
- **The shuffle** is the swap loop of `java.util.Collections.shuffle`, which Kotlin's `MutableList.shuffle(Random)` calls. The only property claimed for it is that it is a permutation.
- **`nextInt(0)` throws.** A forced draw from an enabled class whose filtered pool is empty is `Err(EmptyPool(cls))`.
- **AES-GCM and UTF-8** are function-valued fields of `Encryption.Platform` and are otherwise uninterpreted. The round-trip lemmas assume `AeadSound` (opening a sealed value under the same key and IV gives the plaintext back) and `Utf8Sound`.
- **Parameters** stand in for the rest:
  - the IV the cipher picks;
  - the current time (`Date()`);
  - the row list a DAO query returns;
  - the DAO's search query.
- **The Room table** is a map from id to row.
- **The entropy test** `len * log2(n) < k` is the exact integer comparison `n^len < 2^k`. For the empty string, Kotlin computes `0 * ln(0)`, which is NaN. NaN fails every `<` test, so the empty string gets the last branch (+25), and the model says so explicitly.
- **Strings** are Dafny strings, which are sequences of Unicode scalar values. Kotlin strings are sequences of UTF-16 code units. The two agree for text inside the Basic Multilingual Plane; "## Left out" says where they part.
- **Character classes** (`isLowerCase`, `isUpperCase`, `isDigit`, `isLetterOrDigit`, `lowercase()`) are ASCII. Non-ASCII letters and digits count as "other" characters.

## Consequences of the code as written

- `deriveKey` returns the master key unchanged (security/EncryptionManager.kt:69-73). `PBKDF2_ITERATIONS` is declared at line 27 and never read, and the comment at lines 70-71 says a PBKDF2 derivation is still to come. So the salt has no effect and every record is encrypted under the same key (`Encryption.DeriveKeyIgnoresSalt`).
- `generatePassword` checks only that the union pool is non-empty (utils/PasswordGenerator.kt:29-30) before drawing one forced character per enabled class (lines 33-45). `getRandomChar` calls `nextInt(chars.length)` (line 88), which throws for an empty pool, and the screen calls the generator without a `try` (PasswordGeneratorActivity.kt:166-176). So generation throws when symbols are enabled, their filtered pool is empty, and another class keeps the union pool non-empty. Examples are an empty symbol string, or `"|"` with look-alikes excluded. `Generator.GenerateFailsIff` characterises exactly when this happens.
- The band table has a `VERY_STRONG` level (96..100), but the score never exceeds 95: at most 30 for length, 40 for variety and 25 for entropy. `calculateStrength` therefore never reports `VERY_STRONG` (`Strength.CalculateStrength`).
- `decryptPassword` takes the IV from the first 12 bytes of the blob and never reads `EncryptedData.iv`. The repository passes an empty IV (`Encryption.DecryptReadsOnlyBlob`).

## Model

Source paths are relative to the repository root.

| member | source | states |
|---|---|---|
| Models.OrdinalBijective | app/src/main/java/com/ravault/passwordmanager/data/models/PasswordGeneratorSettings.kt:13-20 | there are exactly six strength levels: the declaration position and `LevelAt` are inverse bijections between the levels and 0..5 |
| Generator.SimilarCharsAre | app/src/main/java/com/ravault/passwordmanager/utils/PasswordGenerator.kt:16 | a character is in the look-alike string exactly when it is one of 0, O, 1, l, I or the vertical bar |
| Generator.WithoutSimilar | app/src/main/java/com/ravault/passwordmanager/utils/PasswordGenerator.kt:79-85 | the filtered string holds exactly the characters of the input that are not look-alikes, and is never longer |
| Generator.FilteredChars | app/src/main/java/com/ravault/passwordmanager/utils/PasswordGenerator.kt:79-85 | without `excludeSimilar` the pool is unchanged; with it, a character survives exactly when it was in the pool and is not a look-alike |
| Generator.EnabledClasses | app/src/main/java/com/ravault/passwordmanager/utils/PasswordGenerator.kt:33-45 | the classes visited are exactly the enabled ones, each once, at most four |
| Generator.CharacterSet | app/src/main/java/com/ravault/passwordmanager/utils/PasswordGenerator.kt:60-77 | a character is in the union pool exactly when it is in the filtered pool of some enabled class |
| Generator.UnionNonEmptyIff | app/src/main/java/com/ravault/passwordmanager/utils/PasswordGenerator.kt:60-77 | the union pool is non-empty exactly when a letter or digit class is enabled, or symbols are enabled with a non-empty filtered pool |
| Generator.FixedPoolsNonEmpty | app/src/main/java/com/ravault/passwordmanager/utils/PasswordGenerator.kt:13-15 | the built-in letter and digit pools keep 'a', 'A' and '2' under either filter setting |
| Generator.RandomChar | app/src/main/java/com/ravault/passwordmanager/utils/PasswordGenerator.kt:87-89 | a draw fails exactly when the pool is empty; otherwise the character is from the pool |
| Generator.RequiredChars | app/src/main/java/com/ravault/passwordmanager/utils/PasswordGenerator.kt:33-45 | the forced draws fail exactly when some visited class has an empty pool, and report such a class; otherwise there is one character per class, from that class's pool |
| Generator.Fill | app/src/main/java/com/ravault/passwordmanager/utils/PasswordGenerator.kt:47-51 | the padding has the requested length and only characters of the union pool |
| Generator.ShuffleDownPermutes | app/src/main/java/com/ravault/passwordmanager/utils/PasswordGenerator.kt:53-55 | the swap loop yields a permutation (same multiset) of its input |
| Generator.GeneratePassword | app/src/main/java/com/ravault/passwordmanager/utils/PasswordGenerator.kt:26-58 | the result is "" for length < 1 or an empty union pool; it fails exactly when the union is non-empty and an enabled pool is empty; otherwise it has max(length, enabled classes) characters, all from the union pool, at least one from each enabled pool, and no look-alike when they are excluded |
| Generator.GeneratePermutesDraws | app/src/main/java/com/ravault/passwordmanager/utils/PasswordGenerator.kt:53-57 | the output is a permutation of the forced characters followed by the padding |
| Generator.GenerateFailsIff | app/src/main/java/com/ravault/passwordmanager/utils/PasswordGenerator.kt:33-45 | generation fails exactly when length >= 1, symbols are enabled, their filtered pool is empty, and a letter or digit class is enabled |
| Generator.EmptyPoolExamples | app/src/main/java/com/ravault/passwordmanager/utils/PasswordGenerator.kt:26-45 | no usable class gives ""; an empty symbol string beside lower case, or a lone vertical bar with look-alikes excluded beside digits, fails |
| Generator.DefaultSymbolsDistinct | app/src/main/java/com/ravault/passwordmanager/data/models/PasswordGeneratorSettings.kt:10 | the default symbol string has 26 pairwise distinct characters, and the vertical bar is its only look-alike |
| Generator.DefaultSymbolsFiltered | app/src/main/java/com/ravault/passwordmanager/data/models/PasswordGeneratorSettings.kt:10 | the default symbol pool keeps 25 characters after filtering |
| Generator.DefaultsGenerate | app/src/main/java/com/ravault/passwordmanager/data/models/PasswordGeneratorSettings.kt:3-11 | default settings never fail at any length; from length 1 on, they give max(length, 4) characters covering all four classes, with no look-alike |
| Generator.InterfaceLengthExact | app/src/main/java/com/ravault/passwordmanager/PasswordGeneratorActivity.kt:81-96 | for the lengths the screen offers (4..128), every non-empty result has exactly the requested length |
| Generator.DrawRequired | app/src/main/java/com/ravault/passwordmanager/utils/PasswordGenerator.kt:33-45 | the forced draws done as a loop over the classes, with the k-th class using call k, give the same result as `RequiredChars` |
| Generator.DrawPadding | app/src/main/java/com/ravault/passwordmanager/utils/PasswordGenerator.kt:47-51 | the padding done as a loop, continuing the call count, equals `Fill` for the remaining length, or nothing when none remains |
| Generator.ShuffleInPlace | app/src/main/java/com/ravault/passwordmanager/utils/PasswordGenerator.kt:54-55 | the iterative swap loop equals the recursive shuffle and keeps the multiset |
| Generator.GeneratePasswordSteps | app/src/main/java/com/ravault/passwordmanager/utils/PasswordGenerator.kt:26-58 | the statement-by-statement generator agrees with `GeneratePassword` on every input and oracle |
| Strength.CalculateStrength | app/src/main/java/com/ravault/passwordmanager/utils/PasswordGenerator.kt:91-185 | the score is the raw score clamped to 0..100 and the level is the band of that score; the score never exceeds 95, so the level is never `VERY_STRONG`; it is 0 exactly when the raw score is not positive; the feedback is never empty and is the advice list whenever there is advice |
| Strength.CalculateStrengthSteps | app/src/main/java/com/ravault/passwordmanager/utils/PasswordGenerator.kt:91-185 | the running-score version agrees with `CalculateStrength` on every password |
| Strength.ScoreLength | app/src/main/java/com/ravault/passwordmanager/utils/PasswordGenerator.kt:95-111 | the length points lie in 0..30; they are 0 exactly below 8 characters and 30 exactly from 16 on; at most one length advice is given, and none exactly from 12 characters on |
| Strength.ScoreVariety | app/src/main/java/com/ravault/passwordmanager/utils/PasswordGenerator.kt:113-146 | the four `any` checks add 5/5/5/10 and 15 more when all four are present; each missing class adds its advice in order |
| Strength.Any | app/src/main/java/com/ravault/passwordmanager/utils/PasswordGenerator.kt:115-136 | the loop finds a match exactly when some character satisfies the predicate |
| Strength.HasSequentialCharacters | app/src/main/java/com/ravault/passwordmanager/utils/PasswordGenerator.kt:212-224 | true exactly when three consecutive code points step by +1 or by -1; never for fewer than 3 characters |
| Strength.HasRepeatedCharacters | app/src/main/java/com/ravault/passwordmanager/utils/PasswordGenerator.kt:226-233 | true exactly when three consecutive characters are equal; never for fewer than 3 characters |
| Strength.HasCommonPatterns | app/src/main/java/com/ravault/passwordmanager/utils/PasswordGenerator.kt:205-210 | true exactly when the lower-cased password contains one of the 8 weak substrings, or the password has a run of three sequential code points |
| Strength.ThresholdsArePowersOfTwo | app/src/main/java/com/ravault/passwordmanager/utils/PasswordGenerator.kt:149-155 | the three thresholds compared against are 2^30, 2^50 and 2^70 |
| Strength.StrengthBands | app/src/main/java/com/ravault/passwordmanager/utils/PasswordGenerator.kt:171-178 | each level covers exactly its band of clamped scores: 0-20, 21-40, 41-60, 61-80, 81-95, 96-100 |
| Strength.LengthScoreMonotone | app/src/main/java/com/ravault/passwordmanager/utils/PasswordGenerator.kt:95-111 | a longer password never earns fewer length points, and length advice stops exactly at 12 characters |
| Strength.EntropyFullAlphabet | app/src/main/java/com/ravault/passwordmanager/utils/PasswordGenerator.kt:187-202 | a password with all four classes is taken to draw from 94 characters, and from 11 characters on it earns the full 25 entropy points |
| Strength.StrengthMonotone | app/src/main/java/com/ravault/passwordmanager/utils/PasswordGenerator.kt:171-178 | a higher score never maps to a lower level |
| Strength.StrengthExamples | app/src/main/java/com/ravault/passwordmanager/utils/PasswordGenerator.kt:171-178 | 40 is Weak, 41 Fair, 20 Very Weak, 95 Strong and 96 Very Strong |
| Strength.ExcellentIff | app/src/main/java/com/ravault/passwordmanager/utils/PasswordGenerator.kt:180-182 | the feedback is ["Excellent password!"] exactly when there is no advice, which is exactly when the password has >= 12 characters, all four classes, no weak pattern and no triple |
| Strength.PenaltyFeedback | app/src/main/java/com/ravault/passwordmanager/utils/PasswordGenerator.kt:157-166 | the pattern message appears exactly when the pattern penalty applies, and the repeat message exactly when the repeat penalty applies |
| Strength.EmptyPasswordScore | app/src/main/java/com/ravault/passwordmanager/utils/PasswordGenerator.kt:187-203 | the empty string takes the NaN branch of the entropy bonus: score 25, level Weak |
| Strength.RepeatedLetterExample | app/src/main/java/com/ravault/passwordmanager/utils/PasswordGenerator.kt:91-185 | "aaaaaaaa" scores 15+5+10-10 = 20, Very Weak, with the repeat message |
| Strength.MixedClassExample | app/src/main/java/com/ravault/passwordmanager/utils/PasswordGenerator.kt:91-185 | "aB3!xQ9#zL2$" scores 25+40+25 = 90, Strong, with the feedback "Excellent password!" alone |
| Strength.ScoreOrderingExample | app/src/main/java/com/ravault/passwordmanager/utils/PasswordGenerator.kt:91-185 | "aaaaaaaa" scores lower, and rates a lower level, than "aB3!xQ9#zL2$" |
| Encryption.MasterKey | app/src/main/java/com/ravault/passwordmanager/security/EncryptionManager.kt:38-45 | the stored key when the alias is present, with the store unchanged; otherwise the generated key, now stored under the alias; no other alias changes |
| Encryption.MasterKeyStable | app/src/main/java/com/ravault/passwordmanager/security/EncryptionManager.kt:38-45 | once created, the master key is returned by every later lookup, and the store stays as it is |
| Encryption.DeriveKeyIgnoresSalt | app/src/main/java/com/ravault/passwordmanager/security/EncryptionManager.kt:69-73 | the derived key is the master key, whatever the salt |
| Encryption.GenerateSalt | app/src/main/java/com/ravault/passwordmanager/security/EncryptionManager.kt:63-67 | a salt is exactly 32 bytes |
| Encryption.Frame | app/src/main/java/com/ravault/passwordmanager/security/EncryptionManager.kt:85-88 | the blob is as long as the IV and the sealed bytes together: the IV, then the sealed bytes |
| Encryption.Unframe | app/src/main/java/com/ravault/passwordmanager/security/EncryptionManager.kt:100-108 | a blob is refused (too short) exactly when it has fewer than 12 bytes; otherwise it splits into a 12-byte IV and the rest, which concatenate back to it |
| Encryption.UnframeFrame | app/src/main/java/com/ravault/passwordmanager/security/EncryptionManager.kt:104-108 | splitting a framed blob with a 12-byte IV gives back its IV and sealed bytes |
| Encryption.FrameUnframe | app/src/main/java/com/ravault/passwordmanager/security/EncryptionManager.kt:104-108 | framing the two parts of any blob of at least 12 bytes gives back the blob |
| Encryption.EncryptPassword | app/src/main/java/com/ravault/passwordmanager/security/EncryptionManager.kt:75-91 | the result carries the cipher's IV and the caller's salt unchanged, and its blob is that IV followed by the sealing of the UTF-8 bytes under the master key |
| Encryption.DecryptPassword | app/src/main/java/com/ravault/passwordmanager/security/EncryptionManager.kt:93-116 | a blob under 12 bytes is refused as too short; a longer blob decrypts exactly when the tag check on (first 12 bytes, rest) passes, to the decoded plaintext, and otherwise fails authentication |
| Encryption.DecryptReadsOnlyBlob | app/src/main/java/com/ravault/passwordmanager/security/EncryptionManager.kt:93-116 | decryption's outcome depends on the blob only, not on the `iv` field or the salt |
| Encryption.EncryptThenDecrypt | app/src/main/java/com/ravault/passwordmanager/security/EncryptionManager.kt:75-116 | with a sound cipher and codec and a 12-byte IV, decrypting an encryption gives the plaintext, even with the IV field and salt replaced |
| Encryption.ShortIvBreaksFraming | app/src/main/java/com/ravault/passwordmanager/security/EncryptionManager.kt:82-102 | if the cipher's IV and sealed bytes together are under 12 bytes, the framed blob is refused |
| Encryption.ClearBytes | app/src/main/java/com/ravault/passwordmanager/security/EncryptionManager.kt:118-120 | the wiped byte buffer has the same length and every byte is 0 |
| Encryption.ClearChars | app/src/main/java/com/ravault/passwordmanager/security/EncryptionManager.kt:122-124 | the wiped character buffer has the same length and every character is NUL |
| Encryption.ClearIdempotent | app/src/main/java/com/ravault/passwordmanager/security/EncryptionManager.kt:118-124 | wiping twice is the same as wiping once |
| Repository.Sealed | app/src/main/java/com/ravault/passwordmanager/repository/PasswordRepository.kt:21-25 | decryption is always asked with the row's blob, an empty IV and the row's salt |
| Repository.ToEntry | app/src/main/java/com/ravault/passwordmanager/repository/PasswordRepository.kt:19-44 | a row maps to an entry exactly when its password decrypts; the entry copies id, title, username, website, notes and both dates, and holds the decrypted password |
| Repository.DecryptRowsAppend | app/src/main/java/com/ravault/passwordmanager/repository/PasswordRepository.kt:17-46 | the skip-on-failure mapping works row by row: it distributes over concatenation |
| Repository.DropsOnlyFailure | app/src/main/java/com/ravault/passwordmanager/repository/PasswordRepository.kt:40-44 | a row that fails to decrypt is dropped and the rows around it are kept in order |
| Repository.DecryptRowsMembers | app/src/main/java/com/ravault/passwordmanager/repository/PasswordRepository.kt:17-46 | an entry is in the result exactly when some row decrypts to it |
| Repository.DecryptRowsAllSucceed | app/src/main/java/com/ravault/passwordmanager/repository/PasswordRepository.kt:17-46 | when every row decrypts, the result has one entry per row, in the same order |
| Repository.GetAllPasswords | app/src/main/java/com/ravault/passwordmanager/repository/PasswordRepository.kt:16-47 | the loop yields the skip-on-failure mapping of the DAO's rows, which holds exactly the entries of the rows that decrypt |
| Repository.BulkReadHasTable | app/src/main/java/com/ravault/passwordmanager/repository/PasswordRepository.kt:16-47 | when the DAO returns the table's rows in any order, an entry is in the bulk read exactly when some row of the table decrypts to it |
| Repository.SearchPattern | app/src/main/java/com/ravault/passwordmanager/repository/PasswordRepository.kt:121 | the LIKE pattern is the query wrapped in one '%' on each side |
| Repository.SearchPasswords | app/src/main/java/com/ravault/passwordmanager/repository/PasswordRepository.kt:120-150 | the result is the skip-on-failure mapping of the DAO's matches for the pattern, in their order: an entry is returned exactly when some matched row decrypts to it |
| Repository.GetPasswordById | app/src/main/java/com/ravault/passwordmanager/repository/PasswordRepository.kt:49-76 | an absent id gives none; a present id gives the row's entry, or none when its password does not decrypt; in a table whose rows sit under their own ids, the entry has the id asked for |
| Repository.NextId | app/src/main/java/com/ravault/passwordmanager/data/entities/PasswordEntity.kt:10-11 | an auto-generated id is positive and larger than every id present |
| Repository.InsertPassword | app/src/main/java/com/ravault/passwordmanager/repository/PasswordRepository.kt:78-97 | the new row has a new id and a fresh 32-byte salt, and its blob is the password encrypted under that same salt; title, username, website and notes are copied, and the dates are the two clock reads; other rows are unchanged, and rows stay under their own ids |
| Repository.UpdatePassword | app/src/main/java/com/ravault/passwordmanager/repository/PasswordRepository.kt:99-114 | an absent id leaves the table alone; otherwise id, salt and creation date are kept, title, username, website, notes and blob (under the old salt) are replaced, and the update date is `now`; other rows are unchanged, and rows stay under their own ids |
| Repository.DeletePassword | app/src/main/java/com/ravault/passwordmanager/repository/PasswordRepository.kt:116-118 | the row with the entry's id is gone, every other row is unchanged, and rows stay under their own ids |
| Repository.InsertThenGet | app/src/main/java/com/ravault/passwordmanager/repository/PasswordRepository.kt:49-97 | with a sound cipher, an inserted entry reads back under its new id with the two dates read at insertion |
| Repository.UpdateThenGet | app/src/main/java/com/ravault/passwordmanager/repository/PasswordRepository.kt:49-114 | with a sound cipher and rows under their own ids, an updated entry reads back with the new fields, the stored creation date and update date `now` |
| Repository.DeleteThenGet | app/src/main/java/com/ravault/passwordmanager/repository/PasswordRepository.kt:116-118 | after a delete that id reads as absent, and every other id reads as before |
| Repository.CountAfterInsert | app/src/main/java/com/ravault/passwordmanager/repository/PasswordRepository.kt:152-154 | inserting adds exactly one row |
| Repository.CountAfterDelete | app/src/main/java/com/ravault/passwordmanager/repository/PasswordRepository.kt:152-154 | deleting removes one row if the id was present, none otherwise |
| Preferences.GetInt | app/src/main/java/com/ravault/passwordmanager/utils/GeneratorPreferences.kt:38 | a missing key gives the default; a stored int is returned; any other stored type is a class-cast failure |
| Preferences.GetBoolean | app/src/main/java/com/ravault/passwordmanager/utils/GeneratorPreferences.kt:39-43 | a missing key gives the default; a stored boolean is returned; any other stored type is a class-cast failure |
| Preferences.GetString | app/src/main/java/com/ravault/passwordmanager/utils/GeneratorPreferences.kt:44 | a missing key gives the default; a stored string is returned; any other stored type is a class-cast failure |
| Preferences.SaveSettings | app/src/main/java/com/ravault/passwordmanager/utils/GeneratorPreferences.kt:23-34 | after a save, each of the seven setting keys holds its field's value with its getter's type; the store holds its old keys plus those seven, and every other key keeps its value |
| Preferences.LoadSettings | app/src/main/java/com/ravault/passwordmanager/utils/GeneratorPreferences.kt:36-46 | the load succeeds exactly when every present setting key has its getter's type; then each present key's stored value is the loaded field, each missing key yields the default field, and a missing symbol string yields the default symbols; a failure names a present setting key |
| Preferences.KeysDistinct | app/src/main/java/com/ravault/passwordmanager/utils/GeneratorPreferences.kt:14-20 | the seven keys are seven different strings |
| Preferences.LoadAfterSave | app/src/main/java/com/ravault/passwordmanager/utils/GeneratorPreferences.kt:23-46 | loading after saving settings gives back exactly those settings, whatever else the store held |
| Preferences.LoadEmpty | app/src/main/java/com/ravault/passwordmanager/utils/GeneratorPreferences.kt:36-46 | an empty store loads as `PasswordGeneratorSettings()` |
| Preferences.SaveSaveIsLastSave | app/src/main/java/com/ravault/passwordmanager/utils/GeneratorPreferences.kt:23-34 | a second save replaces the first completely |

## Left out

- User interface: activities, adapters, the view model, clipboard and biometric unlock. The only fact taken from the screens is the generator's length range 4..128 (`Generator.InterfaceLengthExact`).
- Randomness quality: `SecureRandom` is an arbitrary oracle, so nothing is claimed about uniformity or unpredictability, and nothing about IV freshness or uniqueness.
- Platform cryptography: AES-GCM, the Android KeyStore and key generation are uninterpreted. There are no claims about tags, key size or the key store's persistence.
- Persistence and concurrency: Room's SQL, LiveData and coroutines are left out. The DAO's `ORDER BY title` and its LIKE matching are whatever rows the caller passes in. `getAllPasswordsByDate` and `deletePassword(entity)` are not used by the repository and are not modelled.
- Logging: the `Log.d`/`Log.e` calls have no effect on results and are not modelled.
- Encryption.ClearBytes: `clearSensitiveData` overwrites the caller's array in place and returns nothing. The model returns the zeroed contents instead, and says nothing about other references to the old buffer.
- Encryption.ClearChars: the same holds for the character-array overload: the returned contents stand in for the in-place overwrite.
- Repository.InsertPassword: the two `Date()` reads are the parameters `created` and `updated`. Nothing relates them; the clock's monotonicity is not modelled.
- Repository.NextId: Room's auto-generated key is modelled as one past the largest id present. SQLite's AUTOINCREMENT also never reuses the id of a deleted row, and that history is not modelled.
- Strength: the entropy bonus uses exact integer comparisons. The floating-point `len * ln(n) / ln(2)` can round the other way when `n^len` is exactly a threshold power of two (for example n = 2, len = 30).
- Strength.CalculateStrength: a Dafny `string` holds Unicode scalar values, while Kotlin's `length`, indexing, `toSet()` and `Char` work on UTF-16 code units. A character outside the Basic Multilingual Plane, such as an emoji, is one position here and two surrogates in Kotlin. For such passwords the length bands, the three-character checks and the distinct-character count differ from the app's. For example, four emoji count as 4 characters here but 8 in Kotlin.
- Generator.GeneratePassword: for the same reason, a custom symbol outside the Basic Multilingual Plane is one character here. Kotlin's `getRandomChar` draws one UTF-16 unit from it and can produce a lone surrogate, which no Dafny `string` can hold.
- Encryption.EncryptThenDecrypt: `Utf8Sound` assumes every string round-trips through UTF-8. A Kotlin string holding a lone surrogate does not, because `toByteArray(UTF_8)` replaces it. Such strings cannot be represented here.
- Strength: character classes and `lowercase()` are ASCII only. Kotlin also classifies and lower-cases non-ASCII letters and digits.
- Strength: `String.contains` and `Iterable.any` are modelled by their meaning (`Contains`, `HasCommonPattern`) rather than by the library's loops.
- Generator: Kotlin `Int` arithmetic is unbounded here. `length - requiredChars.size` cannot overflow for the values involved, but lengths near `Int.MAX_VALUE` would exhaust memory in the app, which the model ignores.
- Preferences: a stored `null` string cannot be represented; Android's `putString(key, null)` removes the key instead. The `?: default` fallback is covered as the missing-key case. An `Int` stored as a `Long` or a `Float` counts as a wrong type.
- Data classes: the custom `equals`/`hashCode` of `PasswordEntity` and `EncryptedData` are content equality, which Dafny's datatype equality already is. `AppSettingsEntity.kt` is not part of this model.
