# Arithmetic-puzzle combination tiers, modelled in Dafny

The system builds a database of arithmetic puzzles. Each puzzle is a record of four
digits, the three operators placed between them, the expression text and its
value. A file of valid combinations is split into difficulty tiers by two Node
scripts, and a third script uploads the tiers to Firestore:

- `filter-hard-difficulty.js` keeps the hard records. A hard record has no digit 1,
  four distinct digits, and at most one operator that is a plus or a minus. The
  script then prints statistics about the kept records: a count per digit, a count
  per operator, a count per operator pattern, and the sizes of three sub-filters.
- `filter-medium-difficulty.js` keeps the medium records. A medium record has no
  digit 1, at least one multiplication or division, fewer than two pluses and fewer
  than two minuses. It prints the same digit and operator counts, and saves the
  medium records whose four digits are all different.
- `upload-databases-to-firebase.js` writes every record of a tier file as a new
  document in that tier's collection. It uses write batches of at most 500
  operations, and uploads the easy, medium and hard tiers one after another.

The Dafny modules follow that structure:

- `Sequences` holds the sequence vocabulary the scripts use: `filter`, element
  counts, `new Set(...)`, subsequences and concatenation.
- `Combinations` holds the record and the four operator symbols.
- `Statistics` holds the digit and operator counting loops, which both scripts
  share.
- `HardTier` and `MediumTier` hold the two classifiers and their `analyzeResults`.
- `Tiers` relates the two classifiers to each other.
- `Uploader` holds the batching upload, with `Database` and `WriteBatch` as classes
  whose fields the methods update.

Two points about the model:

- JavaScript's `table[key]++` on a key the table lacks stores `NaN`. `Statistics.Tally`
  models this with a `NaN` case. An unexpected digit, or an unexpected operator string
  that is an ordinary object key, is therefore counted as the script counts it.
- The medium script's header comment asks for "no two pluses or two minuses in a row".
  The code counts pluses and minuses anywhere in the operator list, and the model
  follows the code: `MediumTier.NonAdjacentPlusesRejected` shows that two pluses that
  are not next to each other are rejected.

## Model

| member | source | states |
|---|---|---|
| Sequences.Occurrences | filter-hard-difficulty.js:32-33 | the number of positions holding a value is at most the length, and is zero exactly when the value is absent |
| Sequences.Distinct | filter-hard-difficulty.js:26 | `new Set(s)` holds exactly the values of `s` and has at most `|s|` of them |
| Sequences.DistinctSize | filter-hard-difficulty.js:26-27 | the set of values has as many elements as the sequence if and only if no value repeats |
| Sequences.Filter | filter-hard-difficulty.js:19 | `filter` keeps exactly the elements satisfying the predicate and never lengthens the array |
| Sequences.FilterOccurrences | filter-hard-difficulty.js:19 | `filter` keeps every copy of a passing element and no copy of a failing one |
| Sequences.FilterFusion | filter-medium-difficulty.js:100-103 | filtering by one predicate and then by another equals filtering once by their conjunction |
| Combinations.FourDistinctDigitsMeansNoRepeat | filter-hard-difficulty.js:25-29 | for four digits, "the set has size 4" means "no two digits are equal" |
| Combinations.AllDigitsFacts | filter-hard-difficulty.js:72-76 | every digit the nested loop visits belongs to some record, and records of four digits give four per record |
| Combinations.AllOperatorsFacts | filter-hard-difficulty.js:91-95 | every operator the nested loop visits belongs to some record, and records of three operators give three per record |
| Combinations.Join | filter-hard-difficulty.js:106 | for one-character symbols, the joined pattern has one character per operator, in order |
| Combinations.Patterns | filter-hard-difficulty.js:105-106 | one joined pattern per record, in record order |
| Statistics.Incremented | filter-hard-difficulty.js:74 | `m[k]++` adds the key, increments a number, turns a missing key into `NaN`, and changes no other key |
| Statistics.TalliesStep | filter-hard-difficulty.js:74 | one increment keeps a table equal to the counts of the items visited so far |
| Statistics.TalliedFromZero | filter-hard-difficulty.js:67-76 | starting from zero on the initial keys and incrementing once per item gives the occurrence count of each initial key, `NaN` on every other key that occurs, and nothing else |
| Statistics.TallyTotal | filter-hard-difficulty.js:67-95 | when every item is an initial key, the initial keys' counts add up to the number of items |
| Statistics.CountDigits | filter-hard-difficulty.js:67-76 | `digitCounts` holds, for each digit 2..9, how many times it occurs across the records, and `NaN` for any other digit that occurs |
| Statistics.CountOperators | filter-hard-difficulty.js:84-95 | `operatorCounts` holds, for each of the four symbols, how many times it occurs, and `NaN` for any other symbol that occurs |
| Statistics.DigitCountsTotal | filter-hard-difficulty.js:67-81 | when all digits are in 2..9, the eight printed counts add up to the number of digits, which is four per record |
| Statistics.OperatorCountsTotal | filter-hard-difficulty.js:84-100 | when all operators are among the four symbols, the four printed counts add up to the number of operators, which is three per record |
| HardTier.Filtered | filter-hard-difficulty.js:19-41 | a record is kept if and only if it is in the input, has no 1, has four distinct digits, and has at most one plus-or-minus |
| HardTier.FilteredIsExactSubsequence | filter-hard-difficulty.js:19-41 | the hard tier preserves input order, keeps every copy of each passing record, and is unchanged when filtered again |
| HardTier.KeptHasNoOne | filter-hard-difficulty.js:20-23 | no kept record contains the digit 1 |
| HardTier.KeptDigitsAllDifferent | filter-hard-difficulty.js:25-29 | in a kept record of four digits, the four digits are pairwise different |
| HardTier.PlusAndMinusRejected | filter-hard-difficulty.js:31-38 | a record with both a plus and a minus is never hard |
| HardTier.ExampleRejected | filter-hard-difficulty.js:31-38 | 2+3-4*5 is rejected although its digits are distinct and contain no 1 |
| HardTier.Bump | filter-hard-difficulty.js:107 | updating the pattern table adds the pattern at the end if it is new, and raises the total by one |
| HardTier.BumpEntry | filter-hard-difficulty.js:107 | only the updated pattern's entry changes, by one, and a new entry starts at 1 |
| HardTier.BumpKeepsKeysUnique | filter-hard-difficulty.js:107 | no pattern ever gets two entries |
| HardTier.PatternsStep | filter-hard-difficulty.js:105-108 | one update keeps the table equal to the pattern counts of the records seen so far |
| HardTier.PatternTotal | filter-hard-difficulty.js:103-108 | the entries of a pattern table add up to the number of records counted |
| HardTier.CountPatterns | filter-hard-difficulty.js:103-108 | `expressionPatterns` has exactly one entry per pattern that occurs, holding its count, and the entries add up to the number of records |
| HardTier.SubFilters | filter-hard-difficulty.js:115-132 | multiplication-only records are a subsequence of the records without plus and minus, and none of them uses division; each count is at most the number of records |
| HardTier.AnalyzeResults | filter-hard-difficulty.js:63-135 | the report holds the digit, operator and pattern tables as specified above, and the three sub-filter sizes, ordered as above |
| HardTier.HardDigitsInRange | filter-hard-difficulty.js:19-23 | when the input digits are in 1..9, the hard tier's digits are in 2..9 |
| HardTier.HardDigitCountsTotal | filter-hard-difficulty.js:57-81 | for the hard tier of such an input, the eight digit counts add up to the number of kept digits |
| MediumTier.Filtered | filter-medium-difficulty.js:18-38 | a record is kept if and only if it is in the input, has no 1, has a multiplication or division, and has fewer than two pluses and fewer than two minuses |
| MediumTier.FilteredIsExactSubsequence | filter-medium-difficulty.js:18-38 | the medium tier preserves input order, keeps every copy of each passing record, and is unchanged when filtered again |
| MediumTier.OnePlusOneMinusKept | filter-medium-difficulty.js:30-35 | one plus together with one minus is allowed |
| MediumTier.NonAdjacentPlusesRejected | filter-medium-difficulty.js:30-35 | two pluses are rejected even when they are not adjacent |
| MediumTier.AddSubOnlyRejected | filter-medium-difficulty.js:24-28 | a record without multiplication and division is never medium |
| MediumTier.UniqueDigitSubset | filter-medium-difficulty.js:100-103 | exactly the records with four distinct digits are kept |
| MediumTier.UniqueDigitSubsetOfInput | filter-medium-difficulty.js:100-103 | the unique-digit file is the input filtered by "medium and four distinct digits", and is a subsequence of the medium file |
| MediumTier.AnalyzeResults | filter-medium-difficulty.js:60-110 | the report holds the digit and operator tables and exactly the records with four distinct digits, in order |
| MediumTier.MediumDigitsInRange | filter-medium-difficulty.js:19-22 | when the input digits are in 1..9, the medium tier's digits are in 2..9 |
| MediumTier.MediumCountsTotal | filter-medium-difficulty.js:63-97 | for the medium tier of a well-formed input, the digit counts add up to the number of kept digits and the operator counts to the number of kept operators |
| Tiers.HardIsMediumUnique | filter-hard-difficulty.js:19-41 | a hard record with three operators from the four symbols is also in the medium unique-digit file |
| Uploader.Database.constructor | upload-databases-to-firebase.js:22 | a new database has no committed batch |
| Uploader.WriteBatch.constructor | upload-databases-to-firebase.js:36 | a new batch belongs to the database and holds no write |
| Uploader.WriteBatch.Set | upload-databases-to-firebase.js:41-42 | `batch.set` appends one write of the record to its collection |
| Uploader.WriteBatch.Commit | upload-databases-to-firebase.js:49 | `batch.commit` appends the batch's writes to the database as one batch |
| Uploader.Writes | upload-databases-to-firebase.js:39-42 | one write per record, in order, each into the given collection |
| Uploader.Chunks | upload-databases-to-firebase.js:33-62 | the batches concatenate back to the writes, and each holds between 1 and 500 of them |
| Uploader.ChunksShape | upload-databases-to-firebase.js:46-62 | there are ceil(n / 500) batches, all full except the last, which holds the remainder |
| Uploader.ChunksAppend | upload-databases-to-firebase.js:46-55 | cutting after a whole number of full batches does not change the batches |
| Uploader.NextBatch | upload-databases-to-firebase.js:46-62 | committing the current batch extends the committed batches to those of all writes so far |
| Uploader.UploadCombinations | upload-databases-to-firebase.js:33-65 | returns the number of records, and commits exactly the batches of 500 writes, then the remainder, in order |
| Uploader.BatchesStayInCollection | upload-databases-to-firebase.js:39-62 | every committed write goes to the upload's collection and holds one of its records |
| Uploader.UploadAllTiers | upload-databases-to-firebase.js:80-86 | the easy batches are committed first, then the medium ones, then the hard ones, and each count equals its file's length |
| Uploader.AllTiersInOrder | upload-databases-to-firebase.js:78-86 | across the three uploads, every easy record is written once, then every medium record, then every hard record |

## Left out

- Reading and parsing the JSON files and writing the tier files are left out. The model takes the parsed records as parameters and returns the tiers as values.
- Console output is left out: the progress messages, the example listings and the printed tables.
- The percentages in the statistics output (`Math.floor(x / length * 100)`) are left out. They are floating point, and they are `NaN` for an empty tier.
- The Firebase Admin SDK is left out: credentials, `initializeApp`, and the generated document ids. A write records only its collection and record.
- Uploader.UploadCombinations: a commit never fails in the model. The `try`/`catch` that logs and rethrows is left out, and so is `main`'s `catch`/`finally` with `process.exit`.
- Uploader.UploadAllTiers: the `await`s are modelled as sequential steps. The tier data is passed in, not read from the three file names.
- The `expression` and `result` fields are carried along but never evaluated, as in the scripts. The generation of the valid combinations is not part of this model.
- JavaScript numbers are modelled as unbounded integers. The digits are small, so no rounding can occur.
- Object keys with special meaning are not modelled. The model treats every key of `digitCounts`, `operatorCounts` and `expressionPatterns` as an ordinary own key, kept in insertion order. JavaScript differs in three cases, all of which need an operator string outside the four symbols:
  - `"__proto__"` goes through the inherited accessor and creates no key.
  - A pattern naming an inherited property, such as `"constructor"`, starts from that property's value instead of from 0.
  - An integer-like pattern, such as `"12"`, is listed before all other keys.
- Object keys: `digitCounts` is keyed by integers, whereas JavaScript converts number keys to strings. For integer digits the two agree.
