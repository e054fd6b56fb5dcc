# win-exeplain: the import-analysis pipeline, modelled in Dafny

win-exeplain explains what a Windows executable can do by looking at the functions it imports. It runs in three stages, and this project models each one with proofs:

1. **Import-table flattening** (`PeParser`). A third-party library parses the PE file. Its list of import descriptors is turned into a mapping from DLL name to imported function names:
   - DLL names are upper-cased, with `"UNKNOWN"` as the fallback.
   - A nameless symbol becomes `ORDINAL_<n>`, or `"UNKNOWN"` when it has no ordinal either.
   - A repeated DLL name overwrites the earlier entry in place.
   - A missing file and a file that is not a PE give the two error variants.
2. **Categorization** (`Categorize`). Each function name is normalised: whitespace is stripped, then leading underscores, then the name is lower-cased. It is then looked up in the fixed API table. The original spellings are grouped by category, and names not in the table go to `"unknown"`.
3. **Analysis** (`Analyze`). This stage has three parts:
   - One capability record per category: present flag, count, at most five sorted distinct examples, and a description. Every category of the description table is then back-filled.
   - Three fixed pattern rules, tried in a fixed order.
   - Each pattern id paired with its description.

Each loop of the original is a Dafny `method` with loop invariants. The method's `ensures` ties its result to a specification function. The lemmas then prove what that function means:
- counts are conserved;
- each name is listed under its own category and no other;
- the first-seen key order is kept;
- the pattern rules hold in both directions;
- the examples are bounded, sorted and distinct;
- a repeated DLL keeps its first position and takes the last list.

The capability lemmas hold for any description table. `Analyze.ComputeCapabilities` instantiates them with `CATEGORY_DESCRIPTIONS`.

Supporting modules:
- `Dicts` models Python's insertion-ordered `dict` as a sequence of `(key, value)` pairs. `Put` is `d[k] = v`: an existing key keeps its position and gets the new value, and a new key is appended at the end. `AppendTo` is `defaultdict(list)` append, and `FromPairs` is a dict display.
- `Text` holds the ASCII string operations: `strip`, `lower`, `upper`, decimal rendering, and Python's code-point order on `str`.
- `SortedSets` models `sorted(set(xs))`.
- `Scenarios` evaluates the pipeline on the input of the repository's test, and on a few hand-made descriptor lists.

What the code does at the points where a reader might expect otherwise:
- `pefile` does all byte-level parsing (headers, sections, address translation, descriptor walking). The model takes the library's outcome as its input.
- A symbol without a name is recorded as `ORDINAL_<n>`, or `"UNKNOWN"` when it has no ordinal; it is never skipped.
- A repeated DLL is overwritten: the last list wins and the key keeps its first position.
- Only *leading* underscores are removed from a name, after the surrounding whitespace is stripped.

One consequence of the code is worth stating. The process-injection rule lower-cases names but does not normalise them. So `_OpenProcess` is categorized as `process_injection`, yet it does not count towards the combo (`Scenarios.UnderscoredTriad`).

## Model

| member | source | states |
|---|---|---|
| Categorize.NormalizeApiName | src/categorize.py:61-70 | the loop's result is the name stripped of whitespace, then of all leading underscores, then lower-cased |
| Categorize.NormalizedHasNoLeadingUnderscore | src/categorize.py:67-69 | a normalised name never starts with `_` |
| Categorize.DropUnderscoresHead | src/categorize.py:68-69 | after the underscore loop the string is empty or does not start with `_` |
| Categorize.NormalizedIsLowercase | src/categorize.py:70 | a normalised name contains no ASCII upper-case letter |
| Categorize.NormalizedPlain | src/categorize.py:67-70 | a name without surrounding whitespace or a leading underscore is looked up by its lower-case form |
| Categorize.TableValues | src/categorize.py:8-58 | every category in the API table is one of the six tags, never `"unknown"` |
| Categorize.CategoryOfRange | src/categorize.py:89-90 | every category a name can receive is a table tag or `"unknown"` |
| Categorize.UnknownMeansUntabled | src/categorize.py:89-90 | a name goes to `"unknown"` exactly when its normalised key is not in the table, and otherwise to the table's category for that key |
| Categorize.CreateFileSpellings | src/categorize.py:10 | `CreateFileW`, `createfilew` and `_CreateFileW` all normalise to `createfilew` and all land in `file_io` |
| Categorize.CategorizeImports | src/categorize.py:73-93 | the nested loops build exactly the grouping of all names, DLL by DLL and in order, by category |
| Categorize.AllNamesSnoc | src/categorize.py:87-88 | one more DLL appends its names after those of the earlier DLLs |
| Categorize.AllNamesStep | src/categorize.py:87-88 | the outer loop's step: the names so far grow by the whole list of the next DLL |
| Categorize.GroupSnoc | src/categorize.py:89-91 | one more name is appended under its own category |
| Categorize.GroupStep | src/categorize.py:88-91 | the inner loop's step: the next name of the DLL is appended under its category |
| Categorize.SelectNonEmpty | src/categorize.py:85-91 | a category's list is non-empty exactly when some input name has that category |
| Categorize.SelectMembers | src/categorize.py:89-91 | a name is in a category's list exactly when it is an input name with that category |
| Categorize.GroupLookup | src/categorize.py:85-93 | for any table, each category's list is the input names of that category in input order, and a category without names has no key |
| Categorize.GroupDistinct | src/categorize.py:85-93 | the grouping never holds a category twice |
| Categorize.GroupKeyOrder | src/categorize.py:85-93 | categories appear in the order of their first name in the input |
| Categorize.GroupLength | src/categorize.py:88-91 | the lists together hold exactly as many entries as there were names |
| Categorize.AllNamesLength | src/categorize.py:87-88 | there are as many names as the DLL lists hold together |
| Categorize.CategorizedConservesCount | src/categorize.py:87-91 | the total length of the output lists equals the total number of input names |
| Categorize.CategorizedLists | src/categorize.py:87-93 | each category's list holds the original spellings of that category's names, in DLL order and then function order |
| Categorize.CategorizedPlacement | src/categorize.py:89-91 | every input name is listed under its own category and under no other |
| Categorize.CategorizedKeyOrder | src/categorize.py:85-93 | output keys are in the order of each category's first name |
| Categorize.CategorizedShape | src/categorize.py:85-93 | keys are distinct tags from the table or `"unknown"`, no list is empty, and a category is a key exactly when some name has it |
| Analyze.ExamplesSpec | src/analyze.py:55 | examples are at most five, strictly sorted, free of duplicates and drawn from the list, and every name left out sorts after all five |
| Analyze.PresentRecordSpec | src/analyze.py:52-57 | a category with names is present, is counted by its list length, and shows between one and five of its names |
| Analyze.ComputeCapabilities | src/analyze.py:32-69 | the two loops build the records of the non-empty categories, then add default records for the table categories still missing |
| Analyze.ObservedLookup | src/analyze.py:48-57 | after the first loop, a category has a record exactly when its list is non-empty, and that record summarises the list |
| Analyze.BackfillLookup | src/analyze.py:59-67 | back-filling keeps every existing record and adds the default record only for table categories without one |
| Analyze.CapabilitiesLookup | src/analyze.py:48-67 | for any description table, a category with names gets its summary; a table category with no names gets `present=false`, `count=0`, no examples and the table text; any other category gets no record |
| Analyze.BackfillCovers | src/analyze.py:60-67 | after back-filling, every table category has a record |
| Analyze.CapabilitiesCoverTable | src/analyze.py:60-67 | every category of the description table is in the result, whatever the input |
| Analyze.ObservedKeys | src/analyze.py:48-57 | the first loop's keys are the categories with names, in input order |
| Analyze.ObservedDistinct | src/analyze.py:48-57 | the first loop never records a category twice |
| Analyze.BackfillKeys | src/analyze.py:59-67 | the back-filled keys are the existing keys followed by the missing table categories, in table order |
| Analyze.CapabilitiesKeyOrder | src/analyze.py:46-69 | the result has distinct keys: the categories with names in input order, then the missing table categories in table order |
| Analyze.FlattenApis | src/analyze.py:72-77 | a name is in the set exactly when some category's list holds it |
| Analyze.DetectPatterns | src/analyze.py:80-101 | the three rules are tried in order, each adding its id when its condition holds |
| Analyze.ImportedMeansLowered | src/analyze.py:87 | a lower-cased name is in the lower-cased set exactly when some listed name lower-cases to it |
| Analyze.CategorizedImported | src/analyze.py:87-90 | on the categorizer's output, a lower-cased name counts as imported exactly when some function of some DLL lower-cases to it, whatever its category |
| Analyze.PatternRules | src/analyze.py:87-99 | the combo fires iff all three injection APIs occur, case-insensitively and in any category; network+file fires iff both lists are non-empty; registry fires iff its list is non-empty |
| Analyze.PatternsShape | src/analyze.py:86-101 | there are at most three ids, with no repeats, in rule order, each with a description |
| Analyze.DescribePatterns | src/analyze.py:104-112 | the output has the same length and id order as the input, and each text is the table entry or `""` for an unknown id |
| PeParser.GetImports | src/pe_parser.py:29-62 | a missing file gives the not-found error and a non-PE file the parse error, both with their messages; no import directory gives the empty mapping; otherwise the result is the flattened table |
| PeParser.DllKeyIsUpper | src/pe_parser.py:48 | each DLL key is non-empty and has no lower-case letter; a missing or empty name becomes `"UNKNOWN"` |
| PeParser.FuncNameCases | src/pe_parser.py:52-56 | a named symbol keeps its name; otherwise the name is `ORDINAL_` followed by digits that read back as the ordinal, or `"UNKNOWN"` when there is none |
| PeParser.FuncNamesSpec | src/pe_parser.py:50-58 | each DLL's list has exactly one name per imported symbol, in the same order |
| PeParser.ImportTableSnoc | src/pe_parser.py:46-60 | one more descriptor assigns its list to its key |
| PeParser.DllKeysMembers | src/pe_parser.py:46-48 | the key list holds exactly the keys of the descriptors |
| PeParser.ImportTableKeys | src/pe_parser.py:46-60 | keys are distinct, appear in the order of their first descriptor, and are exactly the keys of the descriptors |
| PeParser.ImportTableLastWins | src/pe_parser.py:60 | the list stored for a DLL is the one from its last descriptor; earlier lists are discarded, not merged |
| Dicts.Keys | src/pe_parser.py:60 | a dict's key list has one key per entry, in entry order |
| Dicts.Get | src/analyze.py:94 | a lookup succeeds exactly when the key is present, and returns that key's value |
| Dicts.PutLookup | src/pe_parser.py:60 | after `d[k] = v`, looking up `k` gives `v` and every other key is unchanged |
| Dicts.PutKeys | src/pe_parser.py:60 | `d[k] = v` keeps the key order when `k` is present, and otherwise appends `k` |
| Dicts.PutKeepsDistinct | src/pe_parser.py:60 | assignment never duplicates a key |
| Dicts.PutInPlace | src/pe_parser.py:60 | assigning to a present key replaces its value at the same position |
| Dicts.PutNew | src/pe_parser.py:60 | assigning to an absent key appends the pair |
| Dicts.FromPairsSnoc | src/tests/test_basic.py:8-13 | a dict display assigns its pairs left to right |
| Dicts.KeysSnoc | src/pe_parser.py:60 | appending a pair appends its key |
| Dicts.GetSnoc | src/analyze.py:94 | a lookup in a dict extended by one pair finds the earlier value first |
| Dicts.DistinctKeysSnoc | src/pe_parser.py:60 | an extended dict has distinct keys iff the new key is new |
| Dicts.DistinctSnoc | src/pe_parser.py:60 | a sequence extended by one element has no repeats iff the element is new |
| Dicts.GetAtIndex | src/analyze.py:48 | with distinct keys, looking up an entry's key gives that entry's value |
| Dicts.TotalLengthSnoc | src/categorize.py:87-88 | appending a list adds its length to the total |
| Dicts.AppendToLength | src/categorize.py:91 | a `defaultdict(list)` append adds exactly one entry in total |
| Dicts.FirstOccurrencesMembers | src/categorize.py:85-93 | first occurrences keep exactly the members and repeat none |
| Dicts.FirstOccurrencesOfDistinct | src/analyze.py:59-67 | a repetition-free sequence is its own first-occurrence list |
| Text.LowerHasNoUpper | src/categorize.py:70 | a lower-cased string has no upper-case ASCII letter |
| Text.UpperHasNoLower | src/pe_parser.py:48 | an upper-cased string has no lower-case ASCII letter |
| Text.DigitChar | src/pe_parser.py:56 | a digit value renders as a digit character |
| Text.Decimal | src/pe_parser.py:56 | an ordinal renders as a non-empty string of digits without a leading zero |
| Text.DecimalRoundTrip | src/pe_parser.py:56 | reading back the rendered digits gives the ordinal |
| Text.BelowIrreflexive | src/analyze.py:55 | no string sorts before itself |
| Text.BelowTransitive | src/analyze.py:55 | string order is transitive |
| Text.BelowTotal | src/analyze.py:55 | of two different strings one sorts before the other |
| Text.BelowAsymmetric | src/analyze.py:55 | string order is asymmetric |
| SortedSets.InsertMembers | src/analyze.py:55 | inserting into the sorted set adds exactly the new name |
| SortedSets.InsertSorted | src/analyze.py:55 | inserting keeps the set strictly sorted |
| SortedSets.SortedSetSpec | src/analyze.py:55 | `sorted(set(xs))` is strictly sorted and has exactly the members of `xs` |
| SortedSets.StrictlySortedIsDistinct | src/analyze.py:55 | a strictly sorted list has no duplicates |
| Scenarios.FakeImportsDisplay | src/tests/test_basic.py:8-13 | the test's display, which repeats `KERNEL32.DLL` three times, denotes two DLLs holding four names |
| Scenarios.Kernel32Categories | src/categorize.py:10-12 | `CreateFileW` and `ReadFile` are file-I/O APIs |
| Scenarios.Ws2_32Categories | src/categorize.py:21-22 | `connect` and `send` are network APIs |
| Scenarios.FakeNames | src/categorize.py:87-88 | the test input's names, in iteration order |
| Scenarios.FakeFileGroup | src/categorize.py:87-91 | the KERNEL32 names are grouped under file I/O |
| Scenarios.FakeNetworkGroup | src/categorize.py:87-91 | `connect` opens the network group after the file-I/O group |
| Scenarios.FakeSendStep | src/categorize.py:91 | appending `send` extends the existing network list in place |
| Scenarios.FakeImportsCategorized | src/tests/test_basic.py:15 | the test input categorizes to file I/O with the KERNEL32 names and network with the WS2_32 names |
| Scenarios.FakeExamples | src/analyze.py:55 | both lists are their own example lists |
| Scenarios.FakeImportsCapabilities | src/tests/test_basic.py:16-21 | file I/O and network are present with two names each, and registry is back-filled as absent |
| Scenarios.FakeImportsPatterns | src/tests/test_basic.py:17-24 | only the network+file rule fires on the test input |
| Scenarios.DescriptorKeys | src/pe_parser.py:48 | differently-cased DLL names share one upper-case key |
| Scenarios.DescriptorNames | src/pe_parser.py:51-58 | a named symbol, an ordinal-only symbol and an empty-named symbol give their names, `ORDINAL_23` and `UNKNOWN` |
| Scenarios.RepeatedDllDescriptor | src/pe_parser.py:46-60 | a DLL named twice keeps its first position and holds the second descriptor's list |
| Scenarios.UnderscoredTriad | src/analyze.py:87-91 | `_OpenProcess` is categorized as process injection, yet underscored spellings of the triad do not trigger the combo |

## Left out

- The command-line front end (`src/main.py`): argument handling, printing, writing the HTML file and exit codes. It only calls the pipeline in sequence.
- Report rendering (`src/report.py`): the text, JSON and HTML layouts and their builders.
- The PE parsing inside `pefile`: headers, sections, RVA translation and descriptor walking. Its outcome is the input `PeLoad`: a format error, or an optional list of descriptors.
- The filesystem: whether the path names a file is a boolean input. The messages use the path string as given, without `Path` normalisation.
- Unicode: names are treated as already-decoded ASCII text. `lower()`, `upper()` and `strip()` act on ASCII letters and ASCII whitespace only.
- PeParser.DllKey: `bytes.decode(errors="ignore")` is not modelled, so the case of a non-empty byte name that decodes to nothing (which the source would key as `""`) is outside the model.
- PeParser.FuncName: for the same reason, a non-empty byte name that decodes to nothing is outside the model.
- Ordinal width: ordinals are non-negative integers; the library's 16-bit width is not modelled.
- Exceptions other than the two named errors, and the catch-all handler of the front end.
