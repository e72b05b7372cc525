# fintrack — a Dafny model of the personal-expense tracker's core

fintrack keeps personal expenses and monthly budgets. The FastAPI back end
(`fintracker/app/routes.py`) does several jobs. It imports bank-statement text that the
client sends base64-encoded; each line of that text has the form
`dd/mm/yyyy description amount currency`. It stores period budgets made of categorised
items with tags. It summarises spending against each budget, converting USD at the
budget's exchange rate. It lists the known periods and categories. It re-categorises a
period's expenses by matching item tags inside descriptions.

The React client has two parts. `App` (`web-ui/src/App.js`) shows the CRC and USD totals
of every expense. `ExpensesList` (`web-ui/src/components/ExpensesList.js`) is written to
fetch, filter and date-sort a period's expenses, report their totals through a callback,
add single expenses and send the import text. Its period, totals callback and refresh
counter are props (`selectedPeriod`, `onTotalsChange`, `refreshTrigger`), and the model
takes them as method parameters. `App` mounts it without any props, so in this program
only some of its branches are reachable; "## Left out" says which.

The Dafny modules follow that structure:

| module | file | models |
|---|---|---|
| `Wrappers`, `Records` | wrappers.dfy, records.dfy | Option/Result; the stored documents (expense, budget, item, exchange rate, HTTP error) |
| `Text` | text.dfy | Python `str.split()`, `str.splitlines()`, `str.join`, `str.split(c)`, ASCII `lower`, `in` on strings; JavaScript `trim` |
| `Codec` | codec.dfy | UTF-8, base64 as the browser's `btoa` writes it and as Python's `b64decode` reads it |
| `LineParse` | lineparse.dfy | parsing one statement line: `strptime(..., "%d/%m/%Y")`, `float` after removing commas |
| `ImportRules` | import_rules.dfy | the import route as a function of the stored expenses |
| `BudgetRules` | budget_rules.dfy | item validation, the budget summary and the budget details |
| `TagRules` | tag_rules.dfy | the tag-to-category dictionary and the re-categorisation rule |
| `Seqs`, `Sorting`, `Listing` | seqs.dfy, sorting.dfy, listing.dfy | `distinct`, `list.sort`, the periods and categories lists |
| `Routes` | store.dfy | the routes as methods of a `Store` class holding the two collections |
| `Aggregate` | aggregate.dfy | the client's category filter, its stable most-recent-first sort and its totals |
| `ExpensesListView` | expenses_list.dfy | the `ExpensesList` component as a class over its React state |
| `AppView` | app.dfy | the `App` component |

Modelling choices:
- The database is the pair of fields of `Routes.Store`. A route that changes it is a method whose
  `ensures` gives the new collections in terms of the `*Rules` functions.
- A route that loops in Python is a method with a `while` loop proved equal to those functions:
  - `Routes.ImportLines`, the import loop;
  - `Routes.BuildTagMap` and `Routes.PutTags`, the tag dictionary;
  - `Routes.Classify`, the first matching tag;
  - `Routes.FillDefaultTags`, the item check that fills in missing `tags` in place;
  - `Sorting.SortStrings`, an in-place sort.
- The JavaScript component state is a class whose handlers use per-field `modifies this`field`
  frames. HTTP responses are method parameters (`None` when the request fails).
- Amounts are exact `real`s and integers are unbounded.

## Model

| member | source | states |
|---|---|---|
| Text.FirstWord | fintracker/app/routes.py:44 | the first whitespace-free run of `line.split()`: a prefix free of whitespace, followed by whitespace or the end |
| Text.Words | fintracker/app/routes.py:44 | every field of `line.split()` is non-empty and free of Python whitespace |
| Text.FirstWordOfConcat | fintracker/app/routes.py:44 | a word followed by whitespace or nothing is read back as that word |
| Text.WordsOfJoin | fintracker/app/routes.py:44-46 | splitting `" ".join(ws)` gives back `ws` when each word is non-empty and free of whitespace |
| Text.LineEnd | fintracker/app/routes.py:38 | the end of the first line: no line break before it, a line break at it (or the end of the text) |
| Text.Lines | fintracker/app/routes.py:38 | no line of `splitlines()` contains a line break |
| Text.LineEndOfConcat | fintracker/app/routes.py:38 | a line followed by a break ends exactly where the break starts |
| Text.LinesOfTerminated | fintracker/app/routes.py:38 | `splitlines()` of newline-terminated lines gives back those lines |
| Text.SplitOn | web-ui/src/components/ExpensesList.js:187 | `split(c)` gives at least one part, no part contains `c`, and exactly one part (the text itself) iff `c` does not occur |
| Text.SplitOnConcat | web-ui/src/components/ExpensesList.js:187 | splitting `a + c + b` with `c` not in `a` gives `a` followed by the parts of `b` |
| Text.SplitOnThree | web-ui/src/components/ExpensesList.js:187 | three separator-free pieces joined by the separator split back into those three pieces |
| Text.JoinSplitOn | web-ui/src/components/ExpensesList.js:187 | joining the parts of `split(c)` with `c` restores the text |
| Text.Join | fintracker/app/routes.py:46 | `sep.join(parts)`: the parts with `sep` between neighbours; `WordsOfJoin` and `JoinSplitOn` state which splits it inverts |
| Text.Trim | web-ui/src/components/ExpensesList.js:271 | `trim()`: both ends stripped of JavaScript whitespace; `TrimEmptyIffBlank` states when nothing is left |
| Text.TrimStart | web-ui/src/components/ExpensesList.js:271 | the result is empty or starts with a non-whitespace character |
| Text.TrimEnd | web-ui/src/components/ExpensesList.js:271 | the result is empty or ends with a non-whitespace character |
| Text.TrimStartEmpty | web-ui/src/components/ExpensesList.js:271 | trimming the start leaves nothing iff every character is whitespace |
| Text.TrimEndEmpty | web-ui/src/components/ExpensesList.js:271 | trimming the end leaves nothing iff every character is whitespace |
| Text.TrimEmptyIffBlank | web-ui/src/components/ExpensesList.js:271 | `!text.trim()` holds exactly when the text is blank |
| Text.LowerChar | fintracker/app/routes.py:260-267 | upper-case ASCII letters become lower case; every other character is kept |
| Text.Lower | fintracker/app/routes.py:260-267 | `lower()` keeps the length and lowers every character |
| Text.LowerIdempotent | fintracker/app/routes.py:260-267 | lowering twice is lowering once |
| Text.IsSubstring | fintracker/app/routes.py:273 | Python `t in s`: `t` occurs at some position of `s`, the empty string everywhere; `FirstMatch` and `EmptyTagMatchesAll` use it |
| Codec.EncodeChar | web-ui/src/components/ExpensesList.js:284 | one code point takes 1 to 4 UTF-8 bytes, and one byte exactly when it is ASCII |
| Codec.Utf8Encode | web-ui/src/components/ExpensesList.js:284 | UTF-8 never shortens a text and is empty only for the empty text |
| Codec.DecodeFirst | fintracker/app/routes.py:34 | a decoded code point consumes between 1 and all of the remaining bytes |
| Codec.DecodeFirstOfEncodeChar | fintracker/app/routes.py:34 | the strict UTF-8 decoder reads back the code point the encoder wrote, and its length |
| Codec.Utf8Decode | fintracker/app/routes.py:34 | `bytes.decode("utf-8")` one well-formed sequence at a time, `None` where Python raises; `Utf8RoundTrip` inverts `Utf8Encode` with it |
| Codec.DecodeTwoBytes | fintracker/app/routes.py:34 | a code point from U+0080 to U+07FF is read back from its two bytes |
| Codec.DecodeThreeBytes | fintracker/app/routes.py:34 | a code point from U+0800 to U+FFFF outside the surrogates is read back from its three bytes |
| Codec.DecodeFourBytes | fintracker/app/routes.py:34 | a code point above U+FFFF is read back from its four bytes |
| Codec.Utf8RoundTrip | fintracker/app/routes.py:34 | `decode("utf-8")` of the UTF-8 of a text gives that text |
| Codec.Digit | web-ui/src/components/ExpensesList.js:284 | a base64 digit is ASCII and never the pad character |
| Codec.DigitValue | fintracker/app/routes.py:34 | every value is 0 to 64, and a value below 64 is the index the encoder writes that character for |
| Codec.DigitValueOfDigit | fintracker/app/routes.py:34 | the decoder's table inverts the encoder's alphabet |
| Codec.DigitValueOutsideAlphabet | fintracker/app/routes.py:34 | exactly the characters outside the base64 alphabet get the value 64, which the non-strict decoder skips |
| Codec.Base64Encode | web-ui/src/components/ExpensesList.js:284 | `btoa` writes 4 characters for every started group of 3 bytes |
| Codec.Quad | web-ui/src/components/ExpensesList.js:284 | the four digits `btoa` writes for a full group of three bytes; `A2bOfQuad` decodes them |
| Codec.OneByteTail | web-ui/src/components/ExpensesList.js:284 | the final group for one leftover byte: two digits and `==`; `A2bOfOneByteTail` decodes it |
| Codec.TwoByteTail | web-ui/src/components/ExpensesList.js:284 | the final group for two leftover bytes: three digits and `=`; `A2bOfTwoByteTail` decodes it |
| Codec.A2b | fintracker/app/routes.py:34 | CPython's non-strict `a2b_base64`: skips non-alphabet characters, stops at a complete pad, fails on an incomplete group; `A2bOfBase64Encode` inverts `Base64Encode` with it |
| Codec.B64Decode | fintracker/app/routes.py:34 | `b64decode` on a `str`: fails on non-ASCII text, otherwise `A2b`; `Base64EncodeIsAscii` shows the client's text always passes the check |
| Codec.Base64EncodeIsAscii | fintracker/app/routes.py:34 | `btoa`'s output passes the ASCII check of `b64decode` |
| Codec.A2bOfQuad | fintracker/app/routes.py:34 | a full group of four digits decodes to its three bytes and decoding continues |
| Codec.A2bOfOneByteTail | fintracker/app/routes.py:34 | a final group with two pads decodes to its one byte |
| Codec.A2bOfTwoByteTail | fintracker/app/routes.py:34 | a final group with one pad decodes to its two bytes |
| Codec.A2bOfBase64Encode | fintracker/app/routes.py:34 | Python's base64 decoder reads back every byte string `btoa` wrote |
| Codec.EncodeImportText | web-ui/src/components/ExpensesList.js:284 | `btoa(unescape(encodeURIComponent(text)))`: base64 of the UTF-8 bytes; `ImportTextRoundTrip` gives its inverse |
| Codec.DecodeImportText | fintracker/app/routes.py:34 | `b64decode(raw).decode("utf-8")`, `None` where either step raises; `ImportTextRoundTrip` shows it inverts the client's encoding |
| Codec.ImportTextRoundTrip | fintracker/app/routes.py:33-36 | the text the client encodes is decoded to the same text, and the encoding is empty only for the empty text |
| LineParse.Pow10 | fintracker/app/routes.py:45 | powers of ten are positive |
| LineParse.ParseDate | fintracker/app/routes.py:45 | `strptime(..., "%d/%m/%Y")` accepts only real calendar days, and only with slashes |
| LineParse.RemoveCommas | fintracker/app/routes.py:47 | `replace(",", "")` leaves no comma |
| LineParse.ParseUnsigned | fintracker/app/routes.py:47 | an unsigned decimal is never negative |
| LineParse.PointValue | fintracker/app/routes.py:47 | the value of `whole.frac` is never negative |
| LineParse.ParseUnsignedChars | fintracker/app/routes.py:47 | an accepted unsigned decimal holds only digits and points |
| LineParse.ParseDecimalNoSlash | fintracker/app/routes.py:47 | `float` refuses any text with a slash, such as a date |
| LineParse.ParseDecimal | fintracker/app/routes.py:47 | `float(t)`: an optional `-` (negated) or `+`, then an unsigned decimal; `ParseDecimalNoSlash` and `ParseAmountOfFormat` characterise it |
| LineParse.ParseAmount | fintracker/app/routes.py:47 | `float(t.replace(",", ""))`; `ParseAmountIgnoresComma` and `ParseAmountOfFormat` characterise it |
| LineParse.ParseTokens | fintracker/app/routes.py:44-48 | date from `parts[0]`, amount from `parts[-2]`, currency `parts[-1]`, description the space-joined middle; `ParseTokensOfFields` and `TwoTokensNeverParse` characterise it |
| LineParse.ParseLine | fintracker/app/routes.py:44-48 | the tokens of `line.split()` parsed by `ParseTokens`; `ParseLineOfFormat` shows every written line reads back |
| LineParse.RemoveCommasKeeps | fintracker/app/routes.py:47 | removing commas keeps every other character |
| LineParse.DigitChar | fintracker/app/routes.py:45 | the digit character for 0 to 9 has that value |
| LineParse.Padded | fintracker/app/routes.py:45 | a zero-padded numeral has the given width, only digits, and the number's value |
| LineParse.Decimal | fintracker/app/routes.py:47 | a decimal numeral is non-empty, only digits, and has the number's value |
| LineParse.ParseDateOfFormat | fintracker/app/routes.py:45 | every calendar day written `dd/mm/yyyy` is read back as that day |
| LineParse.RemoveCommasNoop | fintracker/app/routes.py:47 | a text without commas is kept |
| LineParse.ParseAmountIgnoresComma | fintracker/app/routes.py:47 | a thousands comma anywhere does not change the amount read |
| LineParse.RemoveCommasOfConcat | fintracker/app/routes.py:47 | comma removal distributes over concatenation |
| LineParse.ParseUnsignedOfPoint | fintracker/app/routes.py:47 | `whole.frac` is read as its decimal value |
| LineParse.ParseAmountOfFormat | fintracker/app/routes.py:47 | an amount written with two decimals is read back as that many cents |
| LineParse.FormattedFieldsAreTokens | fintracker/app/routes.py:44 | a written date and amount are single fields of `split()` |
| LineParse.ParseTokensOfFields | fintracker/app/routes.py:44-48 | fields date, words, amount and currency give that date, the words joined by spaces, that amount and that currency |
| LineParse.ParseLineOfTokens | fintracker/app/routes.py:44 | a line of space-joined fields is parsed from exactly those fields |
| LineParse.FieldsAreTokens | fintracker/app/routes.py:44 | the fields of a written line are the words of `split()` |
| LineParse.ParseLineOfFields | fintracker/app/routes.py:44-48 | a line joined from parseable fields is parsed to those fields |
| LineParse.ParseLineOfFormat | fintracker/app/routes.py:44-48 | every line written as `dd/mm/yyyy words amount currency` is parsed back to its date, description, amount and currency |
| LineParse.TwoTokensNeverParse | fintracker/app/routes.py:44-48 | a line of two fields is skipped, because its "amount" field is the date |
| ImportRules.NewExpense | fintracker/app/routes.py:54-75 | the stored record carries exactly the parsed charge |
| ImportRules.IsDuplicate | fintracker/app/routes.py:58-65 | a stored expense with the same date, description, amount and currency exists, in any period and category; `DuplicateOfExtended` and `SkippedOnceInserted` use it |
| ImportRules.LineRecord | fintracker/app/routes.py:44-77 | the document one line adds: `None` when it fails to parse, names another currency or duplicates a stored expense; `AcceptedLineImported` and `SkippedLineIgnored` characterise it |
| ImportRules.ImportBatch | fintracker/app/routes.py:41-77 | at most one record per line; each record has category "Default", the request's period, a CRC or USD currency, no stored duplicate, and comes from one line |
| ImportRules.ImportBatchConcat | fintracker/app/routes.py:41-77 | the lines are handled independently and in order |
| ImportRules.AcceptedLineImported | fintracker/app/routes.py:41-77 | a parseable non-duplicate line in CRC or USD yields a record in the batch, at its place |
| ImportRules.SkippedLineIgnored | fintracker/app/routes.py:51-77 | an unparseable line or one in another currency changes nothing |
| ImportRules.RepeatedLineImportedTwice | fintracker/app/routes.py:58-65 | duplicates are checked only against the store, so a line given twice in one text is inserted twice |
| ImportRules.NothingAccepted | fintracker/app/routes.py:80-81 | a text with no acceptable line inserts nothing |
| ImportRules.DuplicateOfExtended | fintracker/app/routes.py:58-65 | a duplicate stays a duplicate when more expenses are stored |
| ImportRules.SkippedOnceInserted | fintracker/app/routes.py:58-65 | a line whose record was stored is skipped afterwards, whatever the period |
| ImportRules.ReimportInsertsNothing | fintracker/app/routes.py:58-81 | importing the same text again inserts nothing |
| ImportRules.ImportRequestErrors | fintracker/app/routes.py:28-36 | the request fails exactly when a field is missing or empty or the text is not base64 UTF-8, and then with 400 |
| ImportRules.ImportRequest | fintracker/app/routes.py:28-81 | 400 for a missing or empty field or a failed decode, else the batch of `splitlines()`; `ImportRequestErrors` and `ClientPayloadAccepted` characterise it |
| ImportRules.ClientPayloadAccepted | fintracker/app/routes.py:28-38 | a non-empty period and the client's encoding of a non-empty text are accepted and imported line by line |
| ImportRules.FormattedLineImported | fintracker/app/routes.py:41-75 | a written line in CRC or USD that is not stored yet is imported as exactly that expense |
| BudgetRules.StoredItem | fintracker/app/routes.py:97-102 | the stored item keeps category, amount and currency and holds `tags`, `[]` when absent |
| BudgetRules.ValidItems | fintracker/app/routes.py:97-102 | the items are accepted iff every item has category, amount and currency, and then stored one for one |
| BudgetRules.StoredRate | fintracker/app/routes.py:91-109 | an omitted `exchangeRate` is stored as null, never as absent |
| BudgetRules.SummaryEntries | fintracker/app/routes.py:137-162 | one entry per item, in order, with the item's amount, its converted total and the difference |
| BudgetRules.CurrencySum | fintracker/app/routes.py:142-145 | the `$sum` of one currency group of the matched period and category; `CurrencySumConcat` and `CurrencySumNone` characterise it |
| BudgetRules.CategoryTotal | fintracker/app/routes.py:142-153 | the converted total: other currencies as they are, USD times the rate; `CategoryTotalConcat` and `CategoryTotalOfAppend` characterise it |
| BudgetRules.Summary | fintracker/app/routes.py:127-164 | the route with a null rate read as 1: 404 without a budget, else `SummaryEntries`; `Routes.Store.BudgetSummary` returns it |
| BudgetRules.SummaryAsWritten | fintracker/app/routes.py:127-164 | the route as written, 500 when a null rate meets a USD group; `SummaryAsWrittenAgrees` and `SummaryNullRateFails` relate it to `Summary` |
| BudgetRules.SummaryAsWrittenAgrees | fintracker/app/routes.py:127-164 | the summary as written equals the corrected one whenever the stored rate is not null |
| BudgetRules.SummaryNullRateFails | fintracker/app/routes.py:134-151 | a budget upserted without a rate and a USD expense make the summary as written fail with 500, where the corrected summary converts at 1 |
| BudgetRules.CurrencySumConcat | fintracker/app/routes.py:142-145 | the `$sum` of a group adds over a split of the collection |
| BudgetRules.CategoryTotalConcat | fintracker/app/routes.py:148-153 | the converted total adds over a split of the collection |
| BudgetRules.CategoryTotalNone | fintracker/app/routes.py:142-153 | a category with no expense in the period totals 0 |
| BudgetRules.CurrencySumNone | fintracker/app/routes.py:142-145 | an empty group sums to 0 |
| BudgetRules.CategoryTotalOfAppend | fintracker/app/routes.py:148-153 | one more expense adds its amount, times the rate when in USD, if it is in the period and category, and nothing otherwise |
| BudgetRules.DetailsRate | fintracker/app/routes.py:189 | a missing rate is reported as 600, a stored one (null included) as stored |
| BudgetRules.BudgetDetails | fintracker/app/routes.py:177-191 | 404 iff no budget for the period, else its period, rate and items |
| BudgetRules.MissingRateDefaults | fintracker/app/routes.py:134-189 | a budget without a rate converts at 1 in the summary but is reported as 600 in the details |
| Seqs.Distinct | fintracker/app/routes.py:169 | `distinct` keeps exactly the values present, each once |
| Seqs.DistinctOfDistinct | fintracker/app/routes.py:169 | a list without repeats is its own `distinct` |
| Seqs.NoDupsMultiplicity | fintracker/app/routes.py:169 | a list without repeats holds each value at most once |
| Seqs.NoDupsOfPermutation | fintracker/app/routes.py:173 | reordering keeps a list free of repeats |
| Sorting.LessIrreflexive | fintracker/app/routes.py:173 | string order is irreflexive |
| Sorting.LessTransitive | fintracker/app/routes.py:173 | string order is transitive |
| Sorting.LessTotal | fintracker/app/routes.py:173 | any two strings are equal or ordered |
| Sorting.Less | fintracker/app/routes.py:173 | Python's `<` on `str`: code point by code point, a proper prefix first; `LessIrreflexive`, `LessTransitive` and `LessTotal` show it is a strict total order |
| Sorting.InOrderTotal | fintracker/app/routes.py:173 | of two strings, at least one may stand before the other in an ascending or a descending list (both, when they are equal) |
| Sorting.InOrderTransitive | fintracker/app/routes.py:173 | the order a sort establishes is transitive |
| Sorting.SortedDistinctIsStrict | fintracker/app/routes.py:169-173 | a sorted list without repeats is strictly sorted |
| Sorting.SortStrings | fintracker/app/routes.py:173 | `list.sort` (with `reverse`) leaves the list sorted and a permutation of itself |
| Sorting.Sink | fintracker/app/routes.py:173 | one pass of the sort extends the sorted prefix by one element and keeps the multiset of the list |
| Listing.PeriodField | fintracker/app/routes.py:169 | the `period` of every expense, in order |
| Listing.CategoryField | fintracker/app/routes.py:232 | the `category` of every expense, in order |
| Listing.Present | fintracker/app/routes.py:235 | the comprehension keeps exactly the non-null values other than the excluded one, and keeps a list free of repeats |
| Listing.KnownPeriods | fintracker/app/routes.py:169-172 | the distinct non-null periods; `KnownPeriodsRule` characterises it |
| Listing.KnownCategories | fintracker/app/routes.py:232-235 | the distinct non-null categories other than "N/A"; `KnownCategoriesRule` characterises it |
| Listing.KnownPeriodsRule | fintracker/app/routes.py:169-172 | the periods listed are each listed once, and are exactly the periods some expense has |
| Listing.KnownCategoriesRule | fintracker/app/routes.py:232-235 | the categories listed are each listed once, and are exactly the categories other than "N/A" that some expense has |
| TagRules.Keys | fintracker/app/routes.py:272 | the keys of the dictionary, in insertion order |
| TagRules.Get | fintracker/app/routes.py:255-260 | `d[k]` on the dict, or `None`; `PutGet` and `PutAllGet` characterise it |
| TagRules.Put | fintracker/app/routes.py:260 | `d[k] = v`; `PutKeys` and `PutGet` characterise it |
| TagRules.PutKeys | fintracker/app/routes.py:260 | assigning a new key appends it; assigning an existing key keeps its position |
| TagRules.PutGet | fintracker/app/routes.py:260 | after an assignment the key maps to the new category and every other key is unchanged |
| TagRules.ItemEntries | fintracker/app/routes.py:256-260 | one assignment per tag of the item, lower-cased, to the item's category |
| TagRules.PutAll | fintracker/app/routes.py:255-260 | the dict a run of assignments leaves; `PutAllKeys` and `PutAllGet` characterise it |
| TagRules.TagMap | fintracker/app/routes.py:255-260 | `tag_to_category` for a budget's items; `TagMapLowercase`, `TagMapKeysDistinct` and `Routes.BuildTagMap` characterise it |
| TagRules.PutAllKeys | fintracker/app/routes.py:255-260 | the dictionary's keys are the distinct tags in order of first assignment |
| TagRules.PutAllGet | fintracker/app/routes.py:255-260 | each tag maps to the category of its last assignment |
| TagRules.TagMapLowercase | fintracker/app/routes.py:260 | every key of the dictionary is lower case |
| TagRules.AssignmentsLowercase | fintracker/app/routes.py:256-260 | every assigned tag is lower case |
| TagRules.TagMapKeysDistinct | fintracker/app/routes.py:255-260 | no tag occurs twice among the keys |
| TagRules.FirstMatch | fintracker/app/routes.py:271-275 | a category is found iff some tag occurs in the description, and it is the category of a matching tag |
| TagRules.Categorize | fintracker/app/routes.py:266-279 | the category of the first tag in the lowered description, else "Default"; `CategorizeRule` and `CategorizeDefault` characterise it |
| TagRules.CategorizeRule | fintracker/app/routes.py:266-279 | the first tag, in insertion order, that occurs in the lower-cased description decides the category |
| TagRules.CategorizeDefault | fintracker/app/routes.py:277-279 | a description containing no tag gets "Default" |
| TagRules.EmptyTagMatchesAll | fintracker/app/routes.py:273 | an empty first tag matches every description |
| TagRules.Recategorize | fintracker/app/routes.py:266-287 | each expense is replaced by its re-categorised self, position by position |
| TagRules.OnlyCountedChange | fintracker/app/routes.py:250-287 | expenses of other periods are untouched, the period's expenses get their new category, and only the category changes |
| TagRules.UpdateCount | fintracker/app/routes.py:263-287 | `updated_count`: the period's expenses whose category differs from the new one; `UpdateCountBound` and `UpdateCountZero` characterise it |
| TagRules.PeriodCount | fintracker/app/routes.py:292 | `total_expenses`, the number of expenses in the period; `UpdateCountBound` bounds `updated_count` by it |
| TagRules.UpdateCountBound | fintracker/app/routes.py:263-292 | `updated_count` never exceeds `total_expenses` |
| TagRules.UpdateCountZero | fintracker/app/routes.py:282-287 | when no category differs, nothing is counted |
| TagRules.RecategorizeIdempotent | fintracker/app/routes.py:240-293 | a second recalculation with the same budget updates nothing and changes nothing |
| Routes.WithDefaultTags | fintracker/app/routes.py:100-102 | adding the default `tags` keeps the item valid and stores the same item |
| Routes.FillDefaultTags | fintracker/app/routes.py:97-102 | the loop succeeds iff every item has the required keys, and then fills in `tags` where absent |
| Routes.ValidateItems | fintracker/app/routes.py:97-102 | the loop accepts and stores exactly what `ValidItems` does |
| Routes.ImportLines | fintracker/app/routes.py:38-77 | the import loop builds exactly `ImportBatch` |
| Routes.BuildTagMap | fintracker/app/routes.py:255-260 | the nested loop builds exactly the dictionary `TagMap` |
| Routes.PutTags | fintracker/app/routes.py:258-260 | the inner loop assigns one item's tags on top of the dictionary so far |
| Routes.PutAllStep | fintracker/app/routes.py:258-260 | assigning one more tag on top of the dictionary so far gives the dictionary of the longer list of assignments |
| Routes.Classify | fintracker/app/routes.py:267-279 | the loop with `break` finds exactly `Categorize`'s category |
| Routes.Store.constructor | fintracker/app/utils.py:8-11 | the database handle `get_db` returns: a store holding the given collections |
| Routes.Store.Import | fintracker/app/routes.py:23-83 | 400 with nothing stored, or the batch appended and its size reported; budgets untouched |
| Routes.Store.Upsert | fintracker/app/routes.py:85-114 | 400 without a period or valid items; otherwise the period's budget is set to the stored items and rate, and `matched_count` is 1 iff it existed |
| Routes.Store.Update | fintracker/app/routes.py:193-227 | 400 for invalid items, then 404 for an unknown period; otherwise its items and rate are set and `modified_count` is 1 iff that changed the budget |
| Routes.Store.CategoryTotalOf | fintracker/app/routes.py:142-153 | the aggregation and conversion loop computes exactly `CategoryTotal` |
| Routes.Store.BudgetSummary | fintracker/app/routes.py:127-164 | 404 iff no budget, else the corrected summary |
| Routes.Store.AvailablePeriods | fintracker/app/routes.py:166-175 | strictly descending, and exactly the periods some expense has |
| Routes.Store.AvailableCategories | fintracker/app/routes.py:229-238 | strictly ascending, and exactly the categories other than "N/A" some expense has |
| Routes.Store.Recalculate | fintracker/app/routes.py:240-293 | 404 for an unknown period; 0 updated when it has no expenses; otherwise the expenses are re-categorised and both counts reported |
| Aggregate.ShownCategory | web-ui/src/components/ExpensesList.js:160 | `expense.category \|\| 'N/A'`: never empty, and the category itself when set |
| Aggregate.Filter | web-ui/src/components/ExpensesList.js:158-161 | no longer than the list, and every kept expense's shown category is selected |
| Aggregate.FilterConcat | web-ui/src/components/ExpensesList.js:158-161 | filtering keeps the relative order of the expenses |
| Aggregate.FilterMembership | web-ui/src/components/ExpensesList.js:155-161 | with a selection, an expense is kept iff its shown category is selected; with none, all are kept |
| Aggregate.FilterByCategories | web-ui/src/components/ExpensesList.js:155-162 | everything when nothing is selected, else `Filter`; `FilterMembership` characterises it |
| Aggregate.Without | web-ui/src/components/ExpensesList.js:719 | `filter(cat => cat !== x)` keeps exactly the other values |
| Aggregate.WithoutAbsent | web-ui/src/components/ExpensesList.js:719 | filtering out a value that is absent keeps the list |
| Aggregate.Insert | web-ui/src/components/ExpensesList.js:118-120 | inserting adds exactly one element |
| Aggregate.SortByDate | web-ui/src/components/ExpensesList.js:118-120 | sorting keeps the length |
| Aggregate.InsertLowerBound | web-ui/src/components/ExpensesList.js:118-120 | inserting keeps a lower bound on the dates |
| Aggregate.InsertPermutes | web-ui/src/components/ExpensesList.js:118-120 | inserting adds exactly the new expense |
| Aggregate.InsertSorted | web-ui/src/components/ExpensesList.js:118-120 | inserting into a most-recent-first list keeps it most recent first |
| Aggregate.SortByDateSorted | web-ui/src/components/ExpensesList.js:118-120 | the sort leaves the list most recent first and a permutation of itself |
| Aggregate.InsertOnDate | web-ui/src/components/ExpensesList.js:118-120 | an inserted expense goes after the others of its date |
| Aggregate.SortByDateStable | web-ui/src/components/ExpensesList.js:118-120 | the sort is stable: the expenses of each date keep their order |
| Aggregate.SortByDateOfSorted | web-ui/src/components/ExpensesList.js:118-120 | an already sorted list is unchanged |
| Aggregate.SortByDateIdempotent | web-ui/src/components/ExpensesList.js:166 | sorting again (as the filter effect does) changes nothing |
| Aggregate.SortByDateInPlace | web-ui/src/components/ExpensesList.js:118-120 | `Array.prototype.sort` with the date comparator rearranges the array into `SortByDate` of its contents |
| Aggregate.SortByDateStep | web-ui/src/components/ExpensesList.js:118-120 | inserting the next element into the sorted prefix gives the sort of the longer prefix |
| Aggregate.InsertPlaced | web-ui/src/components/ExpensesList.js:118-120 | inserting lands after the last element whose date is not earlier and before the later ones, which shift up by one |
| Aggregate.InsertAt | web-ui/src/components/ExpensesList.js:118-120 | one pass turns the cells up to `i` into `Insert` of the sorted prefix with the element at `i`, and leaves the cells after `i` alone |
| Aggregate.CurrencyTotal | web-ui/src/components/ExpensesList.js:173-178 | the filter-and-reduce sum of one currency; `CurrencyTotalConcat`, `OtherCurrencyIgnored` and `CurrencyTotalInsert` characterise it |
| Aggregate.TotalsOf | web-ui/src/components/ExpensesList.js:173-181 | the `{ CRC, USD }` object passed on, which `App.js` computes the same way; `TotalsOfSorted` and `AppView.App.OnFetch` use it |
| Aggregate.CurrencyTotalConcat | web-ui/src/components/ExpensesList.js:173-178 | the filter-and-reduce total adds over a split of the list |
| Aggregate.OtherCurrencyIgnored | web-ui/src/components/ExpensesList.js:173-178 | expenses in another currency add nothing |
| Aggregate.CurrencyTotalInsert | web-ui/src/components/ExpensesList.js:173-178 | inserting an expense adds its amount to its own currency's total only |
| Aggregate.TotalsOfSorted | web-ui/src/components/ExpensesList.js:166-183 | sorting does not change the totals reported |
| ExpensesListView.ParseFormDate | web-ui/src/components/ExpensesList.js:228 | a date input's `yyyy-mm-dd` is accepted only for a real calendar day |
| ExpensesListView.ParseFormDateOfFormat | web-ui/src/components/ExpensesList.js:228 | every calendar day a date input holds is read as that day |
| ExpensesListView.Incomplete | web-ui/src/components/ExpensesList.js:220 | some required form field is empty; `HandleAddExpense` warns exactly then |
| ExpensesListView.RequestOf | web-ui/src/components/ExpensesList.js:227-234 | the request body of a complete form, `None` where `toISOString` raises; `HandleAddExpense` sends it |
| ExpensesListView.SortResponse | web-ui/src/components/ExpensesList.js:118-120 | the in-place sort of a fetched list yields `SortByDate` of it |
| ExpensesListView.ImportPayloadAccepted | web-ui/src/components/ExpensesList.js:271-289 | whatever the handler sends, the import route accepts and imports the dialog's text line by line |
| ExpensesListView.AddChoicesOfServerList | web-ui/src/components/ExpensesList.js:719 | the add dialog offers exactly the server's categories other than "N/A", and the server's list as is when it has no "N/A" |
| ExpensesListView.WithoutAbsentAfter | web-ui/src/components/ExpensesList.js:719 | the "N/A" put in front of a server list without "N/A" is removed again |
| ExpensesListView.ExpensesList.constructor | web-ui/src/components/ExpensesList.js:35-64 | the initial state: empty lists, loading, closed dialogs, default form, closed notification |
| ExpensesListView.ExpensesList.ShowNotification | web-ui/src/components/ExpensesList.js:67-73 | opens the notification with the message and the severity, "success" by default |
| ExpensesListView.ExpensesList.HideNotification | web-ui/src/components/ExpensesList.js:75-77 | closes it, keeping message and severity |
| ExpensesListView.ExpensesList.ReceiveCategories | web-ui/src/components/ExpensesList.js:97-106 | "N/A" then the server's list; a failed fetch changes nothing |
| ExpensesListView.ExpensesList.AddChoices | web-ui/src/components/ExpensesList.js:719 | exactly the available categories other than "N/A" |
| ExpensesListView.ExpensesList.HandleCategoryChange | web-ui/src/components/ExpensesList.js:185-188 | a string value is split on commas, a list is taken as is |
| ExpensesListView.ExpensesList.ClearFilters | web-ui/src/components/ExpensesList.js:190-192 | no category selected |
| ExpensesListView.ExpensesList.FetchExpenses | web-ui/src/components/ExpensesList.js:109-130 | no period: nothing; else loading ends, and on success both lists are the sorted response |
| ExpensesListView.ExpensesList.RefreshExpenses | web-ui/src/components/ExpensesList.js:133-151 | only with a period and a non-zero trigger, and on success, both lists become the sorted response |
| ExpensesListView.ExpensesList.FilterEffect | web-ui/src/components/ExpensesList.js:154-169 | with a selection the shown list is the sorted filter of the expenses; with none the expenses themselves are sorted in place and shown |
| ExpensesListView.ExpensesList.HandleExpenseChange | web-ui/src/components/ExpensesList.js:211-216 | sets the one field named |
| ExpensesListView.ExpensesList.OpenDialog | web-ui/src/components/ExpensesList.js:194-205 | opens the dialog with a fresh form for today, in the selected period or the current month |
| ExpensesListView.ExpensesList.CloseDialog | web-ui/src/components/ExpensesList.js:207-209 | closes the dialog |
| ExpensesListView.ExpensesList.HandleAddExpense | web-ui/src/components/ExpensesList.js:218-257 | an incomplete form warns and sends nothing; otherwise sends the parsed form, and on success shows the refetched list sorted, confirms and closes, else reports the error; loading ends |
| ExpensesListView.ExpensesList.OpenImportDialog | web-ui/src/components/ExpensesList.js:260-263 | opens the import dialog with an empty text |
| ExpensesListView.ExpensesList.CloseImportDialog | web-ui/src/components/ExpensesList.js:265-268 | closes it and empties the text |
| ExpensesListView.ExpensesList.SetImportText | web-ui/src/components/ExpensesList.js:779 | the text typed |
| ExpensesListView.ExpensesList.HandleImport | web-ui/src/components/ExpensesList.js:270-313 | a blank text, then a missing period, warn and send nothing; otherwise sends the period and the base64 of the UTF-8 text, and on success shows the server's message (or the default), the sorted list and closes, else reports the error |
| ExpensesListView.ExpensesList.ImportDisabled | web-ui/src/components/ExpensesList.js:837 | the Import button is disabled iff importing or the text is blank |
| AppView.App.constructor | web-ui/src/App.js:34 | totals start at zero |
| AppView.App.OnFetch | web-ui/src/App.js:36-51 | on success the totals are the CRC and USD sums of every expense; on failure they are kept |

## Left out

- HTTP, FastAPI, MongoDB and `async`: the collections are fields, and each route is one atomic step. `fintracker/app/models.py`, `utils.py`, `main.py` and `schemas.py` are not part of this model.
- `read_root` and `get_all_budgets`: routes that only pass data to or from the database.
- `fetch_expenses` (routes.py:14-16) calls `get_expenses(db, period)`, but `get_expenses` (models.py:4) takes only `db`, so every `GET /expenses` raises `TypeError` and answers 500. The route is not modelled. As written, the `response` of `ExpensesListView.ExpensesList.FetchExpenses`, `RefreshExpenses` and `AppView.App.OnFetch`, and the `refetch` of `HandleAddExpense` and `HandleImport`, are therefore always `None`. Their `Some` branches describe the component for a working list route.
- `create_expense` (routes.py:18-21) validates the body into `schemas.Expense` (schemas.py:5-10), which has no `period` field, so the period the add form sends is dropped and the stored expense belongs to no period. The route is not modelled; the reply is a parameter of `HandleAddExpense`.
- TagRules.Categorize: `expense.get("description", "")` defaults a missing description to the empty string. A document without `description` is not modelled: the import always sets one, and `schemas.Expense` requires one for `create_expense`.
- The rules fetch of the client (`/rules/{period}`) and the rendering: they have no route in the back end's core and draw nothing the model can state.
- The order Mongo's `distinct` returns values in is unspecified, so `Listing` works on its own choice of order; only the sorted outputs are promised.
- Floating point: amounts and rates are exact reals, so sums do not round.
- LineParse.ParseAmount: accepts only ASCII `digits[.digits]` or `.digits` with an optional sign. Python's `float` also accepts exponents, `inf`, `nan`, underscores, surrounding whitespace and non-ASCII Unicode decimal digits (`float("١٢")` is 12.0); a line with such an amount is imported by the route and skipped by the model.
- LineParse.ParseDate: `strptime` also accepts non-ASCII Unicode digits; only ASCII digits are modelled.
- Text.Lower: lowers ASCII letters only; Python lowers all Unicode letters, which can change a tag's length.
- BudgetRules.ValidItems: checks only that the keys are present. A key present with a null or non-string value, or an item that is not a dictionary (a `TypeError`, so a 500), is not modelled.
- BudgetRules.ValidItems: extra keys of an item are dropped; the route stores them.
- BudgetRules.StoredRate: an `exchangeRate` that is not a number (a string, say) is not modelled; the rate is `Option<real>`.
- ExpensesListView.RequestOf: `parseFloat` reads the longest numeric prefix of any text, exponents included. The model reads only plain decimals with `ParseDecimal` and sends `None` (JSON null) otherwise, so exponent text such as `1e3`, which a number input accepts and `parseFloat` reads as 1000, is sent as null by the model.
- ExpensesListView.ParseFormDate: JavaScript's `Date` also accepts other formats and times; a date input only yields `yyyy-mm-dd`, and the time of day is not kept.
- ExpensesListView.ExpensesList.HandleAddExpense and HandleImport: the HTTP replies are parameters, not tied to the back end's state. `ImportPayloadAccepted` ties the payload to the import route.
- ExpensesListView.ExpensesList.HandleImport: a reply without a `message` is modelled as the empty message.
- ExpensesListView.ExpensesList.HandleImport: a JavaScript string can hold a lone surrogate, on which `encodeURIComponent` throws, so the handler shows the error notification and sends nothing. Dafny's `char` cannot hold a surrogate, so the promise that every non-blank text with a period is sent does not cover that case.
- `App` mounts `ExpensesList` with no props (App.js:106, the component's only mount), so `selectedPeriod`, `onTotalsChange` and `refreshTrigger` are all `undefined`. The model keeps the props as parameters and covers both branches of each test on them; in this program only the branches without a period and without a callback run:
  - both fetch effects return at once (ExpensesList.js:110 and 134), which is `FetchExpenses` and `RefreshExpenses` with `selectedPeriod == ""`;
  - `handleImportExpenses` always stops at "Please select a period first" (ExpensesList.js:276-279), which is `HandleImport` with `selectedPeriod == ""`;
  - `if (onTotalsChange)` (ExpensesList.js:180) reports no totals. The callback is outside the component, and `Aggregate.TotalsOf` gives the value it would receive;
  - the add form's period falls back to the current month (ExpensesList.js:203), which is `OpenDialog` with `selectedPeriod == ""`. Its refetch asks for `?period=undefined` (ExpensesList.js:239); that reply is the `refetch` parameter of `HandleAddExpense`.
- A server category literally named "N/A" is listed by neither route, so the client's "N/A" entry never clashes with a server entry.

## Findings

| source | as written | input that shows it | evidently intended | confidence | as-written member | corrected member |
|---|---|---|---|---|---|---|
| fintracker/app/routes.py:91-151 | the upsert stores `exchangeRate: null` when the body has none. `budget.get("exchangeRate", 1)` then returns `None`, and `total * None` raises, so the summary answers 500 | a budget for "2024-01" upserted with one CRC "Shopping" item and no `exchangeRate`, plus a USD expense of 10.0 in "Shopping" for "2024-01" | a missing rate converts at 1, as the comment on line 134 says | not executed | BudgetRules.SummaryAsWritten, BudgetRules.SummaryNullRateFails | BudgetRules.Summary, Routes.Store.BudgetSummary |
