# OCR post-processing core, modelled in Dafny

This project models the text-handling core of an OCR pipeline for Kazakh and Russian
business documents (invoices, receipts, payment orders). The OCR engine and the language
model are not part of it. The core turns recognised words into lines, sections and
paragraphs, repairs typical OCR confusions, extracts and normalises invoice fields, and
validates the result:

- `utils/image_tools.py` → `image_tools.dfy` (`ImageTools`): box normalisation from the
  dict, four-point and flat forms, and the expanded, clamped crop box.
- `src/ocr_paddle.py` → `ocr_paddle.dfy` (`OcrPaddle`): character whitelist, the
  digit-in-word fix, Russian text normalisation, box sorting, merging words into lines,
  and the final cleaning.
- `src/post_ocr_corrector.py` → `post_ocr_corrector.dfy` (`PostOcrCorrector`):
  Latin-to-Cyrillic and digit-to-letter repair, canon rules, fuzzy matching against
  headings and terms, and the `PostCorrector` item pass.
- `src/section_parser.py` → `section_parser.dfy` (`SectionParser`: headings, line
  assembly, paragraphs) and `section_builder.dfy` (`SectionBuilder`: the section stack
  of `build_sections`).
- `src/post_rules.py` → `post_rules.dfy` (`PostRules`), `dates.dfy` (`Dates`: the
  `strptime` formats) and `recognizers.dfy` (`Recognizers`: IBAN, BIC and IIN/BIN patterns).
- `src/post_validate.py` → `post_validate.dfy` (`PostValidate`).
- `src/post_llm.py` → `post_llm.dfy` (`PostLlm`): the rule-based `_fallback` extractor
  and the disabled path of `map_to_fields`.
- `src/pipeline.py` → `pipeline.dfy` (`Pipeline`): box normalisation, the page texts and
  the document type in `run_pipeline`, up to the language-model call.
- Shared modules: `text.dfy` (`Text`: Python string semantics: whitespace, `strip`,
  `split`/`join`, case mapping, `int`/`str` of naturals), `sorting.dfy` (`Sorting`: a stable
  sort and the median) and `seqs.dfy` (`Seqs`: cutting a list into runs).

Pure code is modelled as functions with lemmas. Loops that build lists, dicts or
strings step by step are modelled as methods, proved equal to the function that
specifies them. The digit fix of `ocr_paddle.py` works on an `array`. Regular
expressions are explicit recognisers. They follow Python's `re` semantics: leftmost
match, greedy quantifiers with backtracking, and `\b`, `\w`, `\d` over the characters
in `Text`.

The source has two readings where it is defective (see "## Findings"). A
`Reading` parameter (`AsWritten` or `AsIntended`) selects one. `FixedFields`
and `Fallback` are stated for both readings.

## Model

| member | source | states |
|---|---|---|
| ImageTools.Trunc | utils/image_tools.py:16 | `int()` of a float truncates toward zero: the floor for non-negative values, the ceiling for negative ones |
| ImageTools.TruncMonotone | utils/image_tools.py:37-40 | truncation preserves order, so clamping after `int()` keeps the corners ordered |
| ImageTools.MinOf | utils/image_tools.py:15 | `min(xs)` is an element of `xs` and no element is smaller |
| ImageTools.MaxOf | utils/image_tools.py:15 | `max(xs)` is an element of `xs` and no element is larger |
| ImageTools.Get | utils/image_tools.py:21-24 | `d.get(key, d.get(alias, 0))`: the key's value, else the alias's, else 0 |
| ImageTools.PointsToLtrb | utils/image_tools.py:12-16 | succeeds exactly on a non-empty list of points that each have at least two coordinates; the box is the truncated minima and maxima |
| ImageTools.PointsToLtrbSpans | utils/image_tools.py:12-16 | every point's truncated coordinates lie inside the returned box (the same box `_poly_to_ltrb` of `pipeline.py` computes) |
| ImageTools.BboxToLtrb | utils/image_tools.py:18-43 | succeeds exactly when the dict, point-list or flat four-number form parses; the result satisfies 0 <= l <= r <= img_w and 0 <= t <= b <= img_h |
| ImageTools.BboxInsideIsKept | utils/image_tools.py:36-43 | a box already inside the image comes back as its truncated corners (clamping and swapping change nothing) |
| ImageTools.DictMatchesFlatList | utils/image_tools.py:19-32 | the dict form {x, y, w, h} (or left/top/width/height) gives the same box as the flat list [x, y, x + w, y + h] |
| ImageTools.SafeCrop | utils/image_tools.py:45-65 | a crop only when the image and the box are present and the box parses; the crop is non-empty and inside the image; for any `expand`, a parsed box gives a crop exactly when the clamped, expanded box is non-empty on both axes |
| ImageTools.SafeCropOfPointBox | utils/image_tools.py:57-65 | an empty box (5,5,5,5) expanded by 2 still gives the crop (3,3,7,7) |
| ImageTools.SafeCropExpands | utils/image_tools.py:57-61 | each side moves out by `expand`, clamped to the image |
| ImageTools.SafeCropOfNonEmpty | utils/image_tools.py:57-65 | a non-empty parsed box always gives a crop, and the crop contains the box |
| ImageTools.SafeCropOfUnsupported | utils/image_tools.py:52-55 | an unsupported box format gives None instead of the ValueError |
| PostRules.DigitRun | src/post_rules.py:12 | the maximal run of digits starting at `p` (`\d+` is greedy) |
| PostRules.LastAmountFrom | src/post_rules.py:12-13 | None exactly when no digit follows `p`; otherwise the start and length of the last `\d+\.?\d*` match, with no digit after it |
| PostRules.NormAmountIsLastNumber | src/post_rules.py:8-13 | None for a missing or empty value; otherwise None exactly when the cleaned text has no digit, and a result is amount-shaped and is the last number match in the cleaned text |
| PostRules.NormAmountOfAmount | src/post_rules.py:8-13 | an already normal amount is returned unchanged |
| PostRules.CleanGroupedAmount | src/post_rules.py:11 | removing spaces and turning the comma into a point maps "a b,c" to "ab.c" |
| PostRules.NormGroupedAmount | src/post_rules.py:8-13 | "a b,c" with digit groups normalises to "ab.c" |
| PostRules.FirstCodeIn | src/post_rules.py:21-24 | the first code of the list that occurs in the text; None exactly when none occurs |
| PostRules.NormCurrencyCases | src/post_rules.py:15-24 | None for a missing or empty value; otherwise one of KZT, USD, EUR, RUB, each exactly when the sign test and the earlier codes fail and the code occurs in `t.upper()` |
| PostRules.UpperNeverHasMisdecodedSign | src/post_rules.py:18-19 | `t.upper()` never contains the mis-decoded sign "â‚¸", so the sign test as written never fires |
| PostRules.NormCurrencyAsWrittenMissesSign | src/post_rules.py:19 | "₸" normalises to None as written, and to "KZT" under the intended sign |
| PostRules.NormCurrencyAgreesWithoutSign | src/post_rules.py:15-24 | on text without "₸" the written and the intended test agree |
| PostRules.NormCurrencyOfCode | src/post_rules.py:21-23 | each of the four codes normalises to itself under both readings |
| PostRules.NormDateOutput | src/post_rules.py:26-38 | every result is the ISO text of a date that one of the five formats or the loose pattern produced |
| PostRules.NormDateShape | src/post_rules.py:26-38 | every result has the shape YYYY-MM-DD; a missing or empty value gives None |
| PostRules.NormDateOfDateText | src/post_rules.py:29-31 | the ISO text of a valid date normalises to itself |
| PostRules.NormDateIdempotent | src/post_rules.py:26-38 | normalising a normalised date changes nothing |
| PostRules.StrptimeDayFirstExample | src/post_rules.py:29-31 | "10.09.2025" parses with "%d.%m.%Y" as 10 September 2025 |
| PostRules.StrptimeIsoRejectsExample | src/post_rules.py:29-33 | "10.09.2025" does not parse with "%Y-%m-%d" |
| PostRules.NormDateExample | src/post_rules.py:26-38 | "10.09.2025" normalises to "2025-09-10" |
| PostRules.NormDateLooseExample | src/post_rules.py:34-37 | "2025-13-45" fails every format and the loose search passes it through unchanged |
| PostRules.RemoveSpaces | src/post_rules.py:43 | `replace(" ", "")` leaves no space |
| PostRules.FirstUnhandled | src/post_rules.py:42-53 | the first key, in the order `fix_fields` reaches them, whose value is a truthy non-string; None exactly when there is none |
| PostRules.TruthyPart | src/post_rules.py:54 | keeps exactly the truthy entries, with their values |
| PostRules.FixedFields | src/post_rules.py:40-54 | raises exactly when a normalised key holds a truthy non-string; every value kept is truthy |
| PostRules.FixedFieldsShapes | src/post_rules.py:40-54 | each normalised key that is kept has its shape (IBAN, BIC, amount, currency code, ISO date, 12 digits); every other key is kept exactly when truthy, unchanged |
| PostRules.FixedFieldsTengeSign | src/post_rules.py:19 | a currency of "₸" is dropped as written and becomes "KZT" as intended |
| PostRules.FixKey | src/post_rules.py:42-53 | one step of `fix_fields`: fails exactly on a truthy non-string, otherwise writes or keeps the fixed value of that key |
| PostRules.FixFields | src/post_rules.py:40-54 | the step-by-step update of the copied dict returns what `FixedFields` specifies, including the error |
| PostRules.FixedValueOfShape | src/post_rules.py:40-53 | a value that already has its key's shape is left as it is |
| PostRules.FixedMapOfFixed | src/post_rules.py:40-54 | an output of `fix_fields` is a fixed point of it |
| PostRules.FixFieldsIdempotent | src/post_rules.py:40-54 | `fix_fields(fix_fields(d)) == fix_fields(d)` |
| Recognizers.SearchFrom | src/post_rules.py:43-44 | `re.search`: the leftmost position at or after `p` where the pattern matches; no match before it; None exactly when it matches nowhere |
| Recognizers.KzIbanAt | src/post_rules.py:5 | `\bKZ\d{20}\b` matches 22 characters |
| Recognizers.BicAt | src/post_rules.py:6 | `\b[A-Z]{6}[A-Z0-9]{2}([A-Z0-9]{3})?\b` matches 8 or 11 characters |
| Recognizers.TwelveDigitsAt | src/post_rules.py:52 | `\b\d{12}\b` matches 12 characters |
| Recognizers.IbanFullMatchIsShape | src/post_validate.py:31 | `fullmatch` of the IBAN pattern holds exactly for "KZ" and 20 digits (case-insensitively under `re.I`) |
| Recognizers.BicFullMatchIsShape | src/post_validate.py:42 | `fullmatch` of the BIC pattern holds exactly for the ISO 9362 shape |
| Recognizers.SearchTextIsMatch | src/post_rules.py:43-44 | `m.group(0)` is the text of a match at some position |
| Recognizers.IbanSearchShape | src/post_rules.py:43-44 | a found IBAN is "KZ" and 20 digits |
| Recognizers.BicSearchShape | src/post_rules.py:46-47 | a found BIC has the BIC shape |
| Recognizers.TwelveDigitsSearchShape | src/post_rules.py:52-53 | a found IIN/BIN is 12 digits |
| Recognizers.IbanSearchOfShape | src/post_rules.py:43-44 | searching an IBAN-shaped text finds the whole text |
| Recognizers.BicSearchOfShape | src/post_rules.py:46-47 | searching a BIC-shaped text finds the whole text |
| Recognizers.TwelveDigitsSearchOfShape | src/post_rules.py:52-53 | searching 12 digits finds them all |
| Dates.DaysInMonth | src/post_rules.py:31 | months have 28 to 31 days, 31 exactly for months 1, 3, 5, 7, 8, 10 and 12 |
| Dates.MatchFields | src/post_rules.py:34 | the first match in the regex engine's backtracking order takes one in-range number per field |
| Dates.Strptime | src/post_rules.py:29-31 | `strptime` succeeds only with a valid calendar date (and no unconverted text) |
| Dates.FirstFormat | src/post_rules.py:29-33 | the date of the first format that parses; None exactly when none does |
| Dates.LooseDateAt | src/post_rules.py:34 | a match of `(20\d{2})[-./](\d{1,2})[-./](\d{1,2})` gives a year 2000-2099 and two numbers below 100 |
| Dates.DateTextDigits | src/post_rules.py:37 | the zero-padded text of a date has the shape YYYY-MM-DD and reads back as the same date |
| Dates.StrptimeOfIsoText | src/post_validate.py:12-17 | on YYYY-MM-DD text, "%Y-%m-%d" parses exactly when the date is a valid calendar date |
| Dates.OtherFormatsRejectIsoText | src/post_rules.py:29-33 | the four formats after the first never parse YYYY-MM-DD text |
| Dates.FirstFormatOfIsoText | src/post_rules.py:29-33 | on YYYY-MM-DD text the format loop answers what "%Y-%m-%d" answers |
| Dates.LooseOfIsoText | src/post_rules.py:34-37 | on 20YY-MM-DD text the loose pattern reads the year, month and day back |
| Dates.TryAltsNone | src/post_rules.py:34 | when every branch fails to complete the match, the whole match fails |
| PostValidate.OkDateIsoOfDateText | src/post_validate.py:12-17 | `_ok_date_iso` of a date's ISO text holds exactly when the date is valid |
| PostValidate.AmountIsFloat | src/post_validate.py:57-62 | every amount `norm_amount` can produce is accepted by `float()` |
| PostValidate.FloatTextExample | src/post_validate.py:59 | `float()` accepts "1_5e3" (underscores between digits, an exponent) |
| PostValidate.CommaDecimalIsNotFloat | src/post_validate.py:59 | `float()` rejects digits with one inner comma, such as "12,50" |
| PostValidate.Validation | src/post_validate.py:25-71 | raises exactly when iban, bic or currency is a truthy non-string; otherwise 6 checks when bic is truthy, else 5 |
| PostValidate.ValidateFields | src/post_validate.py:25-71 | the list built by conditional appends equals `Validation`, including the error |
| PostValidate.ValidationRules | src/post_validate.py:25-71 | the rules come in the fixed order: iban_format or iban_present_in_text (by whether iban is truthy), bic_format only for a truthy bic, then date, currency, amount and symbol consistency |
| PostValidate.ValidationLayout | src/post_validate.py:25-71 | each position holds the check of its rule, computed from its own field |
| PostValidate.ValidationVerdicts | src/post_validate.py:29-52 | iban_format ok iff the whole iban is KZ + 20 digits (any case); iban_present_in_text ok iff the text holds one; bic_format ok iff the whole bic has the BIC shape; date ok iff a non-empty date parses as "%Y-%m-%d"; currency_iso ok iff the upper-cased currency is one of the four codes |
| PostValidate.ValidationLastChecks | src/post_validate.py:54-69 | currency_symbol_consistency fails iff the text has "₸" and the currency is non-empty and not KZT; amount_numeric ok iff the amount is truthy and `float()` accepts it |
| PostValidate.FixedIdentifiersPass | src/post_validate.py:29-43 | the iban and bic that `fix_fields` keeps pass their format checks |
| PostValidate.FixedDatePasses | src/post_validate.py:46-48 | a date `fix_fields` keeps has the ISO shape and passes exactly when it is a valid date |
| PostValidate.FixedCurrencyAndAmountPass | src/post_validate.py:51-63 | after `fix_fields`, currency_iso and amount_numeric pass exactly when the key is present |
| PostValidate.FixedOutputValidates | src/post_validate.py:25-71 | validating any output of `fix_fields` raises nothing, and the identifier, currency and amount checks pass whenever their keys are present |
| PostValidate.ValidateFixedFields | src/post_validate.py:25-71 | the same for `validate_fields(fix_fields(raw))` under either reading of the tenge test |
| PostLlm.NormNumSpec | src/post_llm.py:89-90 | `_norm_num` removes ' ' and NBSP and maps ',' to '.', changing nothing else |
| PostLlm.MonthFrom | src/post_llm.py:83-96 | the first genitive month name, in `_RU_MONTHS` order, that occurs at `p` ignoring case, with its month number; None exactly when none occurs |
| PostLlm.RuDateAt | src/post_llm.py:93-98 | a match of the Russian date pattern gives a day 1-31, a month 1-12 and a year 2000-2099 |
| PostLlm.TryParseRuDateShape | src/post_llm.py:92-99 | a result is the zero-padded "20YY-MM-DD" text of such a date |
| PostLlm.AmountSearch | src/post_llm.py:159-161 | the second amount pattern is tried only when the first finds nothing; the number found starts with a digit |
| PostLlm.Amount | src/post_llm.py:159-163 | the intended amount: `_norm_num` of the number group, starting with a digit |
| PostLlm.AmountShape | src/post_llm.py:159-163 | the intended amount is non-empty, starts with a digit and has no separator left |
| PostLlm.AmountOfSearch | src/post_llm.py:163 | as written the stored amount is `_norm_num` of the last group; as intended, of the number group |
| PostLlm.AmountTakesCurrencyWord | src/post_llm.py:161-163 | on "500 тенге" the code as written stores "тенге" as the amount; the intended amount is "500" |
| PostLlm.NoLabelledAmount | src/post_llm.py:159 | a text none of whose characters can begin an amount label has no labelled amount |
| PostLlm.CurrencySpec | src/post_llm.py:165-170 | "KZT" whenever KZT (as a word), ₸ or тенге occurs; otherwise the first USD, EUR or RUB word, upper-cased; otherwise nothing |
| PostLlm.ForeignCodeUpper | src/post_llm.py:168-170 | a code matched ignoring case upper-cases to USD, EUR or RUB |
| PostLlm.ShortDate | src/post_llm.py:175-176 | `^\d{1,2}[./-]\d{1,2}[./-]20\d{2}$` splits into a 1-2 digit day, a 1-2 digit month and a 4 digit year |
| PostLlm.DayFirstReordered | src/post_llm.py:175-177 | a day-first date D.M.20YY is stored as zero-padded 20YY-MM-DD |
| PostLlm.YearFirstKept | src/post_llm.py:178-179 | a year-first match is stored verbatim |
| PostLlm.NumericDateStored | src/post_llm.py:172-179 | every numeric date found is stored either verbatim (year first, three leading digits) or split by the short-date pattern and stored as the YYYY-MM-DD text of its year, month and day |
| PostLlm.DayFirstFieldsAt | src/post_llm.py:172 | a day-first match is a one-or-two-digit day, a separator, a one-or-two-digit month, a separator and a year 20YY, ending where the match ends |
| PostLlm.DayFirstParts | src/post_llm.py:172 | a day-first match is one or two digits, a separator, one or two digits, a separator and a year 20YY |
| PostLlm.FiveParts | src/post_llm.py:175-176 | the short-date pattern splits such a match back into its day, month and year |
| PostLlm.FallbackDateOrder | src/post_llm.py:172-183 | the numeric date wins; the month-name date is used only when no numeric date matches |
| PostLlm.FallbackDateNonEmpty | src/post_llm.py:172-183 | a stored date is never empty |
| PostLlm.Invoice | src/post_llm.py:197-199 | an invoice number is at least three characters, each a word character, '-', '_' or '/' |
| PostLlm.FirstLine | src/post_llm.py:203 | `splitlines()[0]`: the prefix before the first line break |
| PostLlm.LineValue | src/post_llm.py:201-206 | a receiver or payer value is stripped and holds no line break |
| PostLlm.LabelValueShape | src/post_llm.py:201-206 | the first label match gives a stripped one-line value |
| PostLlm.FallbackFields | src/post_llm.py:155-208 | each of the nine keys is present exactly when its search finds something, with what it found; the amount follows the chosen reading |
| PostLlm.PutsFound | src/post_llm.py:157-206 | the nine conditional stores into the empty dict give exactly the found fields |
| PostLlm.Fallback | src/post_llm.py:155-208 | filling the dict in place returns `FallbackFields` |
| PostLlm.FindAmount | src/post_llm.py:159-163 | the amount step stores the amount of the chosen reading |
| PostLlm.FindCurrency | src/post_llm.py:165-170 | the currency step stores `Currency(t)` |
| PostLlm.FindDate | src/post_llm.py:172-183 | the date step stores `FallbackDate(t)` |
| PostLlm.MapToFieldsDisabled | src/post_llm.py:117-119 | a disabled client returns {"fields": the fallback fields} |
| OcrPaddle.KeepAllowed | src/ocr_paddle.py:29-32 | every character of the result is in ALLOWED and the result is no longer than the input |
| OcrPaddle.KeepAllowedIsSubsequence | src/ocr_paddle.py:29-32 | the result is a subsequence of the input |
| OcrPaddle.KeepAllowedAppend | src/ocr_paddle.py:32 | filtering distributes over concatenation |
| OcrPaddle.KeepAllowedOfAllowed | src/ocr_paddle.py:29-32 | text made only of allowed characters comes back unchanged |
| OcrPaddle.DigitFixPrefix | src/ocr_paddle.py:36-42 | after `n` iterations of the loop exactly `n` characters have been decided |
| OcrPaddle.DigitFixPrefixAt | src/ocr_paddle.py:37-42 | each decided character is fixed from its already-rewritten left neighbour and its original right neighbour |
| OcrPaddle.DigitFixedSpec | src/ocr_paddle.py:34-43 | length is kept; each character depends on the rewritten left and original right neighbour; only '0'→'О' and '1'→'І' ever happen |
| OcrPaddle.DigitFixedWithoutLetters | src/ocr_paddle.py:34-43 | a text without letters is unchanged |
| OcrPaddle.DigitFixCascades | src/ocr_paddle.py:37-42 | "А10" becomes "АІО": the rewrite of '1' makes '0' letter-adjacent |
| OcrPaddle.DigitFixNotIdempotent | src/ocr_paddle.py:34-43 | "01А" becomes "0ІА", and a second pass turns that into "ОІА" |
| OcrPaddle.SmartDigitFix | src/ocr_paddle.py:34-43 | the in-place loop over the character array returns `DigitFixed(text)` |
| OcrPaddle.ReplaceLongDashes | src/ocr_paddle.py:51 | en and em dashes become '-', every other character is kept, length is kept |
| OcrPaddle.NormalizeRu | src/ocr_paddle.py:45-53 | empty input is returned as is; the result has single inner spaces, no leading or trailing whitespace and no en or em dash |
| OcrPaddle.NormalizeRuKeepsNonSpace | src/ocr_paddle.py:48-52 | the non-space characters are those of the translated, digit-fixed, dash-replaced text, in order |
| OcrPaddle.PolyToLtrb | src/ocr_paddle.py:79-82 | every point's truncated coordinates lie in the box, and each side is attained by some point |
| OcrPaddle.SortBoxes | src/ocr_paddle.py:85-88 | a permutation of the items |
| OcrPaddle.SortBoxesSpec | src/ocr_paddle.py:85-88 | sorted by (top, left), a permutation, and stable: items with equal keys keep their order |
| OcrPaddle.SortBoxesBoxlessLast | src/ocr_paddle.py:87-88 | when every box top is below the 999999 used for a missing box, no boxed item follows a box-less one |
| OcrPaddle.LineGroupsSplit | src/ocr_paddle.py:96-115 | the groups concatenate back to the input, none is empty, neighbours inside a group are within `y_tol`, and consecutive groups are apart |
| OcrPaddle.GroupLines | src/ocr_paddle.py:98-115 | the grouping loop over `curr` and `lines` returns `LineGroups` |
| OcrPaddle.LineTexts | src/ocr_paddle.py:119-120 | the kept texts are non-empty, normalised and collapsed |
| OcrPaddle.IntMin | src/ocr_paddle.py:133 | `min` of a non-empty list is an element and a lower bound |
| OcrPaddle.IntMax | src/ocr_paddle.py:133 | `max` of a non-empty list is an element and an upper bound |
| OcrPaddle.MergedLineBox | src/ocr_paddle.py:122-133 | the line box is None exactly when no member has a box; otherwise it contains every member box and each side is attained by a member |
| OcrPaddle.MergedLineTextCollapsed | src/ocr_paddle.py:119-120 | the line text is single-spaced with no outer whitespace |
| OcrPaddle.MergeLine | src/ocr_paddle.py:118-135 | the accumulator loop over one line returns `MergedLine(line)` |
| OcrPaddle.MergeTokensToLines | src/ocr_paddle.py:91-136 | empty input gives []; one merged item per line group |
| OcrPaddle.MergeTokens | src/ocr_paddle.py:91-136 | the two loops return `MergeTokensToLines(items, y_tol)` |
| OcrPaddle.CleanedSpec | src/ocr_paddle.py:159-163 | each line occurs as often as in the input, or not at all when its text has at most 2 characters and its confidence is below 0.6 |
| OcrPaddle.CleanedMembers | src/ocr_paddle.py:159-163 | a line is kept exactly when it is an input line that is not dropped |
| OcrPaddle.CleanLines | src/ocr_paddle.py:159-163 | the filtering loop returns `Cleaned(lines)` |
| OcrPaddle.RawItem | src/ocr_paddle.py:149-152 | the box is None exactly when the polygon is empty; the text is normalised |
| OcrPaddle.RawItems | src/ocr_paddle.py:148-152 | one raw item per recognised entry, in order |
| OcrPaddle.Run | src/ocr_paddle.py:138-165 | normalise, sort, merge with `y_tol = 10` and filter, as `RunOutput` states |
| OcrPaddle.RunOutputLines | src/ocr_paddle.py:155-165 | no output line is one the filter drops, and every output text is collapsed |
| PostOcrCorrector.Translate | src/post_ocr_corrector.py:8-11 | length is kept; a character changes exactly when it is one of the 19 mapped Latin letters, which become Cyrillic; no mapped letter remains |
| PostOcrCorrector.TranslateIdempotent | src/post_ocr_corrector.py:83 | translating twice is translating once |
| PostOcrCorrector.NormalizeDashes | src/post_ocr_corrector.py:15 | `RE_DASH.sub("-", s)`: no –, — or − remains, the other characters are kept in order, and dash-free text is unchanged |
| PostOcrCorrector.Normalize | src/post_ocr_corrector.py:83-85 | after stage (b) there is no long dash, whitespace runs are single spaces and there is no outer whitespace |
| PostOcrCorrector.RunLength | src/post_ocr_corrector.py:16 | the maximal run of token characters (or of other characters) at the start of the text |
| PostOcrCorrector.Runs | src/post_ocr_corrector.py:16 | the text cut into alternating token and gap runs that concatenate back to it |
| PostOcrCorrector.TokensAreTokens | src/post_ocr_corrector.py:99 | every token `RE_TOKEN.findall` yields is non-empty and made of token characters |
| PostOcrCorrector.FixToken | src/post_ocr_corrector.py:87-96 | length is kept; only 0, 1 and 3 change, to О, І and З; a token changes only if it has both a digit and a letter, and then none of 0, 1, 3 remains |
| PostOcrCorrector.FixTokenChars | src/post_ocr_corrector.py:87-96 | the character loop of `_fix_token` returns `FixToken` |
| PostOcrCorrector.Replace1NoMatch | src/post_ocr_corrector.py:104 | `replace(t, u, 1)` without an occurrence changes nothing |
| PostOcrCorrector.Replace1First | src/post_ocr_corrector.py:104 | `replace(t, u, 1)` splices `u` in at the first occurrence |
| PostOcrCorrector.Replace1Same | src/post_ocr_corrector.py:104 | replacing a token by itself changes nothing |
| PostOcrCorrector.ReplaceStep | src/post_ocr_corrector.py:102-104 | the k-th `replace` call hits the k-th token itself, so after it exactly the first k + 1 tokens are fixed |
| PostOcrCorrector.RebuiltAll | src/post_ocr_corrector.py:102-105 | after all the `replace` calls every token is fixed in place |
| PostOcrCorrector.FixEachToken | src/post_ocr_corrector.py:98-100 | `out_tokens` holds the fixed token of each token, in order |
| PostOcrCorrector.ReplaceTokens | src/post_ocr_corrector.py:102-105 | the `rebuilt` loop returns the text with every token fixed in place |
| PostOcrCorrector.FixLatinAndDigits | src/post_ocr_corrector.py:82-105 | the whole function returns `FixedLatinAndDigits(s)` |
| PostOcrCorrector.FixAllSwapsDigits | src/post_ocr_corrector.py:98-105 | the rebuilt text differs from its input only where 0, 1 or 3 became О, І or З |
| PostOcrCorrector.DigitsSwappedKeepsShape | src/post_ocr_corrector.py:85-96 | the digit swaps bring in no dash and touch no whitespace |
| PostOcrCorrector.FixedLatinAndDigitsShape | src/post_ocr_corrector.py:82-105 | the result is the normalised text with only digit swaps, has no long dash and is single-spaced with no outer whitespace |
| PostOcrCorrector.UnmixedTokensUnchanged | src/post_ocr_corrector.py:98-105 | when no token mixes digits and letters the result is the translated, dash- and space-normalised text |
| PostOcrCorrector.ApplyRulesAppend | src/post_ocr_corrector.py:109-110 | applying rules one after another composes them in order |
| PostOcrCorrector.ApplyCanonRules | src/post_ocr_corrector.py:107-111 | the rule loop returns the rules applied in order |
| PostOcrCorrector.Ratios | src/post_ocr_corrector.py:116-118 | one ratio per candidate |
| PostOcrCorrector.Scan | src/post_ocr_corrector.py:114-120 | `best_ratio` bounds every ratio; with no candidate above 0 it stays 0.0 and `best` None; otherwise `best` is the first index with the largest ratio |
| PostOcrCorrector.BestMatch | src/post_ocr_corrector.py:113-121 | a result is a candidate at or above the cutoff whose ratio no candidate exceeds |
| PostOcrCorrector.BestMatchIsFirstBest | src/post_ocr_corrector.py:113-121 | the result is `c` iff some first-best index holds `c` and its ratio reaches the cutoff |
| PostOcrCorrector.Closer | src/post_ocr_corrector.py:113-121 | the loop over `best` and `best_ratio` returns `BestMatch` |
| PostOcrCorrector.FixHeadingLike | src/post_ocr_corrector.py:123-125 | the line itself or a PHRASES entry; a replacement has ratio at least 0.82 and is a best match |
| PostOcrCorrector.HeadingKeptWhenFar | src/post_ocr_corrector.py:123-125 | a line with every phrase below 0.82 is kept |
| PostOcrCorrector.Put | src/post_ocr_corrector.py:139 | `replaced[tok] = near`: the entry is present afterwards and nothing else is added |
| PostOcrCorrector.ReplacementsSound | src/post_ocr_corrector.py:131-139 | every entry maps a suspicious token of the line to a TERMS entry with ratio at least 0.9 |
| PostOcrCorrector.NoSuspiciousNoReplacements | src/post_ocr_corrector.py:132-139 | with no mixed-script, digit-in-word or upper-case token the dict stays empty |
| PostOcrCorrector.SubWordNoMatch | src/post_ocr_corrector.py:142 | `re.sub` of a word that does not occur as a whole word changes nothing |
| PostOcrCorrector.SubWordSame | src/post_ocr_corrector.py:142 | substituting a word by itself changes nothing |
| PostOcrCorrector.TermStageSwapsWords | src/post_ocr_corrector.py:127-143 | the term stage's result is the line after whole-word swaps of suspicious tokens for TERMS entries |
| PostOcrCorrector.TermsKeptWhenNoneSuspicious | src/post_ocr_corrector.py:127-143 | a line with no suspicious token is unchanged |
| PostOcrCorrector.ReplacementsSnoc | src/post_ocr_corrector.py:132-139 | one more token updates the dict exactly as one iteration of the lookup loop does |
| PostOcrCorrector.FixTermsInLine | src/post_ocr_corrector.py:127-143 | the lookup loop and the substitution loop return `FixedTermsInLine` |
| PostOcrCorrector.SubWords | src/post_ocr_corrector.py:140-143 | the substitution loop applies the entries in insertion order |
| PostOcrCorrector.PostCorrector.FixText | src/post_ocr_corrector.py:150-159 | empty input comes back unchanged; otherwise the result is the cleaned text or, with headings on, a PHRASES entry, passed through the term stage when it is on |
| PostOcrCorrector.FixTextSwapsOnlyTerms | src/post_ocr_corrector.py:150-159 | with the term stage on, the result differs from the cleaned text (or the chosen phrase) only by whole-word swaps for TERMS entries |
| PostOcrCorrector.PlainFixTextShape | src/post_ocr_corrector.py:150-159 | with both stages off and no canon rule the result is normalised: digit swaps only, no long dash, single spaces |
| PostOcrCorrector.PostCorrector.CorrectedItem | src/post_ocr_corrector.py:163-165 | raises exactly on a truthy non-string text; otherwise the keys are the input's plus "text", other values are copied, and a string text becomes its `fix_text` |
| PostOcrCorrector.PostCorrector.CorrectItems | src/post_ocr_corrector.py:161-166 | raises exactly when some item raises; otherwise one corrected copy per item, in order |
| SectionParser.DigitsEnd | src/section_parser.py:9 | the end of the maximal digit run `\d+` starting at `i` |
| SectionParser.RomanEnd | src/section_parser.py:9 | the end of the maximal run of Roman letters `[IVXLCDM]+` (either case) starting at `i` |
| SectionParser.DotGroupsChars | src/section_parser.py:9 | the `(?:\.\d+){0,3}` groups cover only digits and dots and end on a digit |
| SectionParser.DotGroupsDots | src/section_parser.py:9 | the groups hold at most as many dots as groups allowed |
| SectionParser.RomanCapture | src/section_parser.py:9 | the `roman` group is the run of Roman letters at the head of the left-stripped text |
| SectionParser.NumericCapture | src/section_parser.py:9 | the `num` group is the dotted number at the head of the left-stripped text |
| SectionParser.NumericNumberingShape | src/section_parser.py:9 | a captured number starts and ends with a digit and holds only digits and dots |
| SectionParser.NumericNumberingDots | src/section_parser.py:9 | a captured number holds at most three dots |
| SectionParser.RomanMatch | src/section_parser.py:8-11 | Roman letters, a dot and a whitespace-led title match as `roman` |
| SectionParser.NumericMatch | src/section_parser.py:8-11 | a number followed by a whitespace-led title matches as `num` |
| SectionParser.HeadingLevelFromNum | src/section_parser.py:22-27 | between 1 and 4; 1 for a Roman numbering; one more than the dots of a number with at most three dots |
| SectionParser.UpperRatio | src/section_parser.py:15-20 | the share of letters that are upper-case: 0 without letters, always between 0 and 1 |
| SectionParser.UpperRatioOne | src/section_parser.py:15-20 | the ratio is 1 exactly when there is a letter and every letter is upper-case |
| SectionParser.LooksLikeHeading | src/section_parser.py:29-45 | a heading has level 1 to 4, a non-heading level 0 and no numbering; a numbering is returned iff `RE_NUM` matches the stripped text, and then it is a heading; otherwise it is a heading iff the visual test holds, at level 1 |
| SectionParser.NumberedHeadingLevel | src/section_parser.py:33-39 | a Roman match gives level 1 and numbering `roman + "."`; a number gives one more than its dots and the number itself |
| SectionParser.RomanHeading | src/section_parser.py:29-39 | "IV. Title"-shaped lines are level-1 headings numbered "IV." |
| SectionParser.TwoPartHeading | src/section_parser.py:29-39 | "2.3 Title"-shaped lines are level-2 headings numbered "2.3" |
| SectionParser.LongLineIsNotHeading | src/section_parser.py:42-45 | an unnumbered line over 120 characters is never a heading |
| SectionParser.KeepToken | src/section_parser.py:52-59 | a kept token has the stripped text and a height of at least 1 |
| SectionParser.KeptTokensFrom | src/section_parser.py:51-59 | every kept item comes from some OCR word of the page |
| SectionParser.KeptTokensComplete | src/section_parser.py:51-59 | every word with non-blank text and a four-value box is kept |
| SectionParser.KeptTokensClean | src/section_parser.py:51-59 | every kept item has non-blank stripped text |
| SectionParser.Tolerance | src/section_parser.py:65-67 | the line tolerance is at least 3 |
| SectionParser.LineBreakIff | src/section_parser.py:78-84 | a new line starts iff the centre moves by more than the tolerance |
| SectionParser.GroupByCentre | src/section_parser.py:69-86 | the loop over `cur` and `lines` cuts the sorted items exactly at the line breaks |
| SectionParser.CollectTokens | src/section_parser.py:51-59 | the `items` loop collects exactly the kept tokens |
| SectionParser.MakeLines | src/section_parser.py:88-102 | one line record per group, in order |
| SectionParser.GroupTokensToLines | src/section_parser.py:47-103 | the whole function returns `LinesOf(page)` |
| SectionParser.LinesEmpty | src/section_parser.py:61-62 | no lines exactly when no token is kept |
| SectionParser.LineGroupsSplit | src/section_parser.py:64-86 | the groups concatenate to the sorted items, are non-empty, have no break inside and a break between neighbours |
| SectionParser.LinesPartitionTokens | src/section_parser.py:47-103 | the lines' items are a permutation of the kept tokens |
| SectionParser.LineBoxIsUnion | src/section_parser.py:92-101 | the line box is the smallest box around its items, each side reached by some item; `line_h` and `y_top` follow from it |
| SectionParser.LineTextInXOrder | src/section_parser.py:90-91 | a line's items are sorted by left edge, a permutation of its group, and its text is their texts joined by spaces, stripped |
| SectionParser.LinesHaveText | src/section_parser.py:47-103 | every line has non-empty text |
| SectionParser.FindGapAbove | src/section_parser.py:105-110 | 9999.0 for the first line; otherwise the vertical gap to the line above, clamped at 0 |
| SectionParser.SectionId | src/section_parser.py:112-115 | never empty: the numbering when truthy, otherwise the decimal digits of the counter |
| SectionParser.CompileClass | src/section_parser.py:12 | compiling a character class raises "bad character range" at the first reversed range, and succeeds otherwise |
| SectionParser.SubpointClassAsWritten | src/section_parser.py:12 | the letter class as written has a reversed range, so compiling the pattern raises; the bullet class as written lacks `•` |
| SectionParser.SubpointLetterIsClass | src/section_parser.py:12 | the intended class `а-я` compiles, and `IsSubpointLetter` is membership ignoring case |
| SectionParser.BulletIsSubpoint | src/section_parser.py:12 | "- item" is a sub-point |
| SectionParser.SinglePartNumberIsNotSubpoint | src/section_parser.py:12 | "1. Text" is not a sub-point: a number needs a second part |
| SectionParser.StartsParagraphIsBreak | src/section_parser.py:126-128 | a cut before a line with a line above it is the paragraph-break relation on the pair |
| SectionParser.SplitParagraphs | src/section_parser.py:121-136 | the loop over `cur` and `paragraphs` returns the lines cut at the breaks, each part's stripped texts joined by newlines |
| SectionParser.BuildParagraphs | src/section_parser.py:117-136 | the function with the sub-point test returns `Paragraphs(lines, medianH)` |
| SectionParser.ParagraphsKeepLines | src/section_parser.py:117-136 | no more paragraphs than lines; none exactly when there are no lines; joined with newlines they give back every stripped line text in order |
| SectionParser.ParagraphBreaks | src/section_parser.py:124-135 | the paragraphs come from non-empty groups that concatenate to the lines, with no break inside and a break between neighbours |
| SectionBuilder.StrippedLengthIsStrip | src/section_parser.py:159 | `len(content.strip())` is the length of the stripped content |
| SectionBuilder.Emit | src/section_parser.py:159-160 | at most one section: the popped one, if its stripped content is long enough or its title is truthy |
| SectionBuilder.Closed | src/section_parser.py:156-160 | popping never adds sections |
| SectionBuilder.ClosedSnoc | src/section_parser.py:156-160 | the top of the stack is emitted first |
| SectionBuilder.ClosedKeepsAll | src/section_parser.py:156-160 | with titled sections, every popped section is kept, top first |
| SectionBuilder.KeptDepth | src/section_parser.py:156 | `close_to_level` pops exactly the top run of sections at or above the level |
| SectionBuilder.CloseAll | src/section_parser.py:195-198 | the final loop empties the stack, appends the popped sections (filtered, unstamped) and leaves the counter |
| SectionBuilder.StampPage | src/section_parser.py:191-192 | every open section gets `page_to` set and nothing else changes |
| SectionBuilder.Classify | src/section_parser.py:163-171 | one verdict per line |
| SectionBuilder.ClassifyValid | src/section_parser.py:163-171 | every heading verdict has a level from 1 to 4 |
| SectionBuilder.NonZeroHeights | src/section_parser.py:150 | only non-zero line heights are collected |
| SectionBuilder.CloseToInv | src/section_parser.py:155-160 | closing keeps the stack nested and pages in range; the kept stack is a prefix below the level and the popped part was at or above it |
| SectionBuilder.DeeperHeadingNests | src/section_parser.py:172-185 | a deeper heading pushes a new section on top and closes nothing |
| SectionBuilder.SameLevelClosesSibling | src/section_parser.py:172-185 | a heading at the top's level closes that sibling, stamped with the page, and replaces it |
| SectionBuilder.AddBodyTouchesTop | src/section_parser.py:186-188 | a body line appends text and a newline to the top section only (and the line to the lines it received), and is dropped when no section is open |
| SectionBuilder.StepInv | src/section_parser.py:163-188 | one line keeps the stack nested and every page range valid |
| SectionBuilder.ProcessPageInv | src/section_parser.py:162-192 | a page keeps the invariant, with the page bound raised by one |
| SectionBuilder.PagesInv | src/section_parser.py:162-192 | after `k` pages every section, open or closed, has level 1 to 4 and `1 <= page_from <= page_to <= k` |
| SectionBuilder.CloseAllOk | src/section_parser.py:195-198 | the tails keep valid levels and page ranges |
| SectionBuilder.StepCounted | src/section_parser.py:172-188 | every heading adds one to the counter and one titled section; body lines change neither |
| SectionBuilder.PagesCounted | src/section_parser.py:143-192 | after `k` pages the counter is one more than the headings seen |
| SectionBuilder.OneSectionPerHeading | src/section_parser.py:142-198 | every heading yields exactly one section: titles are non-empty, so none is filtered out |
| SectionBuilder.DocumentValid | src/section_parser.py:162-171 | every page's verdicts are valid |
| SectionBuilder.ClosedSections | src/section_parser.py:142-198 | every emitted section has level 1 to 4 and a page range inside the document |
| SectionBuilder.SectionsShape | src/section_parser.py:138-209 | `build_sections` returns one section per heading, each titled and with a valid level and page range |
| SectionBuilder.ExampleNests | src/section_parser.py:172-185 | headings at levels 1 and 2 are both open after two lines |
| SectionBuilder.ExampleSibling | src/section_parser.py:172-185 | a second level-2 heading closes the first |
| SectionBuilder.ExampleCloses | src/section_parser.py:155-185 | a level-1 heading closes the level-2 heading, then the level-1 heading |
| SectionBuilder.SiblingsExample | src/section_parser.py:138-209 | headings at levels 1, 2, 2, 1 (titles a, b, c, d) give four sections, in closing order b, c, a, d |
| SectionBuilder.CloseToLevel | src/section_parser.py:155-160 | the `while` loop of `close_to_level` computes `CloseTo` |
| SectionBuilder.CloseTails | src/section_parser.py:195-198 | the final `while` loop computes `CloseAll` |
| SectionBuilder.StampOpen | src/section_parser.py:191-192 | the stamping loop computes `StampPage` |
| SectionBuilder.HandleLine | src/section_parser.py:164-188 | one iteration of the line loop computes `Step` |
| SectionBuilder.RunPages | src/section_parser.py:162-192 | the page loop computes `Pages` over the classified document |
| SectionBuilder.CollectLines | src/section_parser.py:145-152 | the first loop collects each page's lines and the global median height (12.0 when none) |
| SectionBuilder.FinishSections | src/section_parser.py:201-207 | each section gets right-stripped content and, in order, the paragraphs of every line of its page span (as written) or of the lines its content came from (as intended) |
| SectionBuilder.LinesTrimmed | src/section_parser.py:91-101 | every assembled line's text is already stripped |
| SectionBuilder.StepTraced | src/section_parser.py:164-188 | one line keeps every section's content equal to the text of the lines it received, and its title a line of its first page |
| SectionBuilder.PagesTraced | src/section_parser.py:162-192 | the page loop keeps every section, open or closed, traced to its lines and first page |
| SectionBuilder.ClosedSectionsTraced | src/section_parser.py:142-198 | every emitted section's content is the newline-terminated text of the lines it received, and its title is a line of its first page |
| SectionBuilder.SpanHoldsTitle | src/section_parser.py:203-205 | a section's title is among the lines of its page span |
| SectionBuilder.SpanParagraphsHoldTitle | src/section_parser.py:201-206 | as written, every section's paragraphs hold its own heading, and two sections over the same pages get the same paragraphs |
| SectionBuilder.SameSpanSameParagraphs | src/section_parser.py:201-206 | as written, any two sections with equal `page_from` and `page_to` get identical paragraphs, whatever their own content |
| SectionBuilder.BodyTextIsJoin | src/section_parser.py:186-207 | the content built by appending each stripped line and a newline is those lines joined by newlines plus one final newline, and the join has no surrounding whitespace |
| SectionBuilder.ContentIsJoin | src/section_parser.py:186-207 | the right-stripped content of a section with body lines is those lines joined by newlines, and it is non-empty |
| SectionBuilder.ParagraphsResegmentContent | src/section_parser.py:201-207 | as intended, a section's paragraphs joined by newlines give back its final content, and there are none exactly when the content is empty |
| SectionBuilder.ReadingsDifferInParagraphs | src/section_parser.py:201-207 | the two readings give the same sections apart from the paragraphs |
| SectionBuilder.BuildSections | src/section_parser.py:138-209 | the whole function returns `Sections(reading, ocrPages, minLen)` |
| Pipeline.NormalizeBox | src/pipeline.py:50-66 | a dispatched box has four values |
| Pipeline.FlatIntListKept | src/pipeline.py:62-64 | a flat list of four integers is kept as it is, inverted or not: no clamping or swapping |
| Pipeline.DispatchAgreesWithClampInside | src/pipeline.py:49-66 | inside the image, the unclamped box equals the box the crop helper computes |
| Pipeline.NormalizeItem | src/pipeline.py:68-73 | raises exactly when the box dispatch raises; otherwise keeps the text and carries the dispatched box |
| Pipeline.NormalizePageOk | src/pipeline.py:49-73 | a page normalises exactly when every item's box dispatch succeeds |
| Pipeline.NormalizedPageMatchesItems | src/pipeline.py:49-73 | `ocr_norm` has one entry per item, in order, with its text, its dispatched box and conf from "conf", else "score", else 0.0 (None read as 0.0) |
| Pipeline.NormalizeItems | src/pipeline.py:49-73 | the item loop raises exactly when `NormalizePage` does, and otherwise returns it |
| Pipeline.NonEmptyTexts | src/pipeline.py:76 | only non-empty texts are joined |
| Pipeline.PageTexts | src/pipeline.py:76 | one text per page |
| Pipeline.DocType | src/pipeline.py:94 | never empty: the hint when given, else the Donut guess when truthy, else "receipt" |
| Pipeline.DonutGuessIsFirst | src/pipeline.py:80-81 | the guess is the one from the first dict result with a truthy `document_type` or `doctype` |
| Pipeline.NoGuessMeansReceipt | src/pipeline.py:94 | without a hint or a truthy guess, the document type is "receipt" |
| Pipeline.RawTextContainsItemTexts | src/pipeline.py:76-93 | every non-empty OCR text of every page occurs in `raw_text` |
| Pipeline.NormalizePagesKeepsPages | src/pipeline.py:41-75 | `ocr_pages` holds each page's `ocr_norm`, in order |
| Pipeline.RunPipeline | src/pipeline.py:41-94 | the page loop raises exactly when `Run` does, and otherwise returns the pages, the joined text and the document type `Run` gives |
| Sorting.SortBy | src/section_parser.py:64 | `sort(key=...)` returns a permutation of its input |
| Sorting.SortBySorted | src/section_parser.py:64 | the result is ordered by the key |
| Sorting.SortByStable | src/ocr_paddle.py:87 | the sort is stable: items with equal keys keep their input order |
| Sorting.MedianBounds | src/section_parser.py:66 | `statistics.median` lies between the smallest and the largest value |
| Sorting.MedianOfConstant | src/section_parser.py:152 | the median of equal heights is that height |
| Seqs.SplitWhenFlattens | src/section_parser.py:74-86 | the groups, concatenated, give back the input; each is non-empty |
| Seqs.SplitWhenBreaks | src/section_parser.py:74-86 | there is no break inside a group and a break between neighbouring groups |
| Text.Strip | src/section_parser.py:30 | `str.strip()`: the largest slice that neither starts nor ends with whitespace, with only whitespace cut off around it |
| Text.CollapseIsCollapsed | src/ocr_paddle.py:52 | `" ".join(t.split())` is single-spaced with no outer whitespace |
| Text.CollapseIdempotent | src/ocr_paddle.py:52 | collapsing twice is collapsing once |
| Text.CleanNumberIsReplaceChain | src/post_llm.py:89-90 | the separator cleaning is the three `replace` calls in order: drop spaces, drop no-break spaces, commas to dots |
| Text.ParseNatToString | src/section_parser.py:115 | `str(n)` reads back as `n` |

## Left out

- Engines and I/O: the PaddleOCR engine and its `ocr` call, Donut inference, file and PDF loading, image preprocessing, the `ImageDraw` rectangles and `out_pages` are all left out. The pipeline takes each page's OCR items and each page's Donut result as inputs.
- `run_pipeline` is modelled up to the language-model call: the `hints` regex lists, `map_to_fields` with a live client, `fix_fields` of its answer and the result dict are not. The IBAN and twelve-digit recognisers themselves are modelled in `Recognizers`.
- The enabled path of `map_to_fields` (the Gemini request, retries with `time.sleep` and `random`, environment variables) and `LLMClient.fix_text` are network code and are left out. Only the disabled path is modelled (`MapToFieldsDisabled`).
- `PostOcrCorrector.Closer`, `FixHeadingLike`, `FixTermsInLine`: `difflib.SequenceMatcher(...).ratio()` is the parameter `ratio` (type `Ratio`). Nothing is assumed about it, not even that it lies in [0, 1]; the contracts hold for every ratio function.
- `PostOcrCorrector.ApplyCanonRules`: each CANON_REPLACEMENTS `re.sub` is an abstract `Rule` (a `string -> string` function). The contracts are about the order in which the rules are applied, not about what the patterns rewrite.
- Floating point: coordinates, heights, medians, confidences, ratios and thresholds are exact reals, not IEEE doubles. `int()` of a float is `Trunc` (toward zero) and `np.mean` is the exact mean (`OcrPaddle.Mean`). Rounding effects at a threshold (1.12·median, 0.6, 0.8, 1.5, 0.82, 0.9) are not modelled.
- `Text.IsDigit`: `\d`, `str.isdigit()` and `int()` accept only the ASCII digits here. Python also accepts other Unicode digits: `\d` and `int()` take every decimal digit, and `isdigit()` also takes non-decimal digits such as ² and ³ (src/post_ocr_corrector.py:88,135).
- `Text.IsAlpha`: `isalpha()`, `\w`, `\b`, `upper()`, `lower()` and `isupper()` are modelled on ASCII, the Latin-1 letters À–ÿ without × and ÷ (but not ª, µ and º), Ÿ (U+0178), and the Cyrillic block U+0400–U+04FF without U+0482–U+0489, which includes the Kazakh letters Ә Ғ Қ Ң Ө Ұ Ү Һ І. Every other letter, ª, µ and º among them, counts as a non-letter here.
- `Text.IsWordChar`: `\w` is these letters, the ASCII digits and '_'. Python's `\w` also accepts ª, µ and º, the non-decimal numerics ² ³ ¹ ¼ ½ ¾, and letters and digits of other scripts. A word boundary next to any of these is therefore decided differently from Python: the `\b{src}\b` substitution at src/post_ocr_corrector.py:142 and the `\bKZT\b` and `\b(USD|EUR|RUB)\b` searches at src/post_llm.py:165-168 may differ.
- `Text.Upper`, `Text.Lower`: case mapping is one character to one character; multi-character mappings such as 'ß' to "SS" are not modelled (`IsOwnUpper` excludes 'ß' for this reason). The special case folds of `re.IGNORECASE` (for example 'ſ' matching 's', or 'K' matching the Kelvin sign) are not modelled.
- Dict key order: a fields dict is a `map`, so key insertion order is not part of the model. Where the source's behaviour depends on that order, the order is written out explicitly: the raise order of `fix_fields` and `validate_fields` (`FirstUnhandled`), and the `replaced` dict of `_fix_terms_in_line` (a sequence of `Replacement`s).
- Exceptions are `Raises(message)` values; the exception class is left out, and the message only where the source shows it.
- `PostValidate.Validation`: `str()` and `float()` of a value that is not a string are the parameters `show` and `floatable`.
- `ImageTools.SafeCrop` returns the clamped crop box; cutting the image with `PIL.Image.crop` is left out.
- `Dates.DateText`: `strftime("%Y")` is taken to give four digits, zero-padded, for every year. CPython leaves the padding of years below 1000 to the platform's C library, so on some platforms such a year prints with fewer digits.
- `Pipeline.OcrItem`: the text is a string and the box entries are numbers. An item whose "text" is None (which `o.get("text", "")` passes through) and box entries that are None or numeric strings (which `int()` accepts) are not modelled.
- `SectionBuilder.Section`: the field `body` is not a key of the section dict. It records the lines whose text went into `content`, which only the intended paragraph pass reads.
- `SectionParser.IsSubpoint` models the sub-point pattern as it is evidently meant; as written the pattern does not compile (see "## Findings"). So `BuildParagraphs` and `BuildSections` describe the module as it would behave with the intended pattern.
- `SectionBuilder.SectionsShape`: `min_content_len` is a parameter, but every section has a non-empty title (the stripped text of a line), so the length filter never drops a section. The model proves this rather than assuming it.
- The module-level objects of `pipeline.py` (engine construction) and the Streamlit demo, `vt_donut.py`, `preprocess.py`, `ocr_utils.py` and `eval/metrics.py` are not part of this model.
- Where the prose documentation of the repository disagrees with the code, the model follows the code. Its IBAN example " KZ123456789012345678 90" contains 20 digits after "KZ" once spaces are removed, so `fix_fields` keeps it. Its example of headings at levels 1, 2, 2, 1 yields four sections in closing order (2, 2, 1, 1), not three (`SiblingsExample`).

## Findings

| source | as written | input that shows it | evidently intended | confidence | as-written member | corrected member |
|---|---|---|---|---|---|---|
| src/post_rules.py:19 | the tenge test looks for the mis-decoded literal "â‚¸" in `t.upper()`; `upper()` maps 'â' to 'Â', so the test can never succeed | `norm_currency("100 ₸")` gives None, and `fix_fields({"currency": "100 ₸"})` drops the currency | "₸" gives "KZT" | not executed | `PostRules.NormCurrencyAsWritten`, `PostRules.NormCurrencyAsWrittenMissesSign`, `PostRules.FixedFieldsTengeSign` (with `AsWritten`) | `PostRules.NormCurrency`, `PostRules.NormCurrencyCases`, `PostRules.FixedFields` (with `AsIntended`) |
| src/post_llm.py:163 | the amount is `m.group(m.lastindex)`; for the second amount pattern (a number followed by тенге/₸/KZT) the last group is the currency word | `_fallback("500 тенге")` stores amount "тенге" | amount "500" | not executed | `PostLlm.AmountAsWritten`, `PostLlm.AmountTakesCurrencyWord`, `PostLlm.FallbackAmount` (with `AsWritten`) | `PostLlm.Amount`, `PostLlm.AmountShape`, `PostLlm.FallbackAmount` (with `AsIntended`) |
| src/section_parser.py:12 | the mis-decoded class `[–∞-—è]` holds the reversed range '∞'-'—' (U+221E to U+2014), and the bullet class lacks '•' | importing the module: `re.compile` raises "bad character range ∞-—" | bullets '-', '•', '*' and the letters а) to я) | not executed | `SectionParser.SubpointClassAsWritten` | `SectionParser.IsSubpoint`, `SectionParser.SubpointLetterIsClass`, `SectionParser.BulletIsSubpoint` |
| src/section_parser.py:202-206 | the comment says only the lines that went into the content are taken, but the loop takes every line of pages `page_from` to `page_to` | one page with the lines "1. Intro", "text a", "2. Terms", "text b": both sections get the same paragraphs, each holding both headings and both texts | a section's paragraphs re-segment the lines of its own content | not executed | `SectionBuilder.SpanParagraphsHoldTitle` (with `AsWritten`) | `SectionBuilder.ParagraphsResegmentContent` (with `AsIntended`) |
