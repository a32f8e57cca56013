# Passport MRZ field decoder — a Dafny model

This project models the decoding core of `passport_ocr`, a script that reads a
passport's Machine-Readable Zone (MRZ). An OCR engine produces a list of text
lines. The decoder takes the first two (line A, the document line, and line B,
the personal-data line), upper-cases them and pads them with the filler `<` to
44 characters. It then cuts fields at the fixed column offsets of the TD3
layout (ICAO Doc 9303 Part 4, section 4.2.2) and cleans and interprets each
field:

- `clean` keeps the alphanumeric characters and upper-cases them;
- the name zone (line A, columns 5–43, `line_a[5:44]`) is split on its first `<<` into surname
  and given names; each `<` then becomes one space and the parts are stripped;
- `get_sex` maps the sex column to `M` or `F`;
- `get_country_name` looks the issuing-state and nationality codes up in a
  country table, passing the code through on a miss;
- `parse_date` formats the birth and expiry dates as DD/MM/YYYY, or returns
  the cleaned text unchanged when the date library cannot parse it.

The decoder is a pure function here: `Decoder.Decode(ocr, table, parse)`. It
takes the OCR lines, the country table (a sequence of entries instead of the
global loaded from `country_codes.json`), and the date parser. It returns the
passport record, or `TooFewLines` when the OCR produced fewer than two lines.
That is the only way decoding can fail. The date library's parser is not
modelled: it is a parameter, a partial function from text to a valid calendar
date, with `None` standing for "raised an exception". dateutil fills a
missing day, month or year from today's date, and its two-digit-year pivot
depends on the current year. The parameter therefore stands for dateutil at one
fixed current date, and lemmas that compare two decodes use the same parser
for both.

Modules, one file each:

| file | module | models |
|---|---|---|
| wrappers.dfy | Wrappers | `Option` and `Result` |
| ascii.dfy | Ascii | `isalnum`, `isspace` and `upper` on ASCII characters |
| clean.dfy | Cleaning | `clean` |
| padding.dfy | Padding | `upper().ljust(44, '<')` |
| names.dfy | Names | `split('<<', 1)`, `replace('<', ' ')`, `strip()` and the name split |
| sex.dfy | Sex | `get_sex` |
| countries.dfy | Countries | `get_country_name` |
| dates.dfy | Dates | `parse_date` and `strftime('%d/%m/%Y')` |
| decoder.dfy | Decoder | the field layout, the record and the decode function |
| encoding.dfy | Encoding | a reference TD3 writer, the inverse used to state the round trip |
| scenarios.dfy | Scenarios | worked decodings |

Behaviour worth knowing:

- A run of fillers inside a name is not collapsed. Each `<` becomes exactly
  one space, so `ANDRE<<PAUL` after the first separator yields `ANDRE  PAUL`.
- Padding makes every line at least 44 characters long, so every slice is in
  bounds. `Decode` fails exactly when there are fewer than two lines.
- The sex column is cleaned before it is decoded: a filler `<` becomes the
  empty string and decodes to `F`, like any code other than `M` and `0`.
- The given name can be empty even when the zone contains `<<`. This happens
  when only fillers follow the first separator. `Names.GivenEmptyIff` states
  the exact condition.

## Model

| member | source | states |
|---|---|---|
| Ascii.IsAlnum | main.py:47 | `isalnum` on ASCII: exactly the digits `0`–`9` and the letters `A`–`Z`, `a`–`z` |
| Ascii.IsSpace | main.py:136-137 | the whitespace `strip()` removes, on ASCII: space, codes 9–13 (TAB, LF, VT, FF, CR) and codes 28–31 (FS, GS, RS, US) |
| Ascii.Upper | main.py:126 | `upper()` on ASCII: same length, each lower-case letter mapped to its capital, every other character unchanged |
| Padding.NormalizeLine | main.py:126-130 | `upper().ljust(44, '<')`: the normalised line is at least 44 characters long, so every field slice is in bounds |
| Countries.DisplayName | main.py:54 | `country.get('name', '').upper()`: a missing name gives the empty string; otherwise the name with each character upper-cased in place, so no lower-case letter is left |
| Cleaning.Clean | main.py:45-47 | the result holds only `A`–`Z` and `0`–`9`, is no longer than the input, and has the input's length exactly when every input character is alphanumeric |
| Cleaning.CleanAppend | main.py:45-47 | cleaning treats characters one at a time and keeps their order: `clean(a + b) == clean(a) + clean(b)` |
| Cleaning.CleanChar | main.py:45-47 | an alphanumeric character is kept and upper-cased; filler, space and punctuation are dropped |
| Cleaning.CleanFixedPoint | main.py:45-47 | the strings `clean` leaves unchanged are exactly the ones made of `A`–`Z` and `0`–`9` |
| Cleaning.CleanIdempotent | main.py:45-47 | `clean(clean(s)) == clean(s)` |
| Cleaning.CleanIgnoresCase | main.py:126 | cleaning an upper-cased line gives the same field as cleaning the raw text |
| Ascii.UpperProperties | main.py:126 | upper-casing gives an upper-case string, is idempotent, fixes exactly the upper-case strings, and keeps each character's alphanumeric and whitespace class |
| Padding.LeftJustify | main.py:129-130 | `ljust`: the result has length `max(len, width)`, keeps the input as a prefix, and adds only the fill character |
| Padding.NormalizeShape | main.py:126-130 | a normalised line is never truncated; it is the upper-cased input followed by fillers up to 44 characters, and it is upper-case throughout |
| Padding.NormalizeIdempotent | main.py:126-130 | normalising a normalised line changes nothing |
| Names.FindSeparator | main.py:135 | the index found holds `<<` and no earlier index does; none is found exactly when the text has no `<<` |
| Names.SplitOnce | main.py:135 | `split('<<', 1)` gives one part exactly when there is no separator, and two otherwise |
| Names.SplitOnceInverse | main.py:135 | joining the parts with `<<` gives back the input; the first part ends at the first separator |
| Names.SplitOnceUnique | main.py:135 | any decomposition `a + "<<" + b` whose `a` cannot hold an earlier separator is the one `split` returns |
| Names.Defill | main.py:136-137 | `replace('<', ' ')` turns each filler into exactly one space and leaves every other character in place |
| Names.Strip | main.py:136-137 | `strip()` gives a result with no leading or trailing whitespace, built from the input's characters, and empty exactly when the input is all whitespace |
| Names.StripUnique | main.py:136-137 | whenever the input is a trimmed middle surrounded only by whitespace, `strip()` returns that middle |
| Names.StripIdempotent | main.py:136-137 | stripping twice is stripping once |
| Names.SplitName | main.py:135-137 | neither surname nor given names contain `<` or have leading or trailing whitespace; with no `<<` in the zone the given names are empty |
| Names.SplitNameAt | main.py:135-137 | the surname comes from the text before the first `<<` and the given names from everything after it, each de-filled and stripped |
| Names.SplitNameWhole | main.py:135-137 | a zone with no `<<` is all surname |
| Names.GivenEmptyIff | main.py:135-137 | the given names are empty exactly when the zone has no `<<`, or has only fillers and whitespace after its first `<<` |
| Names.StandardZone | main.py:135-137 | a zone `SURNAME<<GIVEN<NAMES<<<…` decodes to the two parts with each filler turned into one space, whatever the trailing padding |
| Sex.GetSex | main.py:58-66 | the result is `M` or `F`; it is `M` exactly when the upper-cased code is `M` or `0` |
| Sex.SexOfColumn | main.py:140-141 | the sex column decodes to `M` exactly for `M`, `m` and `0`; the filler `<` (cleaned to the empty string) and `X` decode to `F` |
| Countries.CountryName | main.py:50-55 | the first entry whose alpha-3 equals the code supplies the upper-cased name; with no such entry the code comes back unchanged |
| Countries.CountryNameCases | main.py:50-55 | the result is the code or the display name of an entry carrying that code, and it is upper-case whenever the code is |
| Dates.FormatDate | main.py:39 | the result has the DD/MM/YYYY shape: ten characters, slashes at positions 2 and 5, digits elsewhere |
| Dates.FormatReadInverse | main.py:39 | formatting is injective and inverted by reading back: `ReadDate(FormatDate(d)) == Some(d)`, and a DD/MM/YYYY string of a valid date is printed by exactly that date |
| Dates.ParseDate | main.py:35-42 | on parser failure the input comes back unchanged; on success the result is the parsed date in DD/MM/YYYY form |
| Dates.FallbackDetectable | main.py:35-42 | for slash-free input, such as every cleaned field, the result equals the input exactly when the parser failed |
| Decoder.CountryField | main.py:147-149 | a resolved country is the cleaned code of at most three characters or the display name of a table entry |
| Decoder.DateField | main.py:143-145 | a date field is a formatted valid date or the cleaned text of at most six characters |
| Decoder.DecodeLines | main.py:126-185 | every record is well-formed: names without `<` and trimmed, sex `M`/`F`, dates formatted or cleaned, countries resolved or cleaned codes, and type, number and personal number clean with at most 2, 9 and 14 characters |
| Decoder.Decode | main.py:121-185 | decoding fails exactly when there are fewer than two OCR lines, with `TooFewLines`; otherwise the record is well-formed |
| Decoder.OnlyFieldColumnsMatter | main.py:135-166 | the record depends only on the first 44 columns of line A and on the non-check-digit columns among the first 44 of line B |
| Decoder.ExtraColumnsIgnored | main.py:129-166 | an over-long OCR line decodes like its first 44 characters |
| Decoder.CheckDigitIgnored | main.py:140-166 | overwriting a check-digit column (9, 19, 27, 42, 43) of line B never changes the record |
| Encoding.NameZoneRoundTrip | main.py:135-137 | a name zone written with single fillers between words decodes back to the surname and given names that were written |
| Encoding.DecodeWritten | main.py:126-185 | decoding a correctly written TD3 zone recovers every field exactly (names, type, numbers), sex as `M`/`F`, the country codes via the table and the dates via the parser, whatever the check digits |
| Scenarios.SampleDecodes | main.py:121-185 | the lines `P<USATEMGOUA<<ANDRE<<…` and `1234567897USA9001155M3001019<<…04` decode to TEMGOUA, ANDRE, M, 15/01/1990, UNITED STATES, P, UNITED STATES, 123456789, 01/01/2030, under a one-entry table (USA → United States) and a stub parser that knows only `900115` and `300101` |
| Scenarios.EmptyLinesDecode | main.py:121-185 | two empty OCR lines still decode: empty fields, sex `F`, and dates and countries computed from the empty string |

## Left out

- Image loading and MRZ localisation (`read_mrz`, main.py:88-102): a foreign library and file I/O.
- Saving, reading, resizing and deleting the ROI image (main.py:104-117, 188): file I/O.
- The EasyOCR engine (main.py:27, 113): a foreign ML model. Its output is the `ocr` parameter of `Decode`.
- Loading `country_codes.json` at import time (main.py:30-31): I/O and global state. The table is a parameter.
- dateutil's flexible year-first parsing and its two-digit-year pivot (main.py:38): opaque library behaviour that also depends on the current date. The parser is an uninterpreted parameter, fixed for one current date. Only the success/fallback shape around it is modelled.
- Console output: `print_data`, progress messages and the warning printed on a date failure (main.py:41, 69-74, 119): output only.
- The `__main__` driver (main.py:193-201).
- MRZ check digits: the code never computes or verifies them. The model proves they are never read.
- The catch-all `except` around field extraction (main.py:168-171) returns `None` when an exception is raised. With padded lines no slice can fail. It could still fire if a country entry's `name` is JSON `null` or not a string, because `.upper()` would then raise. `Countries.Country` models only string-valued or missing keys, so that path is not modelled.
- Python's Unicode semantics of `isalnum`, `isspace` and `upper` (for example, `'ß'.upper()` is two characters long). The model uses their ASCII meaning. The OCR allowlist (main.py:112) admits only ASCII letters, digits, `<` and space. A non-ASCII character counts as not alphanumeric, not whitespace, and is left unchanged by upper-casing.
- Countries.DisplayName: upper-cases ASCII letters only. Country names come from `country_codes.json`, not from OCR, and can hold non-ASCII letters (`Côte d'Ivoire` gives `CôTE D'IVOIRE` here, `CÔTE D'IVOIRE` in Python). `Countries.CountryNameCases`' "upper-case" is therefore the ASCII sense.
- Dates.FormatDate: pads years below 1000 to four digits. glibc's `%Y` prints such years without padding. dateutil rarely yields them from a six-character field.
- The `None` that `get_passport_data` returns on failure becomes the typed `Failure(TooFewLines)`.
