# Address book — a Dafny model

This project models a small in-memory contact book written in Python
(`address_book.py`). It has three parts:

- **Fields.** `Name` and `Phone` hold one string each; `str()` of a field is its
  string. A `Phone` is built only for a number that passes the ten-digit rule
  (`Phone._validate_number`).
- **Record.** A contact has a name, fixed at construction, and an ordered list
  of phones. `add_phone` appends. `remove_phone`, `edit_phone` and `find_phone`
  act on the *first* phone whose value equals the number, found by the linear
  scan `find_phone_object`. `str(record)` renders
  `Contact name: N, phones: p1; p2`.
- **AddressBook.** A dictionary from a name to a record. `add_record`
  overwrites silently, and `find` and `delete` go by name.

Layout:

- `wrappers.dfy` holds `Option`, `Outcome` and `Result`.
- `fields.dfy` (module `Fields`) holds the value types, the validation rule as
  written and as intended, and `NewPhone`.
- `records.dfy` (module `Records`) holds the pure meaning of each list
  operation (`FirstIndex`, `RemoveFirst`, `ReplaceFirst`, `Join`, `Render`) with
  its lemmas, and the class `Record`. Its methods change `phones` in place and
  are proved against those functions.
- `address_book.dfy` (module `AddressBooks`) holds the class `AddressBook` over
  a `map<string, Record>`.
- `examples.dfy` holds client methods that replay the unit-test scenarios.
  They use the methods' contracts and the definitions of the rendering
  functions.

The printed diagnostics of the source become typed results. An operation that
can fail returns `Outcome<Error>`, with `Error = InvalidNumber | NotFound`.
Phone validation returns `Result<Phone, Error>`. "Not found" on a lookup is
`None`. A `Phone` object is identified by its position in the list: the source
finds it by a value scan and then locates it again with `list.index` or
`list.remove`. That identity search always lands on the first value match.
`Record.name` is a `const`, because the source never reassigns it. That is
what makes "every record is filed under its own name" an invariant of the book.

Which validation rule is used: the record uses the **plain rule**, exactly ten
ASCII digits (`Fields.IsValidNumber`). The pattern as the source writes it is
modelled separately as `Fields.MatchesPattern`. It also accepts ten digits
followed by one `'\n'` (see Findings).

`remove_phone` takes out only the first match, so a number stored twice is
still found afterwards. `Records.RemoveThenFind` states exactly when this
happens: when the number was stored at least twice.

## Model

| member | source | states |
|---|---|---|
| `Fields.IsValidNumberIff` | address_book.py:30-34 | `IsValidNumber`, the number rule in its intended reading, holds exactly when the string is ten ASCII digits and nothing else |
| `Fields.MatchesPatternIff` | address_book.py:30-34 | `MatchesPattern`, that is `re.match(r"^\d{10}$", s)`, holds exactly for a valid number, or for a valid number followed by one newline |
| `Fields.DigitsFromIff` | address_book.py:32 | the `\d{n}` part matches at position i exactly when the n characters from i exist and are digits |
| `Fields.TrailingNewlineAccepted` | address_book.py:32-34 | `"1234567890\n"` matches the pattern as written but is not a ten-digit number |
| `Fields.ValidationExamples` | test.py:7-23 | both rules accept `1234567890` and reject the short, long, lettered, spaced and dashed inputs of the unit tests |
| `Fields.NewPhone` | address_book.py:23-28 | a phone is produced exactly for a valid number and holds that number; otherwise the error is `InvalidNumber` |
| `Records.FirstIndexFrom` | address_book.py:77-79 | a found position lies at or after the start, inside the list, and holds the number |
| `Records.FirstIndex` | address_book.py:75-80 | a found position lies inside the list and holds the number |
| `Records.FirstIndexFromSpec` | address_book.py:75-80 | from position i the scan finds nothing exactly when no later phone has the number, and no phone before a found position has it |
| `Records.FirstIndexSpec` | address_book.py:75-80 | the scan finds a phone exactly when some phone has the number, and then it finds the first one |
| `Records.HasPhoneCount` | address_book.py:78 | some phone has the number exactly when the multiset of phones contains that phone |
| `Records.RemoveFirstSpec` | address_book.py:50-56 | `RemoveFirst`, the meaning of `remove_phone` on the list: removal takes out exactly one phone with the number, the first; it keeps the length minus one, the earlier phones, and the later phones shifted in order; the multiset loses one copy; without a match the list is unchanged; validity is kept |
| `Records.RemoveThenFind` | address_book.py:50-56 | after removal the number is still found exactly when it was stored at least twice |
| `Records.ReplaceFirstSpec` | address_book.py:58-65 | `ReplaceFirst`, the meaning of `edit_phone` on the list: editing keeps the length, puts the new phone at the index of the first match, keeps every other index, leaves the list unchanged without a match, and keeps validity for a valid new number |
| `Records.AppendThenFind` | address_book.py:44-47 | after appending, the new number is found, at the end if it was not stored before; the first match of an already stored number does not move |
| `Records.JoinSplitRoundTrip` | address_book.py:83 | `Join` is `"; ".join`: splitting the `"; "`-joined list at `"; "` gives the list back when no item has a `;` |
| `Records.RenderRoundTrip` | address_book.py:82-83 | `Render(name, phones)` starts with `Contact name: N, phones: `; the tail is empty without phones; for valid phones it is not empty and splits back into the phone values in stored order |
| `Records.Record.ToString` | address_book.py:82-83 | `str(record)` is the fixed head with the name, followed by nothing when there are no phones; for a valid record with phones the tail splits back into the stored phone values in order |
| `Records.Record.constructor` | address_book.py:39-41 | a new record has the given name and no phones, and is valid |
| `Records.Record.AddPhone` | address_book.py:44-48 | a valid number is appended at the end, duplicates included, and is then findable; an invalid one gives `InvalidNumber` and leaves the list unchanged; validity is kept |
| `Records.Record.RemovePhone` | address_book.py:50-56 | the new list is the old one without its first match; the result is `NotFound` exactly when no phone has the number; validity is kept |
| `Records.Record.EditPhone` | address_book.py:58-65 | with a match and a valid new number, the first match is replaced in place; otherwise `NotFound` (checked first) or `InvalidNumber`, and the list is unchanged; validity is kept |
| `Records.Record.FindPhone` | address_book.py:67-73 | the result is the number exactly when some phone has it, otherwise `None` |
| `Records.Record.FindPhoneObject` | address_book.py:75-80 | the loop returns the position of the first phone with the number, or `None` |
| `AddressBooks.AddressBook.constructor` | address_book.py:86 | a new book is empty and valid |
| `AddressBooks.AddressBook.AddRecord` | address_book.py:88-91 | the record is filed under its name, replacing any earlier one; every other name finds what it found before; the names stay the records' own |
| `AddressBooks.AddressBook.Find` | address_book.py:93-97 | a record is returned exactly when the name is a key, and it is the record filed there; in a valid book that record carries the name it was looked up by |
| `AddressBooks.AddressBook.Delete` | address_book.py:99-104 | the name is no longer a key; the result is `NotFound` exactly when it was absent; the size drops by one or stays; other names are untouched |
| `Examples.RenderTwoPhones` | test.py:91-96 | a record `John Doe` with two phones renders as `Contact name: John Doe, phones: 1234567890; 0987654321` |

## Left out

- Printed diagnostics are left out (address_book.py:25, 42, 48, 56, 65, 72, 91, 97, 104). They are console output and do not change state. The conditions they report are returned as `Outcome`, `Result` or `Option` values.
- The `__main__` demonstration (address_book.py:107-143) is left out. It only calls the API. `Examples` replays comparable scenarios.
- Invalid numbers: the source's `Phone.__init__` returns without setting `value`. `add_phone` then appends that valueless object and fails while printing it. `edit_phone` stores one. The model never builds such a phone: it reports `InvalidNumber` and leaves the list unchanged. This is a deliberate divergence.
- Unicode digits are left out. Python's `\d` matches any Unicode decimal digit, but the model accepts only `'0'..'9'`.
- Fields holding non-string values (`str(12345)` in test.py:37-40) are left out. Every value is a `string`, and `str()` of a field is that string.
- `UserDict` behaviour beyond `data` is left out, including iteration in insertion order. A Dafny `map` has no order, so printing all records is not modelled.
- Python object identity is left out. Phones are values, and one phone is named by its position. Records are references, as in the source.
- `Fields.IsValidNumber`, not the pattern as written, is the rule the record uses (see Findings).

## Findings

| source | as written | input that shows it | evidently intended | confidence | as-written member | corrected member |
|---|---|---|---|---|---|---|
| address_book.py:32-33 | `re.match(r"^\d{10}$", number)`, where `$` also matches just before a final newline | `"1234567890\n"` is accepted, and that 11-character string would be stored as a phone | the whole string is exactly ten digits (a full match) | high, not executed | `Fields.MatchesPattern` (with `Fields.TrailingNewlineAccepted`) | `Fields.IsValidNumber` (with `Fields.IsValidNumberIff`) |
