# Rust-by-example tutorial: verified model of its record and line-search code

The repository is a Rust tutorial. Two parts of it behave in a way that can be
stated and proved. This project models both in Dafny.

- **`TitleBasics`** (src/lib.rs) is a record with a mandatory `id` and three
  optional attributes: `title_type`, `primary_title` and `start_year`.
  It is built one of two ways. `TitleBasics::from` reads a map from field
  names to texts. `TitleBasics::from_db_row` reads a database row through
  `DbRow`, a capability with two operations: an optional string per column
  and an optional `i32` per column. The year is read and written with
  `get_start_year` and `set_start_year`. `TestDbRow`, the unit test's row,
  keeps its columns in a map.
- **Line search** (src/main.rs) finds the first line that contains a pattern,
  solved three ways:
  - an indexed loop that writes the index through `&mut usize`;
  - an iterator chain that returns the index, or `usize::MAX` when no line
    matches;
  - `find` over the lines, returning the line itself.

  Beside it are the small computing snippets: `transpose`, `Point`
  addition, the ordered `match` classifications and a `while let` stack
  drain.

Files and modules:

- `prelude.dfy` (`Prelude`): `Option`, and `i32` and `usize` as subset
  types of `int`. `usize` is taken to be 64 bits wide.
- `int_parse.dfy` (`IntParse`): `str::parse::<i32>`. It has a reference
  grammar (`IsI32Text`) with its value (`DecimalValue`), and a
  digit-by-digit parser with an overflow check at every step (`ParseI32`).
  The parser is proved to accept exactly the grammar's texts and to return
  their values.
- `titles.dfy` (`Titles`): src/lib.rs.
  - `FieldKey` and `ColumnName` are the two fixed key tables: the map keys
    `from` looks up ("id", "title_type", "primary_title", "start_year") and
    the columns `from_db_row` reads ("tconst", "titletype", "primarytitle",
    "startyear").
  - `TitleBasics` is a class with the struct's four fields. Its constructors
    are specified by the pure functions `FromFields` and `FromRow`, and
    `SetStartYear` updates the object in place.
  - `DbRow` is a datatype of two partial functions. A panic inside a row
    operation, such as the test row's `unwrap`, is that function's
    precondition.
- `line_search.dfy` (`LineSearch`): the search functions of src/main.rs.
  `Contains` is the substring predicate.
- `patterns.dfy` (`Patterns`): the remaining snippets of src/main.rs.

Panics become preconditions:

- indexing the map with `"id"` when the key is missing;
- `unwrap` on a missing `tconst`;
- `unwrap` on a test-row year text that does not parse;
- `i32` overflow in `Point` addition, which panics in a debug build.

Printed output is modelled as the value the code selects or computes.

`from` turns a year text that does not parse into an absent year: it applies
`.ok()` to the parse (src/lib.rs:21-23). A real row parses no text: its
`try_get::<i32>(...).ok()` turns every failed read of the column into `None`
(src/lib.rs:82-84). The test row's `opt_i32` unwraps the parse of its text
instead (src/lib.rs:116), so in the model a test row whose year text does not
parse is a precondition violation. `TestDbRow.OptI32` and
`FromRowAgreesWithFromFields` state this.

## Model

| member | source | states |
|---|---|---|
| `IntParse.ParseI32` | src/lib.rs:21-23 | the year parse `parse::<i32>().ok()` is `Some` exactly for an optional sign followed by one or more digits whose value is in the `i32` range, and then it is that value |
| `IntParse.Accumulate` | src/lib.rs:23 | the checked digit fold never returns a magnitude above its limit |
| `IntParse.AccumulateValue` | src/lib.rs:23 | the fold with an overflow check at every step returns the positional value of the digits, and fails exactly when a character is not a digit or the value passes the limit |
| `IntParse.ParseYearExample` | src/lib.rs:43 | the example year text "1999" parses to 1999 |
| `IntParse.ParseRejectsMalformed` | src/lib.rs:21-23 | the empty text, a lone sign and a text containing a non-digit do not parse, so `from` leaves the year absent for them |
| `IntParse.ParseRejectsOverflow` | src/lib.rs:21-23 | "2147483648", one past `i32::MAX`, follows the grammar but does not parse |
| `IntParse.ParseI32MinExample` | src/lib.rs:23 | "-2147483648", which is `i32::MIN`, parses |
| `Titles.Get` | src/lib.rs:17-20 | `map.get(key)` with `to_string` is `Some(m[key])` exactly when the key is present |
| `Titles.FromFields` | src/lib.rs:14-25 | needs the key "id" (indexing panics otherwise) and copies it verbatim; `title_type` and `primary_title` are present exactly when their keys are, with the map's text; `start_year` is present exactly when its key holds an `i32` text, with that text's value, and is otherwise absent without failing |
| `Titles.FromIdOnlyFields` | src/lib.rs:14-25 | a map holding only "id" yields that id and every optional attribute absent |
| `Titles.FromFieldsExample` | src/lib.rs:39-45 | the example map yields id "tt000001", "documentary", "The Blue Planet" and year 1999 |
| `Titles.FromRow` | src/lib.rs:62-69 | needs `opt_string("tconst")` to be `Some` (it is unwrapped) and takes the id from it; `title_type`, `primary_title` and `start_year` are the `titletype`, `primarytitle` and `startyear` lookups passed through unchanged |
| `Titles.TestDbRow.OptString` | src/lib.rs:112-114 | the mock's string lookup is `Some` exactly when the column is in its map, with the mapped text |
| `Titles.TestDbRow.OptI32` | src/lib.rs:115-117 | the mock's integer lookup unwraps the parse, so a present text that does not parse is a precondition violation; otherwise it is `Some` exactly when the column is present, with the text's value |
| `Titles.TestDbRow.AsDbRow` | src/lib.rs:111-118 | the mock seen as a `DbRow`: its string operation is defined everywhere and agrees with `OptString`; its integer operation is defined and agrees with `OptI32` wherever the text parses |
| `Titles.FromIdOnlyTestRow` | src/lib.rs:123-128 | a test row holding only "tconst" gives that id and every optional attribute `None` |
| `Titles.FromRowAgreesWithFromFields` | src/lib.rs:62-68 | a test row and a map holding the same texts, each under its own fixed key table, build the same record through `from_db_row` and `from`, provided the year text parses |
| `Titles.TitleBasics.From` | src/lib.rs:14-25 | the new object's fields are the record `FromFields` builds |
| `Titles.TitleBasics.FromDbRow` | src/lib.rs:62-69 | the new object's fields are the record `FromRow` builds |
| `Titles.TitleBasics.GetStartYear` | src/lib.rs:28-30 | returns the stored year; as a function it reads the object and changes nothing |
| `Titles.TitleBasics.SetStartYear` | src/lib.rs:32-34 | afterwards the year is `Some(v)` whatever it was before, and `id`, `title_type` and `primary_title` are unchanged |
| `Titles.StructImpl` | src/lib.rs:38-50 | building from the example map reads back `Some(1999)`; after `set_start_year(1998)` it reads back `Some(1998)` |
| `Titles.TestTitleBasicsFromDbRow` | src/lib.rs:122-130 | the unit test's object has id "abcd" and no optional attributes |
| `LineSearch.FindFrom` | src/main.rs:104-109 | `enumerate().find(...)` from a position returns the first index at or after it whose line contains the pattern, or `None` when no later line does |
| `LineSearch.SearchPatternIter` | src/main.rs:103-113 | the result is below the length exactly when some line contains the pattern, and then it is the first such index; otherwise it is `usize::MAX` |
| `LineSearch.SearchPatternFor` | src/main.rs:89-97 | the loop stores the first index whose line contains the pattern, or `usize::MAX` when none does, and this is always the value `search_pattern_iter` returns |
| `LineSearch.ReturnMatch` | src/main.rs:130-135 | the result is a line of the input containing the pattern, and it is `None` exactly when no line contains it |
| `LineSearch.ReturnMatchFrom` | src/main.rs:130-135 | searching the lines from a position on yields the line at the index the enumerated search finds from that position |
| `LineSearch.ReturnMatchAgreesWithIndex` | src/main.rs:130-135 | `return_match` returns `lines[idx]` for the index `search_pattern_iter` reports when it is below the length, and `None` when it is `usize::MAX` |
| `LineSearch.ReturnMatchBorrow` | src/main.rs:146-151 | the borrowed result is the same line `return_match` returns, and it is the element of `lines` at the first matching index |
| `LineSearch.MatchingLine` | src/main.rs:124 | the line `functions` prints is the line at the index when the index is below the length, and "NOT FOUND" otherwise |
| `LineSearch.MatchingLineAgreesWithReturnMatch` | src/main.rs:124-127 | the line printed for `search_pattern_iter`'s index is the line `return_match` finds, or "NOT FOUND" when it finds none |
| `LineSearch.ExampleFirstMatch` | src/main.rs:117-118 | in the example lines, "gh" first occurs in line 1 |
| `LineSearch.Functions` | src/main.rs:116-128 | both solutions print the matching line "defgh" |
| `LineSearch.Ownership` | src/main.rs:138-144 | `return_match` on the example gives `Some("defgh")` |
| `LineSearch.LifeTime` | src/main.rs:154-161 | `return_match_borrow` on the example gives `Some("defgh")`, and `lines[0]` is still "abcde" afterwards |
| `Patterns.Transpose` | src/main.rs:268-270 | the components of the pair are swapped |
| `Patterns.TransposeTwice` | src/main.rs:268-270 | transposing twice is the identity |
| `Patterns.TransposeExample` | src/main.rs:297-298 | (2, 3) transposes to (3, 2) |
| `Patterns.Add` | src/main.rs:358-363 | point addition is componentwise, for points whose sums fit in `i32` |
| `Patterns.AddCommutes` | src/main.rs:355-364 | point addition does not depend on the order of its operands |
| `Patterns.AddPoints` | src/main.rs:366-368 | (1, 0) + (2, 3) == (3, 3) |
| `Patterns.ClassifyNum` | src/main.rs:259-265 | the first matching arm decides: 1 and 2 are small, 3 to 7 medium, 8 and 9 almost 10, 0 and below too small, and the catch-all is left with exactly the numbers from 10 on |
| `Patterns.ClassifyNumExample` | src/main.rs:220 | `num = 3` is a medium number |
| `Patterns.MatchOptionInt` | src/main.rs:235-242 | `None` does nothing, `Some(0)` is caught before the general arm, and `Some(n)` is reported exactly when `n` is not 0 |
| `Patterns.MatchOptionIntExample` | src/main.rs:217 | `option_int = Some(42)` is reported with n = 42 |
| `Patterns.DrainStack` | src/main.rs:285-287 | popping until `pop` returns `None` empties the stack and yields its elements from top to bottom |
| `Patterns.WhileLetExample` | src/main.rs:275-292 | the stack ['a', 'b', 'c'] comes out as c, b, a, and the `for` loop after it has nothing left to enumerate |

## Left out

- `query_title_basics` and `impl DbRow for PgRow` (src/lib.rs:72-95): these are asynchronous database calls through sqlx. A real row is any `DbRow` value; its two operations are arbitrary functions.
- The `str::parse::<i32>` and `str::contains` library code: parsing is specified by its grammar and range, and `contains` as a substring of characters. A substring of characters is the same as a substring of the UTF-8 bytes of valid strings.
- Titles.TestDbRow.AsDbRow: states only where its integer operation is defined, not that it panics on a column whose text does not parse. Dafny proves that a lambda's precondition holds but not that it fails. The panic is stated on `TestDbRow.OptI32` instead.
- Patterns.Add: does not model the wrap-around of a release build. The precondition is the debug build's overflow panic.
- Moving `lines` into `return_match` (src/main.rs:141) leaves the vector unusable; Dafny values are never consumed, so this is not modelled.
- Writing through `&mut usize` in `search_pattern_for`: the model returns the index instead, because the caller's value is never read before being overwritten.
- `variables_and_values` (src/main.rs:50-85) and its globals: it has no result to state.
- `borrowing` (src/main.rs:164-194): the closures, the spawned thread and `sort_by_key`. The ordering of the key calls is a std detail.
- `iterator` (src/main.rs:197-208), and the `msg`, `double_val`, `user` and `array` matches of `match_expressions`: they compute nothing that is used or returned.
- The `if let` on `bread_spread` (src/main.rs:278-282): it only prints.
- The `Animal`, `Fox` and `Chicken` dispatch demo (src/main.rs:303-343). Its `test_animals` expects species "chicken" for a `Chicken`, but `Chicken::species` returns "Chicken", so that assertion would fail at run time and is not stated.
- Printed output everywhere: each arm is modelled as the value it selects.
