# Wildberries acceptance coefficients sync: a Dafny model of its core

`fetch_wb_acceptance_coefficients.py` downloads warehouse acceptance
coefficients from the Wildberries supplies API and fully reloads a Supabase
table with them. It fetches, normalizes every record, deletes the table's rows,
then inserts the normalized rows in batches of 500. This project models the
pure and sequential core of that script and proves properties of it:

- `Text`: Python's `str.strip()`, using exactly the `str.isspace()` character
  set. Also `str.replace(",", ".")` and `str.split("T", 1)[0]`.
- `Numeric`: `safe_to_numeric`. Python's `float()` on a string is the
  function parameter `parse: string -> Option<real>`, where `None` stands for
  `ValueError`. What is verified is the dispatch on the value's type and the
  text preprocessing.
- `Normalize`: `normalize_row`, which truncates the date and copies or
  converts each field, and the list comprehension that applies it to every
  fetched record.
- `Batching`: the `chunked` generator, written as a method whose loop steps
  `i` by `size`.
- `Sync`: `main` from normalization on. The delete and the inserts are not
  performed. Instead, a ghost log records each table call, and `Replay` says
  what the table holds after those calls.
- `Json`: the decoded JSON values the script handles, and `dict.get`.

The model follows the code as written on points where a full-reload job might
be expected to behave otherwise:
- There is no "nothing to sync" short-circuit. With zero rows, the table is
  still cleared and no insert is made.
- No row is dropped for a bad date. Any non-truncatable date is passed through.
- Booleans are not defaulted to `false`. A missing flag is `None`.
- The batch size is the literal 500, not a setting.
- The delete carries no date filter.

## Model

| member | source | states |
|---|---|---|
| Text.StripLeft | fetch_wb_acceptance_coefficients.py:54 | the result is a suffix of the input; everything dropped is whitespace; the result is empty or starts with a non-space |
| Text.StripRight | fetch_wb_acceptance_coefficients.py:54 | the result is a prefix of the input; everything dropped is whitespace; the result is empty or ends with a non-space |
| Text.Strip | fetch_wb_acceptance_coefficients.py:54 | the result is a middle slice of the input with all-whitespace parts on both sides, and is empty or bounded by non-space characters |
| Text.StripEmpty | fetch_wb_acceptance_coefficients.py:54-56 | `strip()` gives the empty string exactly when the input is all whitespace (both directions) |
| Text.StripPadded | fetch_wb_acceptance_coefficients.py:54 | adding whitespace on either side does not change what `strip()` returns |
| Text.ReplaceCommas | fetch_wb_acceptance_coefficients.py:59 | same length; every ',' becomes '.', every other character is kept in place |
| Text.BeforeFirst | fetch_wb_acceptance_coefficients.py:97 | the result is a prefix free of the separator; it is shorter than the input exactly when the separator occurs, and then it stops at the first occurrence |
| Numeric.NumericText | fetch_wb_acceptance_coefficients.py:54-59 | the text handed to `float()` is as long as the stripped input and holds no comma |
| Numeric.SafeToNumeric | fetch_wb_acceptance_coefficients.py:47-63 | `None`, lists and dicts give `None`; `True`/`False` give 1.0/0.0 (bool is an int); ints and floats convert directly; a string that is all whitespace gives `None`, any other gives what the parser makes of its stripped, comma-replaced text |
| Numeric.SafeToNumericNone | fetch_wb_acceptance_coefficients.py:49-63 | the result is `None` exactly for `None`, lists, dicts, whitespace-only strings and strings the parser rejects (both directions); it never raises |
| Numeric.SafeToNumericString | fetch_wb_acceptance_coefficients.py:53-60 | a string that is not all whitespace gives exactly what the parser makes of its stripped, comma-replaced text |
| Numeric.StripReplaceCommute | fetch_wb_acceptance_coefficients.py:54-59 | replacing commas before or after stripping yields the same text |
| Numeric.SeparatorInsensitive | fetch_wb_acceptance_coefficients.py:59-60 | two strings that agree once commas are read as full stops give the same result |
| Numeric.WhitespaceInsensitive | fetch_wb_acceptance_coefficients.py:54-60 | surrounding whitespace does not change the result |
| Numeric.CommaDotExample | fetch_wb_acceptance_coefficients.py:59-60 | "12,5" and "12.5" give the same result |
| Numeric.DotExample | fetch_wb_acceptance_coefficients.py:54-60 | "12.5" reaches the parser unchanged |
| Numeric.PaddedCommaExample | fetch_wb_acceptance_coefficients.py:54-60 | " 12,5" reaches the parser as "12.5" |
| Normalize.TruncateDate | fetch_wb_acceptance_coefficients.py:94-99 | a string containing 'T' becomes its prefix before the first 'T', which has no 'T'; any other value is returned unchanged |
| Normalize.TruncateDateIdempotent | fetch_wb_acceptance_coefficients.py:94-99 | truncating an already truncated date changes nothing |
| Normalize.TruncateTimestamp | fetch_wb_acceptance_coefficients.py:96-97 | `date + "T" + time` with no 'T' in `date` becomes exactly `date` |
| Normalize.TruncateApiExample | fetch_wb_acceptance_coefficients.py:83-97 | "2024-04-11T00:00:00Z" becomes "2024-04-11" |
| Normalize.PresentFieldsCopied | fetch_wb_acceptance_coefficients.py:94-117 | a present `warehouseID`, `warehouseName`, `boxTypeID`, `coefficient`, `allowUnload` or `isSortingCenter` is copied unchanged; a present date without 'T' is copied unchanged |
| Normalize.MissingKeysGiveNone | fetch_wb_acceptance_coefficients.py:94-117 | each of the thirteen columns is `None` when its raw key is missing (never zero, never `False`) |
| Normalize.NormalizeRowReadsOnly | fetch_wb_acceptance_coefficients.py:79-118 | two records that agree on the thirteen keys read produce the same row; no other key matters |
| Normalize.NormalizeAll | fetch_wb_acceptance_coefficients.py:140 | the comprehension completes exactly when every fetched element is a dict; then it yields one row per record, in order, each being `normalize_row` of that record |
| Batching.CeilDivExact | fetch_wb_acceptance_coefficients.py:122 | k slices of `size` that cover n items while k - 1 do not means k = ceil(n / size) |
| Batching.SliceShape | fetch_wb_acceptance_coefficients.py:122-123 | while the slice start is inside the list, slice k is non-empty and at most `size` long; every slice before the last is exactly `size` long |
| Batching.SlicesShape | fetch_wb_acceptance_coefficients.py:122-123 | the slices taken at 0, size, 2*size, ... before the end number ceil(len / size), are non-empty, at most `size`, and all but the last are full |
| Batching.ChunkStep | fetch_wb_acceptance_coefficients.py:122-123 | one generator step appends slice number k and keeps the batches a prefix of the input |
| Batching.Chunked | fetch_wb_acceptance_coefficients.py:121-123 | the batches concatenate back to the input in order; there are ceil(len / size) of them (none for an empty list); each is `seq[k*size : k*size + size]`, non-empty and at most `size` long; all but the last are full |
| Sync.ReplaySnoc | fetch_wb_acceptance_coefficients.py:144-151 | making one more table call applies it to what the earlier calls left |
| Sync.ReplayInserts | fetch_wb_acceptance_coefficients.py:148-151 | inserting batches in order into an empty table leaves their concatenation |
| Sync.Reload | fetch_wb_acceptance_coefficients.py:143-151 | one delete, then ceil(N / 500) inserts of 1 to 500 rows each; insert k carries rows[(k-1)*500 : k*500], so all but the last carry exactly 500; `inserted` ends equal to N; the table then holds exactly the normalized rows, whatever it held before |
| Sync.Sync | fetch_wb_acceptance_coefficients.py:139-151 | the run stops before any table call exactly when a fetched element is not a dict; otherwise `inserted` equals the number of fetched records and the table ends up holding their normalized rows in order |

## Left out

- The HTTP request, the status and shape checks, and JSON decoding (lines 66-76) are network I/O. `Sync.Sync` starts from the already decoded list.
- The Supabase client, the delete and the insert calls (lines 133, 144, 150) are foreign library calls. They are recorded in a ghost log of `TableCall`s instead.
- The model does not capture a failed delete or insert, which raises and ends the run. Every recorded call succeeds.
- Environment reading, the request headers, `fail`/`sys.exit` and every `print` (lines 30-44, 127-131, 137-154) are process plumbing.
- Numeric.SafeToNumeric: `float()` on a string is the `parse` parameter, not a model of Python's parser.
- Numeric.SafeToNumeric: ints and floats become exact reals. Binary rounding, NaN and infinities are not modelled, and neither is the `OverflowError` that `float()` raises for an int beyond the double range. The source does not catch that error.
- Batching.Chunked: requires a positive size. The source's only call passes 500. The generator is not modelled for a step of 0 (where `range` raises) or a negative step (where it yields nothing).
- Sync.Reload: the source interleaves the generator with the inserts. The model takes all slices first, then inserts them in the same order. Nothing observable differs, since the slicing has no effects.
- Normalize.NormalizeAll: a non-dict element is modelled as stopping the run (Python's `AttributeError` on `.get`). Which element raises first is not modelled, since the outcome is the same.
- Normalize.NormalizeAll: a dict whose numeric field holds an int beyond the double range makes `float()` (line 52) raise `OverflowError` inside the comprehension (line 140), which stops the run. The model converts such an int exactly and does not stop.
- Sync.Sync: for the same reason, a record with such an int is modelled as being normalized and inserted, where the script would stop before any table call.
- Python strings may hold lone surrogate code points. Dafny's `char` does not.
