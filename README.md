# OCBC expense tracker: the message-to-ledger parser

This project models the part of the expense tracker that turns OCBC bank alert
e-mails into a ledger table. The messages have already been fetched.

- `parse_debit_ocbc` walks the card-debit alerts. For every `Date` header it
  cuts out the day-month-year text and parses it. For every message it cuts a
  description and an amount out of the preview `snippet`. The results are
  three parallel lists.
- `parse_ocbc` extends those lists with a second batch of messages:
  - a `Subject` exactly equal to `OCBC Alert Withdrawal Made` adds a
    withdrawal row, described `-`;
  - any other `Subject` containing `Pay Anyone` adds a transfer row;
  - a withdrawal is skipped (`break`, so the message's remaining headers are
    not looked at) when its amount string is already in the list and is at
    least 10.
  It then reverses the three lists and packs them into a four-column table
  whose `Source` is `OCBC` on every row.

Files:

- `py_builtins.dfy` (module `PyBuiltins`): the Python built-ins the parser
  relies on. `str.find` is `Find`, with its meaning proved (first
  occurrence, -1 when absent). Slicing is `Slice`, with CPython's handling of
  negative and out-of-range bounds. `in` on strings is `Contains`,
  `list.reverse()` is `Reversed`, and `[x] * n` is `Repeat`.
- `expense_tracker.dfy` (module `ExpenseTracker`): the data model, the field
  extractions, and specification functions for both parsers (`DebitBatch`,
  `ScanHeaders`, `ScanMessages`, `Accumulated`, `Ocbc`). It also holds the
  two parsers as imperative methods with nested `while` loops that append to
  the lists. Each method is proved to return exactly its specification
  function.
- `expense_tracker_properties.dfy` (module `ExpenseTrackerProperties`): what
  the parser promises, proved as lemmas about the specification functions.

The two foreign calls are parameters of a `Library<D>` over an abstract date
type `D`:

- `strptime` is `datetime.strptime(text, '%d %b %Y')`;
- `atLeastTen` is `float(amt) >= 10`.

A `None` from either is the `ValueError` Python raises. Every exception ends
the parse, so both parsers return a `Result` whose errors are:

- `DateFormatError`: strptime failed;
- `AmountFormatError`: float failed;
- `DateUnbound`: the `UnboundLocalError` raised when a second-batch row is
  appended before any `Date` header has set `date`;
- `ColumnLengthMismatch`: pandas refuses columns of different lengths. This
  happens when the debit batch has more or fewer `Date` headers than
  messages.

Where the documented behaviour of the parser and its code disagree, the model follows the code:

- A missing anchor is not an error. `find` returns -1 and the slice goes on
  with `-1 + offset`, normalised Python's way. The `...Without...` lemmas show
  what such a slice yields.
- The debit amount starts right after `SGD` (offset 3, not 4). So
  `SGD 45.60 was charged` yields ` 45.60`, leading space included
  (`DebitAmountAnchored`). The withdrawal amount starts at offset 4, so
  with the same `SGD <x>` layout a withdrawal amount never equals a debit
  amount (`DebitAndWithdrawalAmountsDiffer`). The duplicate rule then only
  fires against earlier second-batch rows, or against a debit snippet written
  `SGD<x>` with no space.
- A failure does not skip the offending message and carry on: any exception
  (a date or amount that does not parse, an unbound `date`, unequal columns)
  aborts the whole parse, which the model renders as `Result.Err`.
- Fields are not trimmed: each is the raw slice, spaces included.
- Dates and rows are paired only by count. A batch in which one message has
  no Date header and another has two builds a table whose dates are shifted
  against the rows (`MisalignedDebitDates`).

## Model

| member | source | states |
|---|---|---|
| ExpenseTracker.ParseHeaderDates | ExpenseTracker.py:82-88 | the inner header loop returns the parsed date of every Date header, in header order, or the first strptime failure: exactly `HeaderDates` |
| ExpenseTracker.ParseDebitOcbc | ExpenseTracker.py:74-100 | the nested loops of parse_debit_ocbc return exactly `DebitBatch`: one description and one amount per message, plus the dates of all Date headers, or the first failure |
| ExpenseTracker.ScanMessageHeaders | ExpenseTracker.py:113-145 | the second-batch header loop, including the `break` on a duplicate withdrawal and the error paths, computes exactly `ScanHeaders` from the current lists and `date` |
| ExpenseTracker.ParseOcbc | ExpenseTracker.py:103-155 | parse_ocbc, meaning the debit batch, the second-batch loops, the three in-place reversals and the DataFrame, returns exactly `Ocbc` |
| ExpenseTracker.DebitBatchErrorPersists | ExpenseTracker.py:79-88 | once a prefix of the debit batch raises, the whole batch fails with that same error |
| ExpenseTracker.DebitBatchFailsAt | ExpenseTracker.py:82-88 | a message whose Date headers do not all parse ends the whole batch with that message's error |
| ExpenseTracker.HeaderDatesErrorPersists | ExpenseTracker.py:82-88 | once a prefix of one message's headers raises, the message fails with that same error |
| PyBuiltins.FindFromMeaning | ExpenseTracker.py:85-86 | a search from index i returns -1 exactly when p occurs nowhere at or after i, and otherwise the first occurrence at or after i |
| PyBuiltins.Find | ExpenseTracker.py:92-95 | `str.find` returns -1 or an index at which the whole pattern fits |
| PyBuiltins.FindMeaning | ExpenseTracker.py:92-95 | `str.find` returns -1 exactly when the pattern does not occur, and otherwise the lowest index where it occurs |
| PyBuiltins.FindIsFirst | ExpenseTracker.py:139 | `find` returns i exactly when i is the first occurrence, in both directions |
| PyBuiltins.ContainsMeaning | ExpenseTracker.py:136 | `'Pay Anyone' in subject` holds exactly when the marker occurs somewhere in the subject |
| PyBuiltins.FindAfterPrefix | ExpenseTracker.py:124-125 | an anchor written right after a prefix in which it does not start is found at the prefix's length |
| PyBuiltins.SliceBetweenAnchors | ExpenseTracker.py:92-98 | slicing from a fixed offset after one anchor to a fixed offset before a later anchor yields exactly the text written between them |
| PyBuiltins.SliceBeforeAnchor | ExpenseTracker.py:116-117 | slicing from the start to a fixed offset before an anchor yields exactly the text written before it |
| PyBuiltins.SliceInBounds | ExpenseTracker.py:97-98 | within bounds a Python slice is the plain subsequence |
| PyBuiltins.Reversed | ExpenseTracker.py:149-151 | `reverse()` keeps the length and puts element k at position len-1-k |
| PyBuiltins.ReversedTwice | ExpenseTracker.py:149-151 | reversing is its own inverse |
| PyBuiltins.Repeat | ExpenseTracker.py:154 | `['OCBC'] * n` has length n and is `OCBC` everywhere |
| ExpenseTrackerProperties.DebitDateTextAnchored | ExpenseTracker.py:84-87 | from `weekday, dmy hh:...` the debit date text handed to strptime is exactly `dmy` |
| ExpenseTrackerProperties.SecondDateTextAnchored | ExpenseTracker.py:115-117 | from `dmy hh:...` the second-batch date text is exactly `dmy` |
| ExpenseTrackerProperties.DebitAmountAnchored | ExpenseTracker.py:94-98 | from `...SGD<x> was charged...` the debit amount is exactly `x`, including any leading space |
| ExpenseTrackerProperties.DebitDescAnchored | ExpenseTracker.py:92-97 | the debit description runs from 5 characters after the first `)` to 2 characters before the disclaimer sentence |
| ExpenseTrackerProperties.WithdrawalAmountAnchored | ExpenseTracker.py:124-126 | from `...SGD <x> was withdrawn...` the withdrawal amount is exactly `x` |
| ExpenseTrackerProperties.PayAnyoneAmountAnchored | ExpenseTracker.py:140-144 | from `...SGD <x> From...` the transfer amount is exactly `x` |
| ExpenseTrackerProperties.PayAnyoneDescAnchored | ExpenseTracker.py:139-143 | the transfer description is the snippet up to its first full stop |
| ExpenseTrackerProperties.DebitAmountWithoutAnchors | ExpenseTracker.py:94-98 | with neither anchor present, the debit amount is the snippet minus two characters at each end, not an error |
| ExpenseTrackerProperties.PayAnyoneDescWithoutStop | ExpenseTracker.py:139-143 | with no full stop, the transfer description is the snippet minus its last character |
| ExpenseTrackerProperties.WithdrawalAmountWithoutCurrency | ExpenseTracker.py:124-126 | with no `SGD`, the withdrawal amount starts at index 3 |
| ExpenseTrackerProperties.ParseAllMeaning | ExpenseTracker.py:87 | parsing a list of date texts succeeds exactly when every text parses, and then yields their dates in order; otherwise the error names the first failing text |
| ExpenseTrackerProperties.ParseAllAppend | ExpenseTracker.py:79-88 | parsing a concatenation parses the first part, then the second |
| ExpenseTrackerProperties.HeaderDatesIsParseAll | ExpenseTracker.py:82-88 | the dates of one message are its Date texts parsed in header order |
| ExpenseTrackerProperties.DebitBatchDates | ExpenseTracker.py:79-88 | the debit batch fails exactly when some Date text fails, with the first such text; otherwise `dates` has one entry per Date header, in order |
| ExpenseTrackerProperties.SnippetsAt | ExpenseTracker.py:91-98 | the list of one field cut from every message's snippet has one entry per message, entry i cut from message i |
| ExpenseTrackerProperties.DebitBatchLists | ExpenseTracker.py:90-98 | a successful debit batch's descriptions and amounts are the description and the amount cut from each message's snippet, in message order |
| ExpenseTrackerProperties.DebitBatchRows | ExpenseTracker.py:90-98 | a successful debit batch has exactly one description and one amount per message, in order, each cut from that message's snippet |
| ExpenseTrackerProperties.DebitBatchCounts | ExpenseTracker.py:79-98 | `len(dates)` is the number of Date headers; `len(descs) == len(amounts) == len(lst)` |
| ExpenseTrackerProperties.LatestDateIsMostRecent | ExpenseTracker.py:113-117 | the `date` in force is the parse of the last Date header seen, or the one carried over from earlier messages when there is none |
| ExpenseTrackerProperties.QuietPrefix | ExpenseTracker.py:113-145 | headers that cannot add a row only move `date` forward |
| ExpenseTrackerProperties.UnmatchedMessageAddsNoRow | ExpenseTracker.py:119-145 | a message whose subjects are neither exactly the withdrawal subject nor contain `Pay Anyone` leaves the lists unchanged |
| ExpenseTrackerProperties.WithdrawalAfterQuietHeaders | ExpenseTracker.py:121-133 | a withdrawal whose amount is already listed and at least 10 ends the message with no row; a float failure raises; otherwise a `-` row with the latest date is appended, or the parse fails when no date is bound |
| ExpenseTrackerProperties.PayAnyoneAfterQuietHeaders | ExpenseTracker.py:136-145 | a Pay Anyone subject appends the snippet's description and amount with the latest date, duplicate or not, or fails when no date is bound |
| ExpenseTrackerProperties.HeaderStepAppends | ExpenseTracker.py:113-145 | one header keeps the lists as prefixes and appends only whole rows, each a withdrawal or a Pay Anyone row of the message |
| ExpenseTrackerProperties.ScanHeadersAppends | ExpenseTracker.py:113-145 | scanning one message keeps the existing lists as prefixes and appends only rows of that message |
| ExpenseTrackerProperties.ScanMessagesAppends | ExpenseTracker.py:110-145 | the second batch keeps the existing lists as prefixes and appends only rows of its messages |
| ExpenseTrackerProperties.AccumulatedExtendsDebit | ExpenseTracker.py:108-145 | the accumulated lists are the debit batch's lists followed by second-batch rows |
| ExpenseTrackerProperties.OcbcMeaning | ExpenseTracker.py:148-154 | the table exists exactly when the lists do and `len(dates) == len(descs)`; its columns are the accumulation order reversed, and Source is `OCBC` on every row |
| ExpenseTrackerProperties.ColumnMismatchIffDateHeaderCount | ExpenseTracker.py:108-154 | once the lists are built, the table fails exactly when the debit batch does not have as many Date headers as messages |
| ExpenseTrackerProperties.DuplicateWithdrawalSuppressed | ExpenseTracker.py:127-133 | an instance for ONE debit message and one alert with headers `[Date, Subject]` whose amount string equals the debit amount: at least 10, the accumulated lists (before reversal) are the debit batch's alone; below 10, a `-` row with the alert's date follows the debit row. The general rule is `WithdrawalAfterQuietHeaders` |
| ExpenseTrackerProperties.MissingDebitDateBreaksTable | ExpenseTracker.py:154 | an instance: a debit batch of ONE message without a Date header and an empty second batch gives `ColumnLengthMismatch(0, 1)`. The general condition is `ColumnMismatchIffDateHeaderCount` |
| ExpenseTrackerProperties.TwoDebitDates | ExpenseTracker.py:82-88 | a message with two Date headers that parse contributes both dates, in header order |
| ExpenseTrackerProperties.MisalignedDebitBatch | ExpenseTracker.py:79-98 | a message with no Date header followed by one with two gives two dates and two rows, with no error |
| ExpenseTrackerProperties.MisalignedDebitDates | ExpenseTracker.py:148-154 | the same batch builds a table, and after the reversal the first message's row carries the second message's first date: dates are paired with rows only by count |
| ExpenseTrackerProperties.DebitAndWithdrawalAmountsDiffer | ExpenseTracker.py:124-128 | with the same `SGD <x>` layout, the debit amount is `" " + x` and the withdrawal amount is `x`, so they differ and `amt in amounts` does not match such a debit entry |

## Left out

- `tracker`, `to_google_sheets`, `make_query` and `main`: credentials, file I/O, the Gmail and Google Sheets APIs, and printing. None of them is part of this model. The code never sorts by date and never sums a total itself, so the model claims neither.
- `datetime.strptime` and `float`: foreign library calls. They are the abstract `Library` functions, so nothing is proved about which texts they accept.
- The message dictionaries: a `Message` always has its header list and snippet. The `KeyError` for a missing key and the other message fields are not modelled.
- pandas: `DataFrame` is modelled only as four columns that must have one length. Column types, the index and pandas' exact error text are not modelled.
- The lists are local variables, so each in-place `reverse()` is modelled as the value `Reversed` of the list. No other reference to a list exists.
- When `DateUnbound` is raised, the lists have already grown by a description and an amount. The exception discards them, so the model leaves them unchanged.
