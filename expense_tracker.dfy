/** The message-to-ledger transformation of the OCBC expense tracker:
    `parse_debit_ocbc` turns card-debit alert messages into three parallel
    columns (dates, descriptions, amounts), and `parse_ocbc` extends those
    columns with withdrawal and "Pay Anyone" transfer alerts, suppresses a
    withdrawal whose amount was already seen (when it is at least 10),
    reverses the columns and packs them, with a constant source column, into
    a four-column table.

    Messages are already fetched. The two foreign library calls, `strptime`
    with the format `%d %b %Y` and the comparison `float(amt) >= 10`, are the
    caller-supplied functions of a `Library`; a `None` from either is the
    `ValueError` Python raises. Every exception ends the whole parse, so the
    parsers return a `Result`. */
module ExpenseTracker {
  import opened PyBuiltins

  datatype Option<T> = None | Some(value: T)

  /** One entry of `msg['payload']['headers']`. */
  datatype Header = Header(name: string, value: string)

  /** A fetched message: its header list and its preview `snippet`. */
  datatype Message = Message(headers: seq<Header>, snippet: string)

  /** The foreign calls, over an abstract date type `D`:
      `strptime(t)` is `datetime.strptime(t, '%d %b %Y')` and
      `atLeastTen(t)` is `float(t) >= 10`. */
  datatype Library<D> = Library(strptime: string -> Option<D>, atLeastTen: string -> Option<bool>)

  /** The exceptions that abort a parse. */
  datatype Error =
    | DateFormatError(text: string)            // strptime raised ValueError on `text`
    | AmountFormatError(text: string)          // float raised ValueError on `text`
    | DateUnbound                              // a row needed `date` before any Date header set it
    | ColumnLengthMismatch(dates: nat, rows: nat) // the DataFrame columns differ in length

  datatype Result<T> = Ok(value: T) | Err(error: Error)

  /** The three lists the parsers append to, in accumulation order. */
  datatype Columns<D> = Columns(dates: seq<D>, descs: seq<string>, amounts: seq<string>)

  /** The DataFrame: columns Date, Description, Amount and Source. */
  datatype Table<D> = Table(date: seq<D>, description: seq<string>, amount: seq<string>, source: seq<string>)

  const DateName := "Date"
  const SubjectName := "Subject"
  const WithdrawalSubject := "OCBC Alert Withdrawal Made"
  const PayAnyoneMarker := "Pay Anyone"
  const WithdrawalDesc := "-"
  const Source := "OCBC"

  // ---------------------------------------------------------------------
  // Field extraction: anchors found with str.find, then a Python slice.
  // ---------------------------------------------------------------------

  /** Debit batch: `date[date.find(',') + 2 : date.find(':') - 3]`. */
  function DebitDateText(v: string): string {
    Slice(v, Find(v, ",") + 2, Find(v, ":") - 3)
  }

  /** Second batch: `date[:date.find(':') - 3]`. */
  function SecondDateText(v: string): string {
    Slice(v, 0, Find(v, ":") - 3)
  }

  /** Debit description: between `)` + 5 and the disclaimer - 2. */
  function DebitDesc(s: string): string {
    Slice(s, Find(s, ")") + 5, Find(s, "If you did not make this transaction") - 2)
  }

  /** Debit amount: between `SGD` + 3 and `was charged` - 1. */
  function DebitAmount(s: string): string {
    Slice(s, Find(s, "SGD") + 3, Find(s, "was charged") - 1)
  }

  /** Withdrawal amount: between `SGD` + 4 and `was withdrawn` - 1. */
  function WithdrawalAmount(s: string): string {
    Slice(s, Find(s, "SGD") + 4, Find(s, "was withdrawn") - 1)
  }

  /** Pay Anyone description: everything before the first full stop. */
  function PayAnyoneDesc(s: string): string {
    Slice(s, 0, Find(s, "."))
  }

  /** Pay Anyone amount: between `SGD` + 4 and `From` - 1. */
  function PayAnyoneAmount(s: string): string {
    Slice(s, Find(s, "SGD") + 4, Find(s, "From") - 1)
  }

  // ---------------------------------------------------------------------
  // parse_debit_ocbc, specified by recursion over the prefixes it has seen.
  // ---------------------------------------------------------------------

  /** The dates that the inner header loop of `parse_debit_ocbc` appends
      for one message, or the first strptime failure. */
  function HeaderDates<D>(lib: Library<D>, hs: seq<Header>): Result<seq<D>>
    decreases |hs|
  {
    if hs == [] then Ok([])
    else
      match HeaderDates(lib, hs[..|hs| - 1])
      case Err(e) => Err(e)
      case Ok(ds) =>
        var h := hs[|hs| - 1];
        if h.name != DateName then Ok(ds)
        else
          var t := DebitDateText(h.value);
          match lib.strptime(t)
          case None => Err(DateFormatError(t))
          case Some(d) => Ok(ds + [d])
  }

  /** What `parse_debit_ocbc(lst)` returns. */
  function DebitBatch<D>(lib: Library<D>, lst: seq<Message>): Result<Columns<D>>
    decreases |lst|
  {
    if lst == [] then Ok(Columns([], [], []))
    else
      match DebitBatch(lib, lst[..|lst| - 1])
      case Err(e) => Err(e)
      case Ok(c) =>
        var m := lst[|lst| - 1];
        match HeaderDates(lib, m.headers)
        case Err(e) => Err(e)
        case Ok(ds) => Ok(Columns(c.dates + ds, c.descs + [DebitDesc(m.snippet)], c.amounts + [DebitAmount(m.snippet)]))
  }

  /** Once a prefix of the batch fails, the whole batch fails the same way. */
  lemma {:induction false} DebitBatchErrorPersists<D>(lib: Library<D>, lst: seq<Message>, n: nat)
    requires n <= |lst|
    requires DebitBatch(lib, lst[..n]).Err?
    ensures DebitBatch(lib, lst) == DebitBatch(lib, lst[..n])
    decreases |lst| - n
  {
    if n < |lst| {
      assert lst[..n + 1][..n] == lst[..n];
      DebitBatchErrorPersists(lib, lst, n + 1);
    } else {
      assert lst[..n] == lst;
    }
  }

  /** Once a prefix of one message's headers fails, the whole header list
      fails the same way. */
  lemma {:induction false} HeaderDatesErrorPersists<D>(lib: Library<D>, hs: seq<Header>, n: nat)
    requires n <= |hs|
    requires HeaderDates(lib, hs[..n]).Err?
    ensures HeaderDates(lib, hs) == HeaderDates(lib, hs[..n])
    decreases |hs| - n
  {
    if n < |hs| {
      assert hs[..n + 1][..n] == hs[..n];
      HeaderDatesErrorPersists(lib, hs, n + 1);
    } else {
      assert hs[..n] == hs;
    }
  }

  /** One more header of a message, as the inner loop of `parse_debit_ocbc` sees it. */
  lemma HeaderDatesStep<D>(lib: Library<D>, hs: seq<Header>, j: nat)
    requires j < |hs|
    requires HeaderDates(lib, hs[..j]).Ok?
    ensures var ds, t := HeaderDates(lib, hs[..j]).value, DebitDateText(hs[j].value);
      HeaderDates(lib, hs[..j + 1]) ==
        if hs[j].name != DateName then Ok(ds)
        else if lib.strptime(t).None? then Err(DateFormatError(t))
        else Ok(ds + [lib.strptime(t).value])
  {
    assert hs[..j + 1][..j] == hs[..j];
  }

  /** One more message of the batch, as the outer loop of `parse_debit_ocbc` sees it. */
  lemma DebitBatchStep<D>(lib: Library<D>, lst: seq<Message>, i: nat)
    requires i < |lst|
    requires DebitBatch(lib, lst[..i]).Ok?
    requires HeaderDates(lib, lst[i].headers).Ok?
    ensures var c, ds := DebitBatch(lib, lst[..i]).value, HeaderDates(lib, lst[i].headers).value;
      DebitBatch(lib, lst[..i + 1]) ==
        Ok(Columns(c.dates + ds, c.descs + [DebitDesc(lst[i].snippet)], c.amounts + [DebitAmount(lst[i].snippet)]))
  {
    assert lst[..i + 1][..i] == lst[..i];
  }

  /** A message whose Date headers do not all parse ends the batch with that error. */
  lemma DebitBatchFailsAt<D>(lib: Library<D>, lst: seq<Message>, i: nat)
    requires i < |lst|
    requires DebitBatch(lib, lst[..i]).Ok?
    requires HeaderDates(lib, lst[i].headers).Err?
    ensures DebitBatch(lib, lst) == Err(HeaderDates(lib, lst[i].headers).error)
  {
    assert lst[..i + 1][..i] == lst[..i];
    DebitBatchErrorPersists(lib, lst, i + 1);
  }

  /** The inner loop of `parse_debit_ocbc` (ExpenseTracker.py:82-88): the
      dates of one message's Date headers, in header order. */
  method ParseHeaderDates<D>(lib: Library<D>, header: seq<Header>) returns (r: Result<seq<D>>)
    ensures r == HeaderDates(lib, header)
  {
    var dates: seq<D> := [];
    var j := 0;
    while j < |header|
      invariant 0 <= j <= |header|
      invariant HeaderDates(lib, header[..j]) == Ok(dates)
    {
      var dct := header[j];
      HeaderDatesStep(lib, header, j);
      if dct.name == DateName {
        var date := DebitDateText(dct.value);
        var parsed := lib.strptime(date);
        if parsed.None? {
          HeaderDatesErrorPersists(lib, header, j + 1);
          return Err(DateFormatError(date));
        }
        dates := dates + [parsed.value];
      }
      j := j + 1;
    }
    assert header[..j] == header;
    r := Ok(dates);
  }

  /** `parse_debit_ocbc` (ExpenseTracker.py:74-100). */
  method ParseDebitOcbc<D>(lib: Library<D>, lst: seq<Message>) returns (r: Result<Columns<D>>)
    ensures r == DebitBatch(lib, lst)
  {
    var dates: seq<D> := [];
    var descs: seq<string> := [];
    var amounts: seq<string> := [];
    var i := 0;
    while i < |lst|
      invariant 0 <= i <= |lst|
      invariant DebitBatch(lib, lst[..i]) == Ok(Columns(dates, descs, amounts))
    {
      var msg := lst[i];
      var found := ParseHeaderDates(lib, msg.headers);
      if found.Err? {
        DebitBatchFailsAt(lib, lst, i);
        return Err(found.error);
      }
      dates := dates + found.value;
      var snippet := msg.snippet;
      descs := descs + [DebitDesc(snippet)];
      amounts := amounts + [DebitAmount(snippet)];
      DebitBatchStep(lib, lst, i);
      i := i + 1;
    }
    assert lst[..i] == lst;
    r := Ok(Columns(dates, descs, amounts));
  }

  // ---------------------------------------------------------------------
  // The second batch of parse_ocbc, specified as a scan from the front.
  // ---------------------------------------------------------------------

  /** The state of the second-batch loop: the three lists and the variable
      `date`, which is unbound (`None`) until the first Date header. */
  datatype Scan<D> = Scan(cols: Columns<D>, date: Option<D>)

  /** What one header does to the loop: go on with the next header, or
      `break` out of this message's header loop. */
  datatype Step<D> = Continue(st: Scan<D>) | Break(st: Scan<D>)

  /** `descs.append(desc); amounts.append(amt); dates.append(date)`. */
  function AppendRow<D>(st: Scan<D>, desc: string, amt: string): Result<Step<D>> {
    match st.date
    case None => Err(DateUnbound)
    case Some(d) =>
      Ok(Continue(Scan(Columns(st.cols.dates + [d], st.cols.descs + [desc], st.cols.amounts + [amt]), st.date)))
  }

  /** The body of the inner loop of `parse_ocbc` for header `h` of a
      message whose preview is `snippet`. */
  function HeaderStep<D>(lib: Library<D>, st: Scan<D>, snippet: string, h: Header): Result<Step<D>> {
    if h.name == DateName then
      var t := SecondDateText(h.value);
      match lib.strptime(t)
      case None => Err(DateFormatError(t))
      case Some(d) => Ok(Continue(Scan(st.cols, Some(d))))
    else if h.name == SubjectName then
      if h.value == WithdrawalSubject then
        var amt := WithdrawalAmount(snippet);
        if amt in st.cols.amounts then
          match lib.atLeastTen(amt)
          case None => Err(AmountFormatError(amt))
          case Some(true) => Ok(Break(st))
          case Some(false) => AppendRow(st, WithdrawalDesc, amt)
        else AppendRow(st, WithdrawalDesc, amt)
      else if Contains(h.value, PayAnyoneMarker) then
        AppendRow(st, PayAnyoneDesc(snippet), PayAnyoneAmount(snippet))
      else Ok(Continue(st))
    else Ok(Continue(st))
  }

  /** The inner loop over one message's headers. */
  function ScanHeaders<D>(lib: Library<D>, st: Scan<D>, snippet: string, hs: seq<Header>): Result<Scan<D>>
    decreases |hs|
  {
    if hs == [] then Ok(st)
    else
      match HeaderStep(lib, st, snippet, hs[0])
      case Err(e) => Err(e)
      case Ok(Break(st')) => Ok(st')
      case Ok(Continue(st')) => ScanHeaders(lib, st', snippet, hs[1..])
  }

  /** The outer loop over the second batch. */
  function ScanMessages<D>(lib: Library<D>, st: Scan<D>, msgs: seq<Message>): Result<Scan<D>>
    decreases |msgs|
  {
    if msgs == [] then Ok(st)
    else
      match ScanHeaders(lib, st, msgs[0].snippet, msgs[0].headers)
      case Err(e) => Err(e)
      case Ok(st') => ScanMessages(lib, st', msgs[1..])
  }

  /** The three lists just before `reverse()`: the debit batch, then the
      second batch appended to it. */
  function Accumulated<D>(lib: Library<D>, lst1: seq<Message>, lst2: seq<Message>): Result<Columns<D>> {
    match DebitBatch(lib, lst1)
    case Err(e) => Err(e)
    case Ok(c) =>
      match ScanMessages(lib, Scan(c, None), lst2)
      case Err(e) => Err(e)
      case Ok(st) => Ok(st.cols)
  }

  /** `pd.DataFrame(data = {...})`: all four columns must have one length. */
  function DataFrame<D>(dates: seq<D>, descs: seq<string>, amounts: seq<string>, source: seq<string>): Result<Table<D>> {
    if |descs| == |dates| && |amounts| == |dates| && |source| == |dates| then Ok(Table(dates, descs, amounts, source))
    else Err(ColumnLengthMismatch(|dates|, if |descs| != |dates| then |descs| else if |amounts| != |dates| then |amounts| else |source|))
  }

  /** What `parse_ocbc(lst1, lst2)` returns. */
  function Ocbc<D>(lib: Library<D>, lst1: seq<Message>, lst2: seq<Message>): Result<Table<D>> {
    match Accumulated(lib, lst1, lst2)
    case Err(e) => Err(e)
    case Ok(c) => DataFrame(Reversed(c.dates), Reversed(c.descs), Reversed(c.amounts), Repeat(Source, |c.dates|))
  }

  /** One more header, as the inner loop of `parse_ocbc` sees it. */
  lemma ScanHeadersStep<D>(lib: Library<D>, st: Scan<D>, snippet: string, hs: seq<Header>, j: nat)
    requires j < |hs|
    ensures ScanHeaders(lib, st, snippet, hs[j..]) ==
      match HeaderStep(lib, st, snippet, hs[j])
      case Err(e) => Err(e)
      case Ok(Break(st')) => Ok(st')
      case Ok(Continue(st')) => ScanHeaders(lib, st', snippet, hs[j + 1..])
  {
    assert hs[j..][1..] == hs[j + 1..];
  }

  /** The inner loop of `parse_ocbc` (ExpenseTracker.py:113-145) over the
      headers of one second-batch message, starting from the three lists and
      the current `date`. */
  method ScanMessageHeaders<D>(lib: Library<D>, cols: Columns<D>, current: Option<D>, msg: Message)
    returns (r: Result<Scan<D>>)
    ensures r == ScanHeaders(lib, Scan(cols, current), msg.snippet, msg.headers)
  {
    var dates, descs, amounts := cols.dates, cols.descs, cols.amounts;
    var date := current;
    var header := msg.headers;
    var j := 0;
    while j < |header|
      invariant 0 <= j <= |header|
      invariant ScanHeaders(lib, Scan(cols, current), msg.snippet, header)
             == ScanHeaders(lib, Scan(Columns(dates, descs, amounts), date), msg.snippet, header[j..])
    {
      var dct := header[j];
      ScanHeadersStep(lib, Scan(Columns(dates, descs, amounts), date), msg.snippet, header, j);
      if dct.name == DateName {
        var text := SecondDateText(dct.value);
        var parsed := lib.strptime(text);
        if parsed.None? {
          return Err(DateFormatError(text));
        }
        date := parsed;
      }
      if dct.name == SubjectName {
        var subject := dct.value;
        if subject == WithdrawalSubject {
          var snippet := msg.snippet;
          var desc := WithdrawalDesc;
          var amt := WithdrawalAmount(snippet);
          // a repeated amount of at least 10 is taken for a duplicate alert
          if amt in amounts {
            var big := lib.atLeastTen(amt);
            if big.None? {
              return Err(AmountFormatError(amt));
            }
            if big.value {
              break;
            }
          }
          if date.None? {
            return Err(DateUnbound);
          }
          descs := descs + [desc];
          amounts := amounts + [amt];
          dates := dates + [date.value];
        } else if Contains(subject, PayAnyoneMarker) {
          var snippet := msg.snippet;
          var descIdx := Find(snippet, ".");
          var amtStart := Find(snippet, "SGD") + 4;
          var amtEnd := Find(snippet, "From") - 1;
          if date.None? {
            return Err(DateUnbound);
          }
          descs := descs + [Slice(snippet, 0, descIdx)];
          amounts := amounts + [Slice(snippet, amtStart, amtEnd)];
          dates := dates + [date.value];
        }
      }
      j := j + 1;
    }
    r := Ok(Scan(Columns(dates, descs, amounts), date));
  }

  /** `parse_ocbc` (ExpenseTracker.py:103-155). */
  method ParseOcbc<D>(lib: Library<D>, lst1: seq<Message>, lst2: seq<Message>) returns (r: Result<Table<D>>)
    ensures r == Ocbc(lib, lst1, lst2)
  {
    var first := ParseDebitOcbc(lib, lst1);
    if first.Err? {
      return Err(first.error);
    }
    var dates, descs, amounts := first.value.dates, first.value.descs, first.value.amounts;
    var date: Option<D> := None;
    var i := 0;
    while i < |lst2|
      invariant 0 <= i <= |lst2|
      invariant ScanMessages(lib, Scan(first.value, None), lst2)
             == ScanMessages(lib, Scan(Columns(dates, descs, amounts), date), lst2[i..])
    {
      var msg := lst2[i];
      assert lst2[i..][1..] == lst2[i + 1..];
      var scanned := ScanMessageHeaders(lib, Columns(dates, descs, amounts), date, msg);
      if scanned.Err? {
        return Err(scanned.error);
      }
      dates, descs, amounts := scanned.value.cols.dates, scanned.value.cols.descs, scanned.value.cols.amounts;
      date := scanned.value.date;
      i := i + 1;
    }
    dates := Reversed(dates);
    descs := Reversed(descs);
    amounts := Reversed(amounts);
    r := DataFrame(dates, descs, amounts, Repeat(Source, |dates|));
  }
}
