/** What the OCBC parser promises, stated about the specification functions
    that `ParseDebitOcbc` and `ParseOcbc` are proved to compute. */
module ExpenseTrackerProperties {
  import opened PyBuiltins
  import opened ExpenseTracker

  // ---------------------------------------------------------------------
  // Field extraction on well-formed snippets and headers.
  // ---------------------------------------------------------------------

  /** A debit Date header such as `Mon, 5 Feb 2024 10:11:12 +0800` yields the
      day-month-year text between the weekday and the two-digit hour, whatever
      the lengths of the weekday and of the day. */
  lemma DebitDateTextAnchored(weekday: string, dmy: string, hour: string, rest: string)
    requires |hour| == 2
    requires NoEarlierMatch(weekday, ",")
    requires NoEarlierMatch(weekday + "," + " " + dmy + " " + hour, ":")
    ensures DebitDateText(weekday + "," + " " + dmy + " " + hour + ":" + rest) == dmy
  {
    assert weekday + "," + " " + dmy + " " + hour == weekday + "," + " " + dmy + (" " + hour);
    assert weekday + "," + " " + dmy + " " + hour + ":" + rest == weekday + "," + " " + dmy + (" " + hour) + ":" + rest;
    SliceBetweenAnchors(weekday, ",", " ", dmy, " " + hour, ":", rest);
  }

  /** A second-batch Date header has no weekday: `5 Feb 2024 10:11:12 +0800`
      yields the text before the two-digit hour. */
  lemma SecondDateTextAnchored(dmy: string, hour: string, rest: string)
    requires |hour| == 2
    requires NoEarlierMatch(dmy + " " + hour, ":")
    ensures SecondDateText(dmy + " " + hour + ":" + rest) == dmy
  {
    assert dmy + " " + hour == dmy + (" " + hour);
    assert dmy + " " + hour + ":" + rest == dmy + (" " + hour) + ":" + rest;
    SliceBeforeAnchor(dmy, " " + hour, ":", rest);
  }

  /** The amount of a debit snippet `... SGD<x> was charged ...` is `x`,
      starting right after `SGD`: with a leading space when the snippet has
      one there. */
  lemma DebitAmountAnchored(pre: string, x: string, post: string)
    requires NoEarlierMatch(pre, "SGD")
    requires NoEarlierMatch(pre + "SGD" + x + " ", "was charged")
    ensures DebitAmount(pre + "SGD" + x + " " + "was charged" + post) == x
  {
    assert pre + "SGD" + "" == pre + "SGD";
    SliceBetweenAnchors(pre, "SGD", "", x, " ", "was charged", post);
  }

  /** The amount of a withdrawal snippet `... SGD <x> was withdrawn ...`
      is `x`. */
  lemma WithdrawalAmountAnchored(pre: string, x: string, post: string)
    requires NoEarlierMatch(pre, "SGD")
    requires NoEarlierMatch(pre + "SGD" + " " + x + " ", "was withdrawn")
    ensures WithdrawalAmount(pre + "SGD" + " " + x + " " + "was withdrawn" + post) == x
  {
    SliceBetweenAnchors(pre, "SGD", " ", x, " ", "was withdrawn", post);
  }

  /** The amount of a Pay Anyone snippet `... SGD <x> From ...` is `x`. */
  lemma PayAnyoneAmountAnchored(pre: string, x: string, post: string)
    requires NoEarlierMatch(pre, "SGD")
    requires NoEarlierMatch(pre + "SGD" + " " + x + " ", "From")
    ensures PayAnyoneAmount(pre + "SGD" + " " + x + " " + "From" + post) == x
  {
    SliceBetweenAnchors(pre, "SGD", " ", x, " ", "From", post);
  }

  /** A Pay Anyone description is the snippet up to its first full stop. */
  lemma PayAnyoneDescAnchored(first: string, rest: string)
    requires NoEarlierMatch(first, ".")
    ensures PayAnyoneDesc(first + "." + rest) == first
  {
    assert first + "" == first;
    SliceBeforeAnchor(first, "", ".", rest);
  }

  const Disclaimer := "If you did not make this transaction"

  /** A debit description starts five characters after the first `)` and
      stops two characters before the disclaimer sentence. */
  lemma DebitDescAnchored(pre: string, gap: string, x: string, tail: string, post: string)
    requires |gap| == 4 && |tail| == 2
    requires NoEarlierMatch(pre, ")")
    requires NoEarlierMatch(pre + ")" + gap + x + tail, Disclaimer)
    ensures DebitDesc(pre + ")" + gap + x + tail + Disclaimer + post) == x
  {
    SliceBetweenAnchors(pre, ")", gap, x, tail, Disclaimer, post);
  }

  // Missing anchors are not errors: find returns -1 and the slice goes on.

  /** With neither anchor, a debit amount is the snippet minus two
      characters at each end. */
  lemma DebitAmountWithoutAnchors(s: string)
    requires |s| >= 4
    requires !Contains(s, "SGD") && !Contains(s, "was charged")
    ensures DebitAmount(s) == s[2..|s| - 2]
  {
  }

  /** Without a full stop, a Pay Anyone description is the snippet minus its
      last character. */
  lemma PayAnyoneDescWithoutStop(s: string)
    requires |s| >= 1
    requires !Contains(s, ".")
    ensures PayAnyoneDesc(s) == s[..|s| - 1]
  {
  }

  /** Without `SGD`, a withdrawal amount starts at index 3. */
  lemma WithdrawalAmountWithoutCurrency(s: string)
    requires !Contains(s, "SGD")
    ensures WithdrawalAmount(s) == Slice(s, 3, Find(s, "was withdrawn") - 1)
  {
  }

  // ---------------------------------------------------------------------
  // parse_debit_ocbc
  // ---------------------------------------------------------------------

  /** The texts handed to strptime for one debit message, in header order. */
  function HeaderDateTexts(hs: seq<Header>): seq<string>
    decreases |hs|
  {
    if hs == [] then []
    else
      var h := hs[|hs| - 1];
      HeaderDateTexts(hs[..|hs| - 1]) + (if h.name == DateName then [DebitDateText(h.value)] else [])
  }

  /** The texts handed to strptime for a whole debit batch, in order. */
  function DebitDateTexts(lst: seq<Message>): seq<string>
    decreases |lst|
  {
    if lst == [] then [] else DebitDateTexts(lst[..|lst| - 1]) + HeaderDateTexts(lst[|lst| - 1].headers)
  }

  /** strptime applied to each text in turn, stopping at the first failure. */
  function ParseAll<D>(lib: Library<D>, texts: seq<string>): Result<seq<D>>
    decreases |texts|
  {
    if texts == [] then Ok([])
    else
      match ParseAll(lib, texts[..|texts| - 1])
      case Err(e) => Err(e)
      case Ok(ds) =>
        var t := texts[|texts| - 1];
        match lib.strptime(t)
        case None => Err(DateFormatError(t))
        case Some(d) => Ok(ds + [d])
  }

  /** ParseAll succeeds exactly when every text parses, and then yields
      their dates in order; otherwise it reports the first text that fails. */
  lemma {:induction false} ParseAllMeaning<D>(lib: Library<D>, texts: seq<string>)
    ensures ParseAll(lib, texts).Ok? <==> forall k :: 0 <= k < |texts| ==> lib.strptime(texts[k]).Some?
    ensures ParseAll(lib, texts).Ok? ==>
      |ParseAll(lib, texts).value| == |texts| &&
      forall k :: 0 <= k < |texts| ==> ParseAll(lib, texts).value[k] == lib.strptime(texts[k]).value
    ensures ParseAll(lib, texts).Err? ==>
      exists k :: 0 <= k < |texts| && lib.strptime(texts[k]).None? &&
        ParseAll(lib, texts).error == DateFormatError(texts[k]) &&
        forall j :: 0 <= j < k ==> lib.strptime(texts[j]).Some?
    decreases |texts|
  {
    if texts != [] {
      var n := |texts| - 1;
      var init := texts[..n];
      ParseAllMeaning(lib, init);
      assert forall k :: 0 <= k < n ==> init[k] == texts[k];
      if ParseAll(lib, init).Err? {
        var k :| 0 <= k < |init| && lib.strptime(init[k]).None? &&
          ParseAll(lib, init).error == DateFormatError(init[k]) &&
          forall j :: 0 <= j < k ==> lib.strptime(init[j]).Some?;
        assert texts[k] == init[k];
      } else if lib.strptime(texts[n]).None? {
        assert ParseAll(lib, texts).error == DateFormatError(texts[n]);
      }
    }
  }

  /** Parsing a concatenation parses the first part, then the second. */
  lemma {:induction false} ParseAllAppend<D>(lib: Library<D>, a: seq<string>, b: seq<string>)
    ensures ParseAll(lib, a + b) ==
      match ParseAll(lib, a)
      case Err(e) => Err(e)
      case Ok(x) =>
        match ParseAll(lib, b)
        case Err(e) => Err(e)
        case Ok(y) => Ok(x + y)
    decreases |b|
  {
    if b == [] {
      assert a + b == a;
      if ParseAll(lib, a).Ok? {
        assert ParseAll(lib, a).value + [] == ParseAll(lib, a).value;
      }
    } else {
      var n := |b| - 1;
      assert (a + b)[..|a + b| - 1] == a + b[..n];
      ParseAllAppend(lib, a, b[..n]);
      if ParseAll(lib, a).Ok? && ParseAll(lib, b[..n]).Ok? && lib.strptime(b[n]).Some? {
        assert ParseAll(lib, a).value + (ParseAll(lib, b[..n]).value + [lib.strptime(b[n]).value])
            == ParseAll(lib, a).value + ParseAll(lib, b[..n]).value + [lib.strptime(b[n]).value];
      }
    }
  }

  /** The inner header loop parses exactly the message's Date texts. */
  lemma {:induction false} HeaderDatesIsParseAll<D>(lib: Library<D>, hs: seq<Header>)
    ensures HeaderDates(lib, hs) == ParseAll(lib, HeaderDateTexts(hs))
    decreases |hs|
  {
    if hs != [] {
      var n := |hs| - 1;
      HeaderDatesIsParseAll(lib, hs[..n]);
      var h := hs[n];
      if h.name == DateName {
        var texts := HeaderDateTexts(hs[..n]) + [DebitDateText(h.value)];
        assert texts[..|texts| - 1] == HeaderDateTexts(hs[..n]);
      } else {
        assert HeaderDateTexts(hs) == HeaderDateTexts(hs[..n]);
      }
    }
  }

  /** `parse_debit_ocbc` fails, with the first failing text, exactly when
      some Date text of the batch does not parse; otherwise its dates are
      those of all Date headers, in message and header order. */
  lemma {:induction false} DebitBatchDates<D>(lib: Library<D>, lst: seq<Message>)
    ensures DebitBatch(lib, lst).Ok? <==> ParseAll(lib, DebitDateTexts(lst)).Ok?
    ensures DebitBatch(lib, lst).Err? ==> DebitBatch(lib, lst).error == ParseAll(lib, DebitDateTexts(lst)).error
    ensures DebitBatch(lib, lst).Ok? ==> DebitBatch(lib, lst).value.dates == ParseAll(lib, DebitDateTexts(lst)).value
    decreases |lst|
  {
    if lst != [] {
      var n := |lst| - 1;
      DebitBatchDates(lib, lst[..n]);
      HeaderDatesIsParseAll(lib, lst[n].headers);
      ParseAllAppend(lib, DebitDateTexts(lst[..n]), HeaderDateTexts(lst[n].headers));
    }
  }

  /** A field cut from each message's snippet by `f`, in message order. */
  function Snippets(f: string -> string, lst: seq<Message>): seq<string>
    decreases |lst|
  {
    if lst == [] then [] else Snippets(f, lst[..|lst| - 1]) + [f(lst[|lst| - 1].snippet)]
  }

  /** Entry `i` is cut from message `i`. */
  lemma {:induction false} SnippetsAt(f: string -> string, lst: seq<Message>)
    ensures |Snippets(f, lst)| == |lst|
    ensures forall i :: 0 <= i < |lst| ==> Snippets(f, lst)[i] == f(lst[i].snippet)
    decreases |lst|
  {
    if lst != [] {
      var n := |lst| - 1;
      SnippetsAt(f, lst[..n]);
      forall i | 0 <= i < n
        ensures Snippets(f, lst)[i] == f(lst[i].snippet)
      {
        assert lst[..n][i] == lst[i];
      }
    }
  }

  /** A successful `parse_debit_ocbc` has one description and one amount per
      message, in message order, each cut from that message's snippet. */
  lemma {:induction false} DebitBatchLists<D>(lib: Library<D>, lst: seq<Message>)
    requires DebitBatch(lib, lst).Ok?
    ensures DebitBatch(lib, lst).value.descs == Snippets(DebitDesc, lst)
    ensures DebitBatch(lib, lst).value.amounts == Snippets(DebitAmount, lst)
    decreases |lst|
  {
    if lst != [] {
      DebitBatchLists(lib, lst[..|lst| - 1]);
    }
  }

  /** The same, entry by entry. */
  lemma DebitBatchRows<D>(lib: Library<D>, lst: seq<Message>)
    requires DebitBatch(lib, lst).Ok?
    ensures var c := DebitBatch(lib, lst).value;
      && |c.descs| == |lst| && |c.amounts| == |lst|
      && forall i :: 0 <= i < |lst| ==> c.descs[i] == DebitDesc(lst[i].snippet) && c.amounts[i] == DebitAmount(lst[i].snippet)
  {
    DebitBatchLists(lib, lst);
    SnippetsAt(DebitDesc, lst);
    SnippetsAt(DebitAmount, lst);
  }

  /** The number of dates of a successful debit batch is the number of Date
      headers; the numbers of descriptions and amounts are the number of
      messages. */
  lemma DebitBatchCounts<D>(lib: Library<D>, lst: seq<Message>)
    requires DebitBatch(lib, lst).Ok?
    ensures |DebitBatch(lib, lst).value.dates| == |DebitDateTexts(lst)|
    ensures |DebitBatch(lib, lst).value.descs| == |DebitBatch(lib, lst).value.amounts| == |lst|
  {
    DebitBatchDates(lib, lst);
    DebitBatchRows(lib, lst);
    ParseAllMeaning(lib, DebitDateTexts(lst));
  }

  // ---------------------------------------------------------------------
  // The second batch of parse_ocbc
  // ---------------------------------------------------------------------

  /** The Subject header that makes a withdrawal row: exact equality. */
  predicate IsWithdrawal(h: Header) {
    h.name == SubjectName && h.value == WithdrawalSubject
  }

  /** A Subject header that makes a Pay Anyone row: containment. */
  predicate IsPayAnyone(h: Header) {
    h.name == SubjectName && h.value != WithdrawalSubject && Contains(h.value, PayAnyoneMarker)
  }

  /** Headers none of which can add a row. */
  predicate Quiet(hs: seq<Header>) {
    forall k :: 0 <= k < |hs| ==> !IsWithdrawal(hs[k]) && !IsPayAnyone(hs[k])
  }

  /** The variable `date` after the scan has passed the headers `hs`,
      starting from `date`, or the first strptime failure. */
  function LatestDate<D>(lib: Library<D>, date: Option<D>, hs: seq<Header>): Result<Option<D>>
    decreases |hs|
  {
    if hs == [] then Ok(date)
    else if hs[0].name == DateName then
      var t := SecondDateText(hs[0].value);
      match lib.strptime(t)
      case None => Err(DateFormatError(t))
      case Some(d) => LatestDate(lib, Some(d), hs[1..])
    else LatestDate(lib, date, hs[1..])
  }

  /** The date in force is the one of the LAST Date header seen, and the
      one carried in from earlier messages when there is none. */
  lemma {:induction false} LatestDateIsMostRecent<D>(lib: Library<D>, date: Option<D>, hs: seq<Header>)
    requires LatestDate(lib, date, hs).Ok?
    ensures (forall k :: 0 <= k < |hs| ==> hs[k].name != DateName) ==> LatestDate(lib, date, hs) == Ok(date)
    ensures forall k :: 0 <= k < |hs| && hs[k].name == DateName && (forall j :: k < j < |hs| ==> hs[j].name != DateName) ==>
      LatestDate(lib, date, hs) == Ok(lib.strptime(SecondDateText(hs[k].value)))
    decreases |hs|
  {
    if hs != [] {
      var next := if hs[0].name == DateName then lib.strptime(SecondDateText(hs[0].value)) else date;
      LatestDateIsMostRecent(lib, next, hs[1..]);
      assert forall k :: 1 <= k < |hs| ==> hs[1..][k - 1] == hs[k];
      forall k | 0 <= k < |hs| && hs[k].name == DateName && (forall j :: k < j < |hs| ==> hs[j].name != DateName)
        ensures LatestDate(lib, date, hs) == Ok(lib.strptime(SecondDateText(hs[k].value)))
      {
        if k == 0 {
          assert forall j :: 0 <= j < |hs[1..]| ==> hs[1..][j].name != DateName by {
            forall j | 0 <= j < |hs[1..]| ensures hs[1..][j].name != DateName {
              assert hs[1..][j] == hs[j + 1];
            }
          }
        } else {
          assert hs[1..][k - 1] == hs[k];
          assert forall j :: k - 1 < j < |hs[1..]| ==> hs[1..][j] == hs[j + 1];
        }
      }
    }
  }

  /** Headers that add no row only move `date` forward: the scan of
      `quiet + rest` is the scan of `rest` from the latest date of `quiet`. */
  lemma {:induction false} QuietPrefix<D>(lib: Library<D>, st: Scan<D>, snippet: string, quiet: seq<Header>, rest: seq<Header>)
    requires Quiet(quiet)
    ensures ScanHeaders(lib, st, snippet, quiet + rest) ==
      match LatestDate(lib, st.date, quiet)
      case Err(e) => Err(e)
      case Ok(d) => ScanHeaders(lib, Scan(st.cols, d), snippet, rest)
    decreases |quiet|
  {
    if quiet == [] {
      assert quiet + rest == rest;
    } else {
      var h := quiet[0];
      assert (quiet + rest)[0] == h;
      assert (quiet + rest)[1..] == quiet[1..] + rest;
      assert !IsWithdrawal(quiet[0]) && !IsPayAnyone(quiet[0]);
      assert Quiet(quiet[1..]) by {
        forall k | 0 <= k < |quiet[1..]| ensures !IsWithdrawal(quiet[1..][k]) && !IsPayAnyone(quiet[1..][k]) {
          assert quiet[1..][k] == quiet[k + 1];
        }
      }
      if h.name == DateName {
        var t := SecondDateText(h.value);
        if lib.strptime(t).Some? {
          QuietPrefix(lib, Scan(st.cols, lib.strptime(t)), snippet, quiet[1..], rest);
        }
      } else {
        QuietPrefix(lib, st, snippet, quiet[1..], rest);
      }
    }
  }

  /** A message whose Subject is neither exactly the withdrawal subject nor
      contains `Pay Anyone` adds no row. */
  lemma UnmatchedMessageAddsNoRow<D>(lib: Library<D>, st: Scan<D>, snippet: string, hs: seq<Header>)
    requires Quiet(hs)
    ensures ScanHeaders(lib, st, snippet, hs).Ok? ==> ScanHeaders(lib, st, snippet, hs).value.cols == st.cols
  {
    QuietPrefix(lib, st, snippet, hs, []);
    assert hs + [] == hs;
  }

  /** The three lists with one more row. */
  function WithRow<D>(c: Columns<D>, date: D, desc: string, amt: string): Columns<D> {
    Columns(c.dates + [date], c.descs + [desc], c.amounts + [amt])
  }

  /** A withdrawal Subject, after headers that add no row: the message is
      dropped, and its remaining headers are not looked at, when its amount
      is already in `amounts` and at least 10; otherwise a row `("-", amount)`
      is added with the most recent date, or the parse fails when no Date has
      been seen yet. */
  lemma WithdrawalAfterQuietHeaders<D>(lib: Library<D>, st: Scan<D>, snippet: string, quiet: seq<Header>, rest: seq<Header>, date: Option<D>)
    requires Quiet(quiet)
    requires LatestDate(lib, st.date, quiet) == Ok(date)
    ensures var amt, hs := WithdrawalAmount(snippet), quiet + [Header(SubjectName, WithdrawalSubject)] + rest;
      && (amt in st.cols.amounts && lib.atLeastTen(amt) == Some(true) ==>
            ScanHeaders(lib, st, snippet, hs) == Ok(Scan(st.cols, date)))
      && (amt in st.cols.amounts && lib.atLeastTen(amt) == None ==>
            ScanHeaders(lib, st, snippet, hs) == Err(AmountFormatError(amt)))
      && ((amt !in st.cols.amounts || lib.atLeastTen(amt) == Some(false)) && date.Some? ==>
            ScanHeaders(lib, st, snippet, hs) == ScanHeaders(lib, Scan(WithRow(st.cols, date.value, WithdrawalDesc, amt), date), snippet, rest))
      && ((amt !in st.cols.amounts || lib.atLeastTen(amt) == Some(false)) && date.None? ==>
            ScanHeaders(lib, st, snippet, hs) == Err(DateUnbound))
  {
    var h := Header(SubjectName, WithdrawalSubject);
    assert quiet + [h] + rest == quiet + ([h] + rest);
    QuietPrefix(lib, st, snippet, quiet, [h] + rest);
    assert ([h] + rest)[0] == h && ([h] + rest)[1..] == rest;
  }

  /** A Pay Anyone Subject, after headers that add no row: a row of the
      description and amount cut from the snippet is added with the most
      recent date, whether or not the amount was seen before. */
  lemma PayAnyoneAfterQuietHeaders<D>(lib: Library<D>, st: Scan<D>, snippet: string, quiet: seq<Header>, subject: string, rest: seq<Header>, date: Option<D>)
    requires Quiet(quiet)
    requires LatestDate(lib, st.date, quiet) == Ok(date)
    requires subject != WithdrawalSubject && Contains(subject, PayAnyoneMarker)
    ensures var hs := quiet + [Header(SubjectName, subject)] + rest;
      && (date.Some? ==>
            ScanHeaders(lib, st, snippet, hs) ==
              ScanHeaders(lib, Scan(WithRow(st.cols, date.value, PayAnyoneDesc(snippet), PayAnyoneAmount(snippet)), date), snippet, rest))
      && (date.None? ==> ScanHeaders(lib, st, snippet, hs) == Err(DateUnbound))
  {
    var h := Header(SubjectName, subject);
    assert quiet + [h] + rest == quiet + ([h] + rest);
    QuietPrefix(lib, st, snippet, quiet, [h] + rest);
    assert ([h] + rest)[0] == h && ([h] + rest)[1..] == rest;
  }

  /** A row the second batch can add for a message with this snippet. */
  predicate RowOf(snippet: string, desc: string, amt: string) {
    (desc == WithdrawalDesc && amt == WithdrawalAmount(snippet)) ||
    (desc == PayAnyoneDesc(snippet) && amt == PayAnyoneAmount(snippet))
  }

  /** Both description-like lists have one length. */
  predicate Balanced<D>(c: Columns<D>) {
    |c.descs| == |c.amounts|
  }

  /** `b` is `a` with whole rows appended: every list of `a` is a prefix of
      the same list of `b`, and all three lists grew by the same number. */
  ghost predicate Grows<D>(a: Columns<D>, b: Columns<D>) {
    && Balanced(a) && Balanced(b)
    && a.dates <= b.dates && a.descs <= b.descs && a.amounts <= b.amounts
    && |b.dates| - |a.dates| == |b.descs| - |a.descs|
  }

  /** `b` is `a` with rows appended, each one a row of a message with this snippet. */
  ghost predicate GrowsByRowsOf<D>(a: Columns<D>, b: Columns<D>, snippet: string) {
    Grows(a, b) && forall k :: |a.descs| <= k < |b.descs| ==> RowOf(snippet, b.descs[k], b.amounts[k])
  }

  /** `b` is `a` with rows appended, each one a row of one of the messages. */
  ghost predicate GrowsByRowsOfBatch<D>(a: Columns<D>, b: Columns<D>, msgs: seq<Message>) {
    Grows(a, b) && forall k :: |a.descs| <= k < |b.descs| ==> exists j :: 0 <= j < |msgs| && RowOf(msgs[j].snippet, b.descs[k], b.amounts[k])
  }

  /** One header adds at most one row, a withdrawal or Pay Anyone row of the message. */
  lemma HeaderStepAppends<D>(lib: Library<D>, st: Scan<D>, snippet: string, h: Header)
    requires Balanced(st.cols)
    requires HeaderStep(lib, st, snippet, h).Ok?
    ensures GrowsByRowsOf(st.cols, HeaderStep(lib, st, snippet, h).value.st.cols, snippet)
  {
  }

  /** Appending rows of one message twice appends rows of that message. */
  lemma GrowsByRowsOfTrans<D>(a: Columns<D>, b: Columns<D>, c: Columns<D>, snippet: string)
    requires GrowsByRowsOf(a, b, snippet) && GrowsByRowsOf(b, c, snippet)
    ensures GrowsByRowsOf(a, c, snippet)
  {
    forall k | |a.descs| <= k < |c.descs|
      ensures RowOf(snippet, c.descs[k], c.amounts[k])
    {
      if k < |b.descs| {
        assert c.descs[k] == b.descs[k] && c.amounts[k] == b.amounts[k];
      }
    }
  }

  /** Scanning one message only appends rows, each a withdrawal or Pay
      Anyone row of that message. */
  lemma {:induction false} ScanHeadersAppends<D>(lib: Library<D>, st: Scan<D>, snippet: string, hs: seq<Header>)
    requires Balanced(st.cols)
    requires ScanHeaders(lib, st, snippet, hs).Ok?
    ensures GrowsByRowsOf(st.cols, ScanHeaders(lib, st, snippet, hs).value.cols, snippet)
    decreases |hs|
  {
    if hs != [] {
      HeaderStepAppends(lib, st, snippet, hs[0]);
      match HeaderStep(lib, st, snippet, hs[0])
      case Ok(Break(st')) =>
      case Ok(Continue(st')) =>
        ScanHeadersAppends(lib, st', snippet, hs[1..]);
        GrowsByRowsOfTrans(st.cols, st'.cols, ScanHeaders(lib, st, snippet, hs).value.cols, snippet);
    }
  }

  /** Rows of the first message followed by rows of the others are rows of the batch. */
  lemma GrowsByRowsOfCons<D>(a: Columns<D>, b: Columns<D>, c: Columns<D>, msgs: seq<Message>)
    requires msgs != []
    requires GrowsByRowsOf(a, b, msgs[0].snippet) && GrowsByRowsOfBatch(b, c, msgs[1..])
    ensures GrowsByRowsOfBatch(a, c, msgs)
  {
    forall k | |a.descs| <= k < |c.descs|
      ensures exists j :: 0 <= j < |msgs| && RowOf(msgs[j].snippet, c.descs[k], c.amounts[k])
    {
      if k < |b.descs| {
        assert c.descs[k] == b.descs[k] && c.amounts[k] == b.amounts[k];
        assert RowOf(msgs[0].snippet, c.descs[k], c.amounts[k]);
      } else {
        var j :| 0 <= j < |msgs[1..]| && RowOf(msgs[1..][j].snippet, c.descs[k], c.amounts[k]);
        assert msgs[1..][j] == msgs[j + 1];
      }
    }
  }

  /** Scanning a batch only appends rows, each a withdrawal or Pay Anyone
      row of one of the batch's messages. */
  lemma {:induction false} ScanMessagesAppends<D>(lib: Library<D>, st: Scan<D>, msgs: seq<Message>)
    requires Balanced(st.cols)
    requires ScanMessages(lib, st, msgs).Ok?
    ensures GrowsByRowsOfBatch(st.cols, ScanMessages(lib, st, msgs).value.cols, msgs)
    decreases |msgs|
  {
    if msgs != [] {
      var st' := ScanHeaders(lib, st, msgs[0].snippet, msgs[0].headers).value;
      ScanHeadersAppends(lib, st, msgs[0].snippet, msgs[0].headers);
      ScanMessagesAppends(lib, st', msgs[1..]);
      GrowsByRowsOfCons(st.cols, st'.cols, ScanMessages(lib, st, msgs).value.cols, msgs);
    }
  }

  // ---------------------------------------------------------------------
  // parse_ocbc: the table
  // ---------------------------------------------------------------------

  /** The accumulated lists are the debit batch's lists with second-batch
      rows appended, and every appended row comes from a second-batch message. */
  lemma AccumulatedExtendsDebit<D>(lib: Library<D>, lst1: seq<Message>, lst2: seq<Message>)
    requires Accumulated(lib, lst1, lst2).Ok?
    ensures DebitBatch(lib, lst1).Ok?
    ensures GrowsByRowsOfBatch(DebitBatch(lib, lst1).value, Accumulated(lib, lst1, lst2).value, lst2)
  {
    DebitBatchRows(lib, lst1);
    ScanMessagesAppends(lib, Scan(DebitBatch(lib, lst1).value, None), lst2);
  }

  /** The table exists exactly when the accumulated lists do and the dates
      are as many as the descriptions; its Date, Description and Amount
      columns are those lists reversed, and Source is `OCBC` on every row. */
  lemma OcbcMeaning<D>(lib: Library<D>, lst1: seq<Message>, lst2: seq<Message>)
    ensures Ocbc(lib, lst1, lst2).Ok? <==>
      Accumulated(lib, lst1, lst2).Ok? && |Accumulated(lib, lst1, lst2).value.dates| == |Accumulated(lib, lst1, lst2).value.descs|
    ensures Accumulated(lib, lst1, lst2).Err? ==> Ocbc(lib, lst1, lst2) == Err(Accumulated(lib, lst1, lst2).error)
    ensures Ocbc(lib, lst1, lst2).Ok? ==>
      var c, t := Accumulated(lib, lst1, lst2).value, Ocbc(lib, lst1, lst2).value;
      && |t.date| == |t.description| == |t.amount| == |t.source| == |c.dates|
      && Reversed(t.date) == c.dates && Reversed(t.description) == c.descs && Reversed(t.amount) == c.amounts
      && forall k :: 0 <= k < |t.source| ==> t.source[k] == Source
  {
    if Accumulated(lib, lst1, lst2).Ok? {
      var c := Accumulated(lib, lst1, lst2).value;
      AccumulatedExtendsDebit(lib, lst1, lst2);
      ReversedTwice(c.dates);
      ReversedTwice(c.descs);
      ReversedTwice(c.amounts);
    }
  }

  /** The DataFrame fails exactly when some debit message does not carry
      exactly one Date header on average, that is when the debit batch has
      fewer or more Date headers than messages. */
  lemma ColumnMismatchIffDateHeaderCount<D>(lib: Library<D>, lst1: seq<Message>, lst2: seq<Message>)
    requires Accumulated(lib, lst1, lst2).Ok?
    ensures Ocbc(lib, lst1, lst2).Ok? <==> |DebitDateTexts(lst1)| == |lst1|
    ensures Ocbc(lib, lst1, lst2).Err? ==> Ocbc(lib, lst1, lst2).error.ColumnLengthMismatch?
  {
    AccumulatedExtendsDebit(lib, lst1, lst2);
    DebitBatchCounts(lib, lst1);
    OcbcMeaning(lib, lst1, lst2);
  }

  /** An instance of the duplicate rule, for a batch of ONE debit message and
      one alert whose headers are a Date then the withdrawal subject, whose
      amount string equals the debit amount: when that amount is at least 10
      the accumulated lists are the debit batch's alone; below 10 a `-` row
      with the alert's date follows the debit row. The general rule is
      `WithdrawalAfterQuietHeaders`. */
  lemma DuplicateWithdrawalSuppressed<D>(lib: Library<D>, debit: Message, alert: Message, dateValue: string, d: D)
    requires DebitBatch(lib, [debit]).Ok?
    requires alert.headers == [Header(DateName, dateValue), Header(SubjectName, WithdrawalSubject)]
    requires lib.strptime(SecondDateText(dateValue)) == Some(d)
    requires WithdrawalAmount(alert.snippet) == DebitAmount(debit.snippet)
    ensures lib.atLeastTen(DebitAmount(debit.snippet)) == Some(true) ==>
      Accumulated(lib, [debit], [alert]) == DebitBatch(lib, [debit])
    ensures lib.atLeastTen(DebitAmount(debit.snippet)) == Some(false) ==>
      Accumulated(lib, [debit], [alert]) == Ok(WithRow(DebitBatch(lib, [debit]).value, d, WithdrawalDesc, DebitAmount(debit.snippet)))
  {
    var c := DebitBatch(lib, [debit]).value;
    DebitBatchRows(lib, [debit]);
    assert c.amounts[0] == DebitAmount(debit.snippet);
    var quiet := [Header(DateName, dateValue)];
    assert Quiet(quiet);
    assert LatestDate(lib, None, quiet) == Ok(Some(d));
    WithdrawalAfterQuietHeaders(lib, Scan(c, None), alert.snippet, quiet, [], Some(d));
    assert quiet + [Header(SubjectName, WithdrawalSubject)] + [] == alert.headers;
    var scanned := ScanHeaders(lib, Scan(c, None), alert.snippet, alert.headers);
    assert [alert][1..] == [];
    if scanned.Ok? {
      assert ScanMessages(lib, Scan(c, None), [alert]) == ScanMessages(lib, scanned.value, []);
    }
  }

  /** An instance: a debit batch of ONE message without a Date header and
      an empty second batch leaves the Date column one short, and the
      DataFrame cannot be built. In general the table fails exactly when the
      Date headers and the debit messages differ in number
      (`ColumnMismatchIffDateHeaderCount`); `MisalignedDebitDates` shows a
      batch that does build a table although a message has no Date. */
  lemma MissingDebitDateBreaksTable<D>(lib: Library<D>, snippet: string)
    ensures Ocbc(lib, [Message([], snippet)], []) == Err(ColumnLengthMismatch(0, 1))
  {
    var m := Message([], snippet);
    assert [m][..0] == [];
    assert DebitBatch(lib, [m][..0]) == Ok(Columns([], [], []));
    assert HeaderDates(lib, m.headers) == Ok([]);
    var c: Columns<D> := Columns([], [DebitDesc(snippet)], [DebitAmount(snippet)]);
    var e: Columns<D> := Columns([], [], []);
    assert c == Columns(e.dates + [], e.descs + [DebitDesc(m.snippet)], e.amounts + [DebitAmount(m.snippet)]);
    assert DebitBatch(lib, [m]) == Ok(c);
    assert Accumulated(lib, [m], []) == Ok(c);
    assert |Reversed(c.descs)| == 1;
  }

  /** Two Date headers that parse give their two dates, in order. */
  lemma TwoDebitDates<D>(lib: Library<D>, v1: string, v2: string, d1: D, d2: D)
    requires lib.strptime(DebitDateText(v1)) == Some(d1)
    requires lib.strptime(DebitDateText(v2)) == Some(d2)
    ensures HeaderDates(lib, [Header(DateName, v1), Header(DateName, v2)]) == Ok([d1, d2])
  {
    var h1 := Header(DateName, v1);
    var hs := [h1, Header(DateName, v2)];
    assert HeaderDates(lib, [h1]) == Ok([d1]) by {
      assert [h1][..|[h1]| - 1] == [];
      assert [] + [d1] == [d1];
    }
    assert hs[..1] == [h1];
    assert hs[..|hs| - 1] == hs[..1];
    assert [d1] + [d2] == [d1, d2];
  }

  /** A two-element list reversed. */
  lemma ReversedPair<T>(a: T, b: T)
    ensures Reversed([a, b]) == [b, a]
  {
  }

  /** The debit batch of a message without a Date header followed by one
      with two: both dates, then one row per message. */
  lemma MisalignedDebitBatch<D>(lib: Library<D>, s1: string, s2: string, v1: string, v2: string, d1: D, d2: D)
    requires lib.strptime(DebitDateText(v1)) == Some(d1)
    requires lib.strptime(DebitDateText(v2)) == Some(d2)
    ensures var m1, m2 := Message([], s1), Message([Header(DateName, v1), Header(DateName, v2)], s2);
      DebitBatch(lib, [m1, m2]) ==
        Ok(Columns([d1, d2], [DebitDesc(s1), DebitDesc(s2)], [DebitAmount(s1), DebitAmount(s2)]))
  {
    var m1, m2 := Message([], s1), Message([Header(DateName, v1), Header(DateName, v2)], s2);
    TwoDebitDates(lib, v1, v2, d1, d2);
    var lst := [m1, m2];
    var one: Columns<D> := Columns([], [DebitDesc(s1)], [DebitAmount(s1)]);
    assert DebitBatch(lib, lst[..1]) == Ok(one) by {
      assert lst[..1] == [m1] && [m1][..0] == [];
      assert HeaderDates(lib, m1.headers) == Ok([]);
      assert one == Columns([] + [], [] + [DebitDesc(s1)], [] + [DebitAmount(s1)]);
    }
    var c: Columns<D> := Columns([d1, d2], [DebitDesc(s1), DebitDesc(s2)], [DebitAmount(s1), DebitAmount(s2)]);
    assert lst[..|lst| - 1] == lst[..1] && lst[|lst| - 1] == m2;
    assert c == Columns(one.dates + [d1, d2], one.descs + [DebitDesc(s2)], one.amounts + [DebitAmount(s2)]);
  }

  /** Dates are matched to rows only by count. A debit message without a
      Date header followed by one with two gives a table, with no error:
      after the reversal the first message's row carries the second
      message's first date. */
  lemma MisalignedDebitDates<D>(lib: Library<D>, s1: string, s2: string, v1: string, v2: string, d1: D, d2: D)
    requires lib.strptime(DebitDateText(v1)) == Some(d1)
    requires lib.strptime(DebitDateText(v2)) == Some(d2)
    ensures var m1, m2 := Message([], s1), Message([Header(DateName, v1), Header(DateName, v2)], s2);
      Ocbc(lib, [m1, m2], []) ==
        Ok(Table([d2, d1], [DebitDesc(s2), DebitDesc(s1)], [DebitAmount(s2), DebitAmount(s1)], [Source, Source]))
  {
    var m1, m2 := Message([], s1), Message([Header(DateName, v1), Header(DateName, v2)], s2);
    MisalignedDebitBatch(lib, s1, s2, v1, v2, d1, d2);
    var c := DebitBatch(lib, [m1, m2]).value;
    assert Accumulated(lib, [m1, m2], []) == Ok(c);
    ReversedPair(d1, d2);
    ReversedPair(DebitDesc(s1), DebitDesc(s2));
    ReversedPair(DebitAmount(s1), DebitAmount(s2));
    assert Repeat(Source, 2) == [Source, Source];
  }

  /** The debit amount starts 3 characters after `SGD`, the withdrawal
      amount 4. With the same `SGD <x>` layout in both snippets, the debit
      amount keeps the space and the two strings differ, so the duplicate
      test `amt in amounts` does not match such a debit entry. */
  lemma DebitAndWithdrawalAmountsDiffer(pre: string, x: string, post: string, pre2: string, post2: string)
    requires NoEarlierMatch(pre, "SGD") && NoEarlierMatch(pre + "SGD" + " " + x + " ", "was charged")
    requires NoEarlierMatch(pre2, "SGD") && NoEarlierMatch(pre2 + "SGD" + " " + x + " ", "was withdrawn")
    ensures DebitAmount(pre + "SGD" + " " + x + " " + "was charged" + post) == " " + x
    ensures WithdrawalAmount(pre2 + "SGD" + " " + x + " " + "was withdrawn" + post2) == x
    ensures DebitAmount(pre + "SGD" + " " + x + " " + "was charged" + post)
         != WithdrawalAmount(pre2 + "SGD" + " " + x + " " + "was withdrawn" + post2)
  {
    assert pre + "SGD" + " " + x == pre + "SGD" + (" " + x);
    assert pre + "SGD" + " " + x + " " + "was charged" + post == pre + "SGD" + (" " + x) + " " + "was charged" + post;
    DebitAmountAnchored(pre, " " + x, post);
    WithdrawalAmountAnchored(pre2, x, post2);
    assert |" " + x| != |x|;
  }
}
