/** The reports screen: revenue and tax totals over the history, and the CSV export. */
module Reports {
  import opened Types
  import opened Sums
  import opened Text
  import opened Tax

  /** Sum of the record totals. */
  function TotalRevenue(history: seq<KhataRecord>): real {
    SumBy(history, RecordTotal)
  }

  /** Sum of cgst + sgst over the records. */
  function TotalTax(history: seq<KhataRecord>): real {
    SumBy(history, RecordTax)
  }

  /** The records, in order, whose timestamp starts with today's date. */
  function RecordsOn(history: seq<KhataRecord>, today: string): (r: seq<KhataRecord>)
    ensures forall x :: x in r <==> x in history && StartsWith(x.timestamp, today)
    ensures |r| <= |history|
    decreases |history|
  {
    if |history| == 0 then []
    else
      assert forall x :: x in history <==> x == history[0] || x in history[1..] by {
        assert history == [history[0]] + history[1..];
      }
      (if StartsWith(history[0].timestamp, today) then [history[0]] else []) + RecordsOn(history[1..], today)
  }

  /** Revenue of the records whose timestamp starts with today's date. */
  function TodaysRevenue(history: seq<KhataRecord>, today: string): real {
    SumBy(RecordsOn(history, today), RecordTotal)
  }

  /** Filtering a concatenation filters each part and keeps their order. */
  lemma {:induction false} RecordsOnOfConcat(a: seq<KhataRecord>, b: seq<KhataRecord>, today: string)
    ensures RecordsOn(a + b, today) == RecordsOn(a, today) + RecordsOn(b, today)
    decreases |a|
  {
    if |a| > 0 {
      assert (a + b)[0] == a[0];
      assert (a + b)[1..] == a[1..] + b;
      RecordsOnOfConcat(a[1..], b, today);
    } else {
      assert a + b == b;
    }
  }

  /** A record's contribution to today's revenue: its total when dated today, otherwise nothing. */
  function TodayShare(today: string): KhataRecord -> real {
    (h: KhataRecord) => if StartsWith(h.timestamp, today) then h.taxDetails.total else 0.0
  }

  /** Reference definition: today's revenue is the sum over the whole history of each record's share of today. */
  lemma {:induction false} TodaysRevenueIsShareSum(history: seq<KhataRecord>, today: string)
    ensures TodaysRevenue(history, today) == SumBy(history, TodayShare(today))
    decreases |history|
  {
    if |history| > 0 {
      var first, tail := history[0], history[1..];
      assert history == [first] + tail;
      TodaysRevenueIsShareSum(tail, today);
      SumByCons(first, tail, TodayShare(today));
      if StartsWith(first.timestamp, today) {
        assert RecordsOn(history, today) == [first] + RecordsOn(tail, today);
        SumByCons(first, RecordsOn(tail, today), RecordTotal);
      } else {
        assert RecordsOn(history, today) == RecordsOn(tail, today);
      }
    }
  }

  /** With non-negative totals, today's revenue is between 0 and the total revenue. */
  lemma {:induction false} TodayWithinTotal(history: seq<KhataRecord>, today: string)
    requires forall i :: 0 <= i < |history| ==> history[i].taxDetails.total >= 0.0
    ensures 0.0 <= TodaysRevenue(history, today) <= TotalRevenue(history)
    decreases |history|
  {
    if |history| > 0 {
      var first, tail := history[0], history[1..];
      assert history == [first] + tail;
      assert forall i :: 0 <= i < |tail| ==> tail[i].taxDetails.total >= 0.0 by {
        forall i | 0 <= i < |tail|
          ensures tail[i].taxDetails.total >= 0.0
        {
          assert tail[i] == history[i + 1];
        }
      }
      TodayWithinTotal(tail, today);
      SumByCons(first, tail, RecordTotal);
      if StartsWith(first.timestamp, today) {
        assert RecordsOn(history, today) == [first] + RecordsOn(tail, today);
        SumByCons(first, RecordsOn(tail, today), RecordTotal);
      } else {
        assert RecordsOn(history, today) == RecordsOn(tail, today);
      }
    }
  }

  /** When every record carries its computed breakdown, revenue is 1.18 and tax 0.18 of the summed subtotals. */
  lemma {:induction false} TotalsOfComputedRecords(history: seq<KhataRecord>)
    requires forall i :: 0 <= i < |history| ==> history[i].taxDetails == ComputeTax(history[i].items)
    ensures TotalRevenue(history) == 1.18 * SumBy(history, RecordSubtotal)
    ensures TotalTax(history) == 0.18 * SumBy(history, RecordSubtotal)
    decreases |history|
  {
    if |history| > 0 {
      TotalsOfComputedRecords(history[..|history| - 1]);
    }
  }

  const HeaderLine: string := "Date,Transaction ID,Items,Subtotal,Tax,Total"

  const CsvHeader: string := HeaderLine + "\n"

  function Descriptions(items: seq<KhataItem>): (ds: seq<string>)
    ensures |ds| == |items|
    ensures forall i :: 0 <= i < |items| ==> ds[i] == items[i].description
    decreases |items|
  {
    if |items| == 0 then [] else [items[0].description] + Descriptions(items[1..])
  }

  /** The descriptions joined by "; " inside double quotes; quotes inside are not escaped. */
  function ItemsField(items: seq<KhataItem>): (f: string)
    ensures |f| >= 2 && f[0] == '"' && f[|f| - 1] == '"'
    ensures f[1..|f| - 1] == Join(Descriptions(items), "; ")
  {
    "\"" + Join(Descriptions(items), "; ") + "\""
  }

  /**
   The six fields of one CSV line.  `localeDate` stands for
   `new Date(ts).toLocaleDateString()` and `num` for JavaScript's
   number-to-text conversion.
   */
  function CsvFields(h: KhataRecord, localeDate: string -> string, num: real -> string): seq<string> {
    [localeDate(h.timestamp), h.id, ItemsField(h.items),
     num(h.taxDetails.subtotal), num(RecordTax(h)), num(h.taxDetails.total)]
  }

  /** One CSV line: the fields separated by commas. */
  function CsvRow(h: KhataRecord, localeDate: string -> string, num: real -> string): string {
    Join(CsvFields(h, localeDate, num), ",")
  }

  function CsvRows(history: seq<KhataRecord>, localeDate: string -> string, num: real -> string): (rows: seq<string>)
    ensures |rows| == |history|
    ensures forall i :: 0 <= i < |history| ==> rows[i] == CsvRow(history[i], localeDate, num)
    decreases |history|
  {
    if |history| == 0 then [] else [CsvRow(history[0], localeDate, num)] + CsvRows(history[1..], localeDate, num)
  }

  /** The downloaded text: the header line, then the rows joined by newlines. */
  function Csv(history: seq<KhataRecord>, localeDate: string -> string, num: real -> string): (text: string)
    ensures |text| >= |CsvHeader| && text[..|CsvHeader|] == CsvHeader
    ensures history == [] ==> text == CsvHeader
  {
    CsvHeader + Join(CsvRows(history, localeDate, num), "\n")
  }

  lemma HeaderIsOneLine()
    ensures '\n' !in HeaderLine
    ensures CsvHeader == HeaderLine + ['\n']
  {
  }

  /**
   Read back line by line, the CSV is the header followed by one row per
   record in history order (an empty history leaves one empty line after the
   header) — provided no row itself contains a newline.
   */
  lemma CsvLines(history: seq<KhataRecord>, localeDate: string -> string, num: real -> string)
    requires forall r :: r in CsvRows(history, localeDate, num) ==> '\n' !in r
    ensures Split(Csv(history, localeDate, num), '\n') ==
      [HeaderLine] + (if |history| == 0 then [""] else CsvRows(history, localeDate, num))
  {
    var rows := CsvRows(history, localeDate, num);
    HeaderIsOneLine();
    LinesAfterHeader(HeaderLine, rows, '\n');
  }

  /** The Tax column of a record carrying its computed breakdown is 18% of its subtotal. */
  lemma TaxColumnOfComputedRecord(h: KhataRecord)
    requires h.taxDetails == ComputeTax(h.items)
    ensures RecordTax(h) == 0.18 * h.taxDetails.subtotal
  {
  }
}
