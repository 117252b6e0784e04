/**
 * The arXiv helper: the submitted-date range added to a search query, the
 * capped collection of results into paper records, and the file name a PDF
 * is saved under.  The arXiv client, the checksum and the file system are
 * parameters.
 */
module Arxiv {
  import opened Common
  import opened Text

  // ---------------------------------------------------------------------------
  // Gregorian calendar
  // ---------------------------------------------------------------------------

  /** `calendar.isleap`: divisible by 4, except centuries not divisible by 400. */
  predicate IsLeap(year: int) {
    year % 4 == 0 && (year % 100 != 0 || year % 400 == 0)
  }

  /** `calendar.monthrange(year, month)[1]`, the number of days in the month. */
  function DaysInMonth(year: int, month: int): (days: int)
    requires 1 <= month <= 12
    ensures 28 <= days <= 31
    ensures month == 2 ==> (days == 29 <==> IsLeap(year)) && (days == 28 <==> !IsLeap(year))
    ensures month in {4, 6, 9, 11} ==> days == 30
    ensures month in {1, 3, 5, 7, 8, 10, 12} ==> days == 31
  {
    var mdays := [0, 31, 28, 31, 30, 31, 30, 31, 31, 30, 31, 30, 31];
    mdays[month] + if month == 2 && IsLeap(year) then 1 else 0
  }

  lemma LeapYearExamples()
    ensures DaysInMonth(2024, 2) == 29
    ensures DaysInMonth(2023, 2) == 28
    ensures DaysInMonth(1900, 2) == 28
    ensures DaysInMonth(2000, 2) == 29
  {
  }

  // ---------------------------------------------------------------------------
  // Date range
  // ---------------------------------------------------------------------------

  /** What escapes `search_papers` before any search: `int()` of a non-number, or `monthrange` of a bad month. */
  datatype DateError = InvalidLiteral(text: string) | IllegalMonth(month: int)

  /** `date_to` followed by the last day of its month, its first four characters being the year and the rest the month. */
  function EndDate(dateTo: string): (r: Result<string, DateError>)
    ensures r.Ok? <==>
      && ParseDecimal(Take(dateTo, 4)).Some?
      && ParseDecimal(Drop(dateTo, 4)).Some?
      && 1 <= ParseDecimal(Drop(dateTo, 4)).value <= 12
    ensures r.Ok? ==> |r.value| == |dateTo| + 2 && r.value[..|dateTo|] == dateTo && AllDigits(r.value[|dateTo|..])
    ensures r.Ok? ==> ParseDecimal(r.value[|dateTo|..]) == Some(DaysInMonth(ParseDecimal(Take(dateTo, 4)).value, ParseDecimal(Drop(dateTo, 4)).value))
  {
    match ParseDecimal(Take(dateTo, 4))
    case None => Err(InvalidLiteral(Take(dateTo, 4)))
    case Some(year) =>
      match ParseDecimal(Drop(dateTo, 4))
      case None => Err(InvalidLiteral(Drop(dateTo, 4)))
      case Some(month) =>
        if !(1 <= month <= 12) then Err(IllegalMonth(month))
        else
          var lastDay := DaysInMonth(year, month);
          TwoDigits(lastDay);
          ParseNatToString(lastDay);
          assert (dateTo + NatToString(lastDay))[|dateTo|..] == NatToString(lastDay);
          Ok(dateTo + NatToString(lastDay))
  }

  lemma TwoDigits(n: nat)
    requires 10 <= n < 100
    ensures |NatToString(n)| == 2
  {
    assert NatToString(n) == NatToString(n / 10) + [DigitChar(n % 10)];
  }

  /**
   * The query `search_papers` sends: unchanged when neither date is given,
   * otherwise the parenthesised query and a `submittedDate` range whose open
   * ends are `*`; a bad `date_to` is an error whatever `date_from` is.
   */
  function DateRangeQuery(query: string, dateFrom: Option<string>, dateTo: Option<string>): (r: Result<string, DateError>)
    ensures !Truthy(dateFrom) && !Truthy(dateTo) ==> r == Ok(query)
    ensures Truthy(dateTo) && EndDate(dateTo.value).Err? ==> r == Err(EndDate(dateTo.value).error)
    ensures Truthy(dateFrom) && Truthy(dateTo) && EndDate(dateTo.value).Ok? ==>
      r == Ok("(" + query + ") AND submittedDate:[" + (dateFrom.value + "01 TO ") + (EndDate(dateTo.value).value + "]"))
    ensures Truthy(dateFrom) && !Truthy(dateTo) ==>
      r == Ok("(" + query + ") AND submittedDate:[" + (dateFrom.value + "01 TO ") + "*]")
    ensures !Truthy(dateFrom) && Truthy(dateTo) && EndDate(dateTo.value).Ok? ==>
      r == Ok("(" + query + ") AND submittedDate:[" + "* TO " + (EndDate(dateTo.value).value + "]"))
  {
    if !Truthy(dateFrom) && !Truthy(dateTo) then Ok(query)
    else
      var lower := if Truthy(dateFrom) then dateFrom.value + "01 TO " else "* TO ";
      var upper := if Truthy(dateTo) then (match EndDate(dateTo.value) case Ok(d) => Ok(d + "]") case Err(e) => Err(e)) else Ok("*]");
      match upper
      case Err(e) => Err(e)
      case Ok(u) => Ok("(" + query + ") AND submittedDate:[" + lower + u)
  }

  /** `str(n)` of a four-digit year, spelled out. */
  lemma Numerals()
    ensures NatToString(2024) == "2024" && NatToString(2023) == "2023" && NatToString(1900) == "1900"
    ensures NatToString(13) == "13" && NatToString(29) == "29" && NatToString(28) == "28"
  {
    assert NatToString(20) == "20" && NatToString(202) == "202";
    assert NatToString(19) == "19" && NatToString(190) == "190";
  }

  /** A zero-padded month, as `date_to` spells it, parses to the month. */
  lemma PaddedMonth(m: nat)
    requires 1 <= m <= 9
    ensures ParseDecimal("0" + NatToString(m)) == Some(m)
  {
    ParseDecimalLeadingZero(NatToString(m));
    ParseNatToString(m);
  }

  /** A four-digit year's numeral has four characters. */
  lemma FourDigits(n: nat)
    requires 1000 <= n < 10000
    ensures |NatToString(n)| == 4
  {
    assert NatToString(n) == NatToString(n / 10) + [DigitChar(n % 10)];
    assert NatToString(n / 10) == NatToString(n / 100) + [DigitChar(n / 10 % 10)];
    TwoDigits(n / 100);
  }

  /** `date_to` as the form sends it: four-digit year and two-digit month. */
  function MonthText(year: nat, month: nat): string {
    NatToString(year) + (if month < 10 then "0" + NatToString(month) else NatToString(month))
  }

  /** Every well-formed `date_to` ends on its month's last day. */
  lemma EndDateOfMonth(year: nat, month: nat)
    requires 1000 <= year < 10000 && 1 <= month <= 12
    ensures EndDate(MonthText(year, month)) == Ok(MonthText(year, month) + NatToString(DaysInMonth(year, month)))
  {
    var d := MonthText(year, month);
    var mm := if month < 10 then "0" + NatToString(month) else NatToString(month);
    FourDigits(year);
    ParseNatToString(year);
    if month < 10 {
      PaddedMonth(month);
    } else {
      ParseNatToString(month);
    }
    assert Take(d, 4) == NatToString(year);
    assert Drop(d, 4) == mm;
  }

  /** `202402`: February of a leap year ends on the 29th. */
  lemma EndDateLeap()
    ensures EndDate("202402") == Ok("20240229")
  {
    Numerals();
    ParseNatToString(2024);
    PaddedMonth(2);
    assert "02" == "0" + NatToString(2);
    assert Take("202402", 4) == "2024" && Drop("202402", 4) == "02";
    assert ParseDecimal(Take("202402", 4)) == Some(2024);
    assert DaysInMonth(2024, 2) == 29;
    assert "202402" + NatToString(29) == "20240229";
  }

  /** `202302`: February of a common year ends on the 28th. */
  lemma EndDateCommon()
    ensures EndDate("202302") == Ok("20230228")
  {
    Numerals();
    ParseNatToString(2023);
    PaddedMonth(2);
    assert "02" == "0" + NatToString(2);
    assert Take("202302", 4) == "2023" && Drop("202302", 4) == "02";
    assert ParseDecimal(Take("202302", 4)) == Some(2023);
    assert DaysInMonth(2023, 2) == 28;
    assert "202302" + NatToString(28) == "20230228";
  }

  /** `190002`: a century not divisible by 400 is not a leap year. */
  lemma EndDateCentury()
    ensures EndDate("190002") == Ok("19000228")
  {
    Numerals();
    ParseNatToString(1900);
    PaddedMonth(2);
    assert "02" == "0" + NatToString(2);
    assert Take("190002", 4) == "1900" && Drop("190002", 4) == "02";
    assert ParseDecimal(Take("190002", 4)) == Some(1900);
    assert DaysInMonth(1900, 2) == 28;
    assert "190002" + NatToString(28) == "19000228";
  }

  /** `202413`: month 13 is refused by the calendar. */
  lemma EndDateBadMonth()
    ensures EndDate("202413") == Err(IllegalMonth(13))
  {
    Numerals();
    ParseNatToString(2024);
    ParseNatToString(13);
    assert Take("202413", 4) == "2024" && Drop("202413", 4) == "13";
  }

  // ---------------------------------------------------------------------------
  // Collecting results
  // ---------------------------------------------------------------------------

  /** A result as the client yields it. */
  datatype Entry = Entry(entryId: string, title: string, authorNames: seq<string>, published: string, summary: string, pdfUrl: string)

  /** The record kept for a result; `hashId` is the checksum of the entry id. */
  datatype Paper = Paper(hashId: int, title: string, authors: string, published: string, summary: string, pdfUrl: string, entryId: string)

  function ToPaper(e: Entry, crc32: string -> int): Paper {
    Paper(crc32(e.entryId), e.title, Join(", ", e.authorNames), e.published, e.summary, e.pdfUrl, e.entryId)
  }

  /** Authors are joined in order: appending a name appends `", "` and the name. */
  lemma {:induction false} AuthorsInOrder(names: seq<string>, name: string)
    ensures Join(", ", names + [name]) == if names == [] then name else Join(", ", names) + ", " + name
    decreases |names|
  {
    if |names| >= 2 {
      assert (names + [name])[1..] == names[1..] + [name];
      AuthorsInOrder(names[1..], name);
    } else if |names| == 1 {
      assert names + [name] == [names[0], name];
      assert [names[0], name][1..] == [name];
    } else {
      assert names + [name] == [name];
    }
  }

  /** How many results the loop keeps: it appends before testing, so at least one when any is yielded. */
  function Kept(available: nat, maxResults: int): (n: nat)
    ensures n <= available
    ensures maxResults >= 1 ==> n <= maxResults
    ensures available > 0 ==> n > 0
    ensures n < available ==> n == maxResults || (n == 1 && maxResults < 1)
    ensures n == (if maxResults < 1 then (if available < 1 then available else 1)
                  else (if available < maxResults then available else maxResults))
  {
    var cap := if maxResults < 1 then 1 else maxResults;
    if available < cap then available else cap
  }

  // ---------------------------------------------------------------------------
  // The helper object
  // ---------------------------------------------------------------------------

  class ArxivResearchHelper {
    const downloadDir: string
    /** The entries the client yields for a query and a limit, up to the end of the stream or the first error. */
    const client: (string, int) -> seq<Entry>
    /** `next(client.results(Search(id_list=[id])))`, `None` when it raises. */
    const lookup: string -> Option<Entry>
    /** `zlib.crc32(bytes(s, 'utf-8'))`. */
    const crc32: string -> int

    constructor(downloadDir: string, client: (string, int) -> seq<Entry>, lookup: string -> Option<Entry>, crc32: string -> int)
      ensures this.downloadDir == downloadDir && this.client == client && this.lookup == lookup && this.crc32 == crc32
    {
      this.downloadDir := downloadDir;
      this.client := client;
      this.lookup := lookup;
      this.crc32 := crc32;
    }

    /**
     * `search_papers`: a date error escapes before the search; otherwise the
     * papers are the first results of the client, in order, stopping once
     * `max_results` are kept.
     */
    method SearchPapers(query: string, maxResults: int, dateFrom: Option<string>, dateTo: Option<string>)
      returns (r: Result<seq<Paper>, DateError>)
      ensures DateRangeQuery(query, dateFrom, dateTo).Err? ==> r == Err(DateRangeQuery(query, dateFrom, dateTo).error)
      ensures DateRangeQuery(query, dateFrom, dateTo).Ok? ==>
        var entries := client(DateRangeQuery(query, dateFrom, dateTo).value, maxResults);
        && r.Ok?
        && |r.value| == Kept(|entries|, maxResults)
        && forall i :: 0 <= i < |r.value| ==> r.value[i] == ToPaper(entries[i], crc32)
    {
      var q := DateRangeQuery(query, dateFrom, dateTo);
      if q.Err? {
        return Err(q.error);
      }
      var entries := client(q.value, maxResults);
      var results: seq<Paper> := [];
      var i := 0;
      while i < |entries|
        invariant 0 <= i <= |entries|
        invariant |results| == i
        invariant i == 0 || i < maxResults
        invariant forall k :: 0 <= k < i ==> results[k] == ToPaper(entries[k], crc32)
      {
        var paper := ToPaper(entries[i], crc32);
        results := results + [paper];
        i := i + 1;
        if |results| >= maxResults {
          break;
        }
      }
      r := Ok(results);
    }

    /** The path `download_pdf` returns for an entry: the sanitised title with `.pdf`, inside the download directory. */
    function PdfPath(title: string): (path: string)
      reads this
      ensures var name := SanitizeTitle(title) + ".pdf";
        && '/' !in name
        && (downloadDir == "" ==> path == name)
        && (downloadDir != "" ==> |path| > |name| && path[|path| - |name|..] == name && path[|path| - |name| - 1] == '/')
        && (downloadDir != "" && downloadDir[|downloadDir| - 1] != '/' ==> path == downloadDir + "/" + name)
        && (downloadDir != "" && downloadDir[|downloadDir| - 1] == '/' ==> path == downloadDir + name)
    {
      SanitizeTitleProps(title);
      var name := SanitizeTitle(title) + ".pdf";
      assert forall i :: 0 <= i < |name| ==> name[i] != '/' by {
        forall i | 0 <= i < |name|
          ensures name[i] != '/'
        {
          if i >= |SanitizeTitle(title)| {
            assert name[i] == ".pdf"[i - |SanitizeTitle(title)|];
          }
        }
      }
      var path := PathJoin(downloadDir, name);
      assert downloadDir != "" ==> path[|path| - |name|..] == name;
      path
    }

    /**
     * `download_pdf(entry_id)`: `None` when the lookup or the download raises;
     * otherwise the path, downloading only when no file is there yet.
     */
    method DownloadPdf(entryId: string, fileExists: string -> bool, download: (Entry, string, string) -> bool)
      returns (r: Option<string>)
      ensures lookup(entryId).None? ==> r == None
      ensures lookup(entryId).Some? ==>
        var paper := lookup(entryId).value; var path := PdfPath(paper.title);
        r == if fileExists(path) || download(paper, downloadDir, SanitizeTitle(paper.title) + ".pdf") then Some(path) else None
    {
      var found := lookup(entryId);
      if found.None? {
        return None;
      }
      var paper := found.value;
      var title := SanitizeTitle(paper.title);
      var pdfFilename := PathJoin(downloadDir, title + ".pdf");
      if fileExists(pdfFilename) {
        return Some(pdfFilename);
      }
      var ok := download(paper, downloadDir, title + ".pdf");
      if !ok {
        return None;
      }
      r := Some(pdfFilename);
    }
  }

  // ---------------------------------------------------------------------------
  // File names
  // ---------------------------------------------------------------------------

  /** `title.replace(" ", "_").replace("/", "_")`. */
  function SanitizeTitle(title: string): string {
    ReplaceChar(ReplaceChar(title, ' ', '_'), '/', '_')
  }

  /** Sanitising keeps the length, leaves no space or slash, changes nothing else, and is idempotent. */
  lemma SanitizeTitleProps(title: string)
    ensures var s := SanitizeTitle(title);
      && |s| == |title|
      && ' ' !in s && '/' !in s
      && (forall i :: 0 <= i < |s| ==> s[i] == if title[i] == ' ' || title[i] == '/' then '_' else title[i])
      && SanitizeTitle(s) == s
  {
    var s := SanitizeTitle(title);
    var s2 := SanitizeTitle(s);
    assert forall i :: 0 <= i < |s| ==> s[i] != ' ' && s[i] != '/';
    assert |s2| == |s| && forall i :: 0 <= i < |s| ==> s2[i] == s[i];
  }

  /** `os.path.join(a, b)` on POSIX, for `b` not starting with a slash. */
  function PathJoin(a: string, b: string): string {
    if b != [] && b[0] == '/' then b
    else if a == [] || a[|a| - 1] == '/' then a + b
    else a + "/" + b
  }
}
