/**
 * Toner-level extraction of the Ricoh printer exporter.
 *
 * A printer's status page shows one fill bar per toner; the bar is an image
 * tag whose `width` attribute counts graphic units, 160 units being a full
 * cartridge. The crawler pairs every parsed status page with its configured
 * printer, reads the first four bars in document order as black, cyan,
 * magenta and yellow, and produces one record per printer, lazily, stopping
 * at the first page it cannot read.
 *
 * Selecting the bar tags in the HTML is the parser's business: a document is
 * modelled as the sequence of tags that selection returns.
 */
module RicohDataCrawler {

  // ---------------------------------------------------------------------------
  // Failures
  // ---------------------------------------------------------------------------

  /**
   * The three exceptions extraction can raise. Python's `IndexError` says only
   * "list index out of range"; the position it carries here is added by the
   * model, to tell which bar was missing.
   */
  datatype Error =
    | IndexError(position: nat)  // the page has no indicator tag at this position
    | KeyError(key: string)      // the tag has no attribute of this name
    | ValueError(text: string)   // the width attribute is not a number

  datatype Result<T> = Ok(value: T) | Err(error: Error) {
    predicate IsFailure() { Err? }
    function PropagateFailure<U>(): Result<U> requires Err? { Err(error) }
    function Extract(): T requires Ok? { value }
  }

  datatype Option<T> = None | Some(value: T)

  // ---------------------------------------------------------------------------
  // Inputs
  // ---------------------------------------------------------------------------

  /** The `width` attribute of an indicator tag: a number, text that is not one, or missing. */
  datatype Width = Number(units: real) | Malformed(text: string) | Absent

  /** One toner-indicator image tag of a status page. */
  datatype Tag = Tag(width: Width)

  /** A parsed status page, as the sequence of its indicator tags in document order. */
  type Document = seq<Tag>

  /** One configured printer: its name and the address of its status page. */
  datatype PrinterUrl = PrinterUrl(name: string, url: string)

  // ---------------------------------------------------------------------------
  // Output record
  // ---------------------------------------------------------------------------

  /** The toner colours, in the order their bars appear on the status page. */
  datatype Toner = Black | Cyan | Magenta | Yellow {
    /** Index of this toner's bar among the indicator tags of a page. */
    function Position(): (k: nat)
      ensures k < IndicatorCount
      ensures Layout[k] == this
    {
      match this
      case Black => 0
      case Cyan => 1
      case Magenta => 2
      case Yellow => 3
    }
  }

  /** Number of bars a status page must show. */
  const IndicatorCount: nat := 4

  /** The page layout: which toner each bar position stands for. */
  const Layout: seq<Toner> := [Black, Cyan, Magenta, Yellow]

  /** One printer's toner levels, in percent, from one reading of its page. */
  datatype PrinterValues = PrinterValues(
    printerName: string,
    levelBlack: real,
    levelCyan: real,
    levelMagenta: real,
    levelYellow: real)
  {
    function Level(t: Toner): real {
      match t
      case Black => levelBlack
      case Cyan => levelCyan
      case Magenta => levelMagenta
      case Yellow => levelYellow
    }
  }

  // ---------------------------------------------------------------------------
  // Width to percentage
  // ---------------------------------------------------------------------------

  /** Bar width, in graphic units, of a full cartridge. */
  const FullScaleUnits: real := 160.0

  /** Percent of toner one graphic unit stands for: 100 / 160 = 0.625. */
  const SingleGraphicConstant: real := 100.0 / 160.0

  /**
   * The fill level a tag's bar shows. The width is scaled, not clamped or
   * rounded. A tag without a width fails on the attribute lookup, and a
   * width that is not a number fails on its conversion.
   */
  function FillPercent(tag: Tag): (r: Result<real>)
    ensures r.Ok? <==> tag.width.Number?
    ensures r.Ok? ==> r.value * FullScaleUnits == tag.width.units * 100.0
    ensures tag.width.Absent? ==> r == Err(KeyError("width"))
    ensures tag.width.Malformed? ==> r == Err(ValueError(tag.width.text))
  {
    match tag.width
    case Number(units) => Ok(units * SingleGraphicConstant)
    case Malformed(text) => Err(ValueError(text))
    case Absent => Err(KeyError("width"))
  }

  lemma FillPercentFixedPoints()
    ensures FillPercent(Tag(Number(160.0))) == Ok(100.0)
    ensures FillPercent(Tag(Number(80.0))) == Ok(50.0)
    ensures FillPercent(Tag(Number(40.0))) == Ok(25.0)
    ensures FillPercent(Tag(Number(0.0))) == Ok(0.0)
    ensures FillPercent(Tag(Number(1.0))) == Ok(0.625)
  {
  }

  /** A width in [0, 160] gives a level in [0, 100], and only such a width does. */
  lemma FillPercentInRange(units: real)
    ensures var p := FillPercent(Tag(Number(units))).value;
      (0.0 <= p <= 100.0) <==> (0.0 <= units <= FullScaleUnits)
  {
  }

  /** Out-of-range widths are passed through as out-of-range levels. */
  lemma FillPercentPassesThrough(units: real)
    ensures units < 0.0 ==> FillPercent(Tag(Number(units))).value < 0.0
    ensures units > FullScaleUnits ==> FillPercent(Tag(Number(units))).value > 100.0
  {
  }

  /** A wider bar never shows less toner. */
  lemma FillPercentMonotone(u: real, v: real)
    requires u <= v
    ensures FillPercent(Tag(Number(u))).value <= FillPercent(Tag(Number(v))).value
  {
  }

  /** Different widths show different levels: the conversion loses no width information. */
  lemma FillPercentInjective(u: real, v: real)
    requires FillPercent(Tag(Number(u))) == FillPercent(Tag(Number(v)))
    ensures u == v
  {
  }

  // ---------------------------------------------------------------------------
  // One page to one record
  // ---------------------------------------------------------------------------

  /** Read the bar at `position` of a page: the tag must exist and its width be a number. */
  function ReadLevel(tags: Document, position: nat): Result<real>
  {
    if position < |tags| then FillPercent(tags[position]) else Err(IndexError(position))
  }

  /**
   * The record for one printer. The four bars are read in the order black,
   * cyan, magenta, yellow and the record is built only once all four are read,
   * so the first bar that is missing or malformed decides the failure.
   */
  function ExtractRecord(tags: Document, name: string): (r: Result<PrinterValues>)
    ensures r.Ok? <==> |tags| >= IndicatorCount && forall k :: 0 <= k < IndicatorCount ==> tags[k].width.Number?
    ensures r.Ok? ==> r.value.printerName == name
    ensures r.Ok? ==> forall t: Toner :: FillPercent(tags[t.Position()]) == Ok(r.value.Level(t))
  {
    var black :- ReadLevel(tags, Black.Position());
    var cyan :- ReadLevel(tags, Cyan.Position());
    var magenta :- ReadLevel(tags, Magenta.Position());
    var yellow :- ReadLevel(tags, Yellow.Position());
    Ok(PrinterValues(name, black, cyan, magenta, yellow))
  }

  /**
   * When positions before `k` hold numeric bars and position `k` is missing,
   * has no width or has a malformed one, extraction fails with exactly the
   * error of position `k`.
   */
  lemma ExtractFailsAtFirstBadBar(tags: Document, name: string, k: nat)
    requires k < IndicatorCount
    requires forall j :: 0 <= j < k ==> j < |tags| && tags[j].width.Number?
    requires k >= |tags| || !tags[k].width.Number?
    ensures ExtractRecord(tags, name) == Err(
      if k >= |tags| then IndexError(k)
      else if tags[k].width.Absent? then KeyError("width")
      else ValueError(tags[k].width.text))
  {
    forall j | 0 <= j < k
      ensures ReadLevel(tags, j).Ok?
    {
      assert j < |tags| && tags[j].width.Number?;
    }
  }

  /** Bars after the fourth do not influence the record. */
  lemma ExtraBarsIgnored(tags: Document, extra: Document, name: string)
    requires |tags| >= IndicatorCount
    ensures ExtractRecord(tags + extra, name) == ExtractRecord(tags, name)
  {
  }

  lemma ExtractExamples()
    ensures ExtractRecord([Tag(Number(160.0)), Tag(Number(80.0)), Tag(Number(40.0)), Tag(Number(0.0))], "Printer-A")
      == Ok(PrinterValues("Printer-A", 100.0, 50.0, 25.0, 0.0))
    ensures ExtractRecord([Tag(Number(160.0)), Tag(Number(80.0)), Tag(Number(40.0))], "Printer-A")
      == Err(IndexError(3))
    ensures ExtractRecord([Tag(Number(160.0)), Tag(Malformed("n/a")), Tag(Number(40.0))], "Printer-A")
      == Err(ValueError("n/a"))
    ensures ExtractRecord([Tag(Number(160.0)), Tag(Number(80.0)), Tag(Absent), Tag(Number(0.0))], "Printer-A")
      == Err(KeyError("width"))
  {
  }

  // ---------------------------------------------------------------------------
  // The batch of printers
  // ---------------------------------------------------------------------------

  function Min(a: nat, b: nat): nat { if a <= b then a else b }

  /** Pairs up two sequences position by position, dropping the longer one's tail. */
  function Zip<A, B>(xs: seq<A>, ys: seq<B>): (r: seq<(A, B)>)
    ensures |r| == Min(|xs|, |ys|)
    ensures forall k :: 0 <= k < |r| ==> r[k] == (xs[k], ys[k])
  {
    if xs == [] || ys == [] then [] else [(xs[0], ys[0])] + Zip(xs[1..], ys[1..])
  }

  /** The record for one (page, printer) pair. */
  function ExtractPair(pair: (Document, PrinterUrl)): Result<PrinterValues>
  {
    ExtractRecord(pair.0, pair.1.name)
  }

  /**
   * What a consumer of the record generator observes: the records it yields,
   * and the error that ends it early, if any.
   */
  datatype Run = Run(records: seq<PrinterValues>, failure: Option<Error>)

  /**
   * Everything the record generator produces for a sequence of pairs. The
   * records are those of the leading pairs that extract successfully, in
   * order; the first pair that fails ends the run with its error.
   */
  function Crawl(pairs: seq<(Document, PrinterUrl)>): (run: Run)
    ensures |run.records| <= |pairs|
    ensures forall k :: 0 <= k < |run.records| ==> ExtractPair(pairs[k]) == Ok(run.records[k])
    ensures run.failure.None? <==> |run.records| == |pairs|
    ensures run.failure.Some? ==> ExtractPair(pairs[|run.records|]) == Err(run.failure.value)
  {
    if pairs == [] then Run([], None)
    else
      match ExtractPair(pairs[0])
      case Err(e) => Run([], Some(e))
      case Ok(record) =>
        var rest := Crawl(pairs[1..]);
        Run([record] + rest.records, rest.failure)
  }

  /** The four properties in Crawl's contract determine its run. */
  lemma CrawlDetermined(pairs: seq<(Document, PrinterUrl)>, run: Run)
    requires |run.records| <= |pairs|
    requires forall k :: 0 <= k < |run.records| ==> ExtractPair(pairs[k]) == Ok(run.records[k])
    requires run.failure.None? <==> |run.records| == |pairs|
    requires run.failure.Some? ==> ExtractPair(pairs[|run.records|]) == Err(run.failure.value)
    ensures run == Crawl(pairs)
  {
  }

  /**
   * The generator is consumed one pair at a time: what it yields for a prefix
   * of the pairs is not affected by the pairs after it. If the prefix ends in
   * a failure, nothing after it is looked at; otherwise the run continues with
   * the rest.
   */
  lemma CrawlAppend(p: seq<(Document, PrinterUrl)>, q: seq<(Document, PrinterUrl)>)
    ensures Crawl(p).failure.Some? ==> Crawl(p + q) == Crawl(p)
    ensures Crawl(p).failure.None? ==>
      Crawl(p + q) == Run(Crawl(p).records + Crawl(q).records, Crawl(q).failure)
  {
    var head, tail := Crawl(p), Crawl(q);
    if head.failure.Some? {
      CrawlDetermined(p + q, head);
    } else {
      var run := Run(head.records + tail.records, tail.failure);
      assert forall k :: 0 <= k < |q| ==> (p + q)[|p| + k] == q[k];
      CrawlDetermined(p + q, run);
    }
  }

  /** When every pair extracts, one record per pair comes out, named after its printer. */
  lemma CrawlAllSucceed(soups: seq<Document>, urls: seq<PrinterUrl>)
    requires forall k :: 0 <= k < Min(|soups|, |urls|) ==> ExtractRecord(soups[k], urls[k].name).Ok?
    ensures var run := Crawl(Zip(soups, urls));
      && run.failure == None
      && |run.records| == Min(|soups|, |urls|)
      && forall k :: 0 <= k < |run.records| ==>
           run.records[k].printerName == urls[k].name
           && Ok(run.records[k]) == ExtractRecord(soups[k], urls[k].name)
  {
  }

  /**
   * When pair `k` is the first that fails, the records of pairs 0 .. k-1 are
   * yielded and then the error of pair `k` ends the run.
   */
  lemma CrawlStopsAtFirstFailure(soups: seq<Document>, urls: seq<PrinterUrl>, k: nat)
    requires k < Min(|soups|, |urls|)
    requires forall j :: 0 <= j < k ==> ExtractRecord(soups[j], urls[j].name).Ok?
    requires ExtractRecord(soups[k], urls[k].name).Err?
    ensures var run := Crawl(Zip(soups, urls));
      && |run.records| == k
      && run.failure == Some(ExtractRecord(soups[k], urls[k].name).error)
      && forall j :: 0 <= j < k ==> Ok(run.records[j]) == ExtractRecord(soups[j], urls[j].name)
  {
  }

  /**
   * The record generator, run until it is exhausted or raises: the pages and
   * printers are paired as `zip` pairs them, and each pair's record is
   * appended in turn until one pair fails.
   */
  method GetPrinterValues(soups: seq<Document>, urls: seq<PrinterUrl>)
    returns (records: seq<PrinterValues>, failure: Option<Error>)
    ensures |records| <= Min(|soups|, |urls|)
    ensures forall k :: 0 <= k < |records| ==>
      records[k].printerName == urls[k].name && ExtractRecord(soups[k], urls[k].name) == Ok(records[k])
    ensures failure.None? <==> |records| == Min(|soups|, |urls|)
    ensures failure.Some? ==> ExtractRecord(soups[|records|], urls[|records|].name) == Err(failure.value)
    ensures Run(records, failure) == Crawl(Zip(soups, urls))
  {
    var n := Min(|soups|, |urls|);
    records, failure := [], None;
    var i := 0;
    while i < n
      invariant 0 <= i <= n
      invariant |records| == i
      invariant forall k :: 0 <= k < i ==> ExtractRecord(soups[k], urls[k].name) == Ok(records[k])
    {
      var record := ExtractRecord(soups[i], urls[i].name);
      if record.Err? {
        failure := Some(record.error);
        CrawlDetermined(Zip(soups, urls), Run(records, failure));
        return;
      }
      records := records + [record.value];
      i := i + 1;
    }
    CrawlDetermined(Zip(soups, urls), Run(records, failure));
  }
}
