# Ricoh printer exporter: toner-level extraction

This project models the toner-level extraction of the Ricoh printer exporter.
The exporter reads each printer's status web page. On that page every toner
has a fill bar: an image tag whose `width` attribute counts graphic units, and
160 units mean a full cartridge. The crawler pairs each parsed page with its
configured `(name, url)` entry, as `zip` pairs them. It reads the first four
bars in document order as black, cyan, magenta and yellow, and converts each
width to a percentage. It then yields one `Printer_Values` record per printer.

The model is one module, `RicohDataCrawler`, in `ricoh_data_crawler.dfy`:

- **Width conversion.** `FillPercent` scales a numeric width by 100/160 = 0.625.
  It uses exact `real` arithmetic and does not clamp or round. A tag with no
  `width` attribute fails with `KeyError`, as `tag['width']` does. A width
  that is not a number fails with `ValueError`, as `float(...)` does.
- **One page.** `ExtractRecord` reads the bars at positions 0, 1, 2 and 3. It
  reads them in the order the Python keyword arguments are evaluated, so the
  first bar that is missing (`IndexError`), has no width (`KeyError`) or has a
  malformed width (`ValueError`) decides the failure. The record is built only
  after all four reads succeed, so a partial record is never built. `Toner.Position` and `Layout` spell out the
  positional mapping.
- **The batch.** `GetPrinterValues` is the generator as a method. Its loop
  visits `min(|soups|, |urls|)` pairs and appends each record to the output.
  It stops at the first pair that fails and reports that pair's error. The
  pure function `Crawl` over `Zip(soups, urls)` specifies the same run.
  `CrawlAppend` states the property that makes the generator lazy: what it
  yields for a prefix of the pairs does not depend on the pairs after it.

A parsed page is the sequence of tags that the HTML selector returns. Each tag
carries a width that is a number, unreadable text, or no width at all.

Three facts about the code shape the model:

- `tag_list[k]` raises a plain `IndexError` that does not name the printer.
  The failing printer is the one at index `|records|` of the batch. Python's
  `IndexError` says only "list index out of range"; the position `k` that the
  model's `IndexError(k)` carries is extra information the model adds, to tell
  which bar was missing.
- A Python generator that raises is finished, so the run ends at the first
  failure and no pair after it is read.
- The comment at `ricoh_data_crawler.py:29` gives "0,635%". The code computes
  100/160 = 0.625, and the model uses 0.625.

## Model

| member | source | states |
|---|---|---|
| RicohDataCrawler.FillPercent | prometheus_ricoh_printer_exporter/ricoh_data_crawler.py:21-34 | the conversion succeeds exactly when the width is a number; the level relates to the width as 100 to 160 (`level * 160 == width * 100`); a missing width fails with `KeyError("width")`; a non-numeric width fails with `ValueError` carrying its text |
| RicohDataCrawler.FillPercentFixedPoints | prometheus_ricoh_printer_exporter/ricoh_data_crawler.py:25-33 | 160 units give 100%, 80 give 50%, 40 give 25%, 0 give 0%, and one unit is 0.625% |
| RicohDataCrawler.FillPercentInRange | prometheus_ricoh_printer_exporter/ricoh_data_crawler.py:30-34 | the level lies in [0, 100] if and only if the width lies in [0, 160] |
| RicohDataCrawler.FillPercentPassesThrough | prometheus_ricoh_printer_exporter/ricoh_data_crawler.py:30-34 | no clamping: a negative width gives a negative level, and a width above 160 gives a level above 100 |
| RicohDataCrawler.FillPercentMonotone | prometheus_ricoh_printer_exporter/ricoh_data_crawler.py:33 | a wider bar never gives a lower level |
| RicohDataCrawler.FillPercentInjective | prometheus_ricoh_printer_exporter/ricoh_data_crawler.py:30-33 | two widths that give the same level are equal, so the conversion loses no width information |
| RicohDataCrawler.Toner.Position | prometheus_ricoh_printer_exporter/ricoh_data_crawler.py:49-52 | each toner reads a bar position below 4, and the layout `[Black, Cyan, Magenta, Yellow]` maps that position back to the same toner |
| RicohDataCrawler.ExtractRecord | prometheus_ricoh_printer_exporter/ricoh_data_crawler.py:43-53 | extraction succeeds if and only if the page has at least 4 bars and the first 4 widths are numbers; the record then carries the given printer name, and each toner's level is the converted width of the bar at that toner's position |
| RicohDataCrawler.ExtractFailsAtFirstBadBar | prometheus_ricoh_printer_exporter/ricoh_data_crawler.py:46-53 | when bars 0 .. k-1 are numeric and bar k is missing, has no width or has a malformed one, extraction fails with `IndexError(k)` (the position is added by the model; Python's message does not carry it), `KeyError("width")` or the `ValueError` of bar k, and no record is built |
| RicohDataCrawler.ExtraBarsIgnored | prometheus_ricoh_printer_exporter/ricoh_data_crawler.py:44-52 | on a page with at least 4 bars, appending more bars does not change the result |
| RicohDataCrawler.ExtractExamples | prometheus_ricoh_printer_exporter/ricoh_data_crawler.py:46-53 | widths [160, 80, 40, 0] for "Printer-A" give levels 100, 50, 25 and 0; three bars fail with `IndexError(3)`; a malformed second bar fails with its `ValueError` before the missing fourth bar is reached; a third bar with no width fails with `KeyError("width")` |
| RicohDataCrawler.Zip | prometheus_ricoh_printer_exporter/ricoh_data_crawler.py:43 | pairs position k of both inputs, for every k below the shorter length, and stops there |
| RicohDataCrawler.Crawl | prometheus_ricoh_printer_exporter/ricoh_data_crawler.py:37-53 | the run yields the records of the leading pairs in input order, each equal to that pair's extraction; it ends without error exactly when every pair yielded; otherwise its error is the extraction error of the first pair with no record |
| RicohDataCrawler.CrawlDetermined | prometheus_ricoh_printer_exporter/ricoh_data_crawler.py:37-53 | any run with the four properties of `Crawl`'s contract equals `Crawl`, so that contract fully specifies the generator |
| RicohDataCrawler.CrawlAppend | prometheus_ricoh_printer_exporter/ricoh_data_crawler.py:37-46 | running on `p + q` gives the run on `p` when `p` fails; otherwise it gives `p`'s records followed by the run on `q`, so records of earlier pairs do not depend on later pairs |
| RicohDataCrawler.CrawlAllSucceed | prometheus_ricoh_printer_exporter/ricoh_data_crawler.py:43-48 | when every pair extracts, exactly `min(|soups|, |urls|)` records come out with no error, record k named `urls[k].name` |
| RicohDataCrawler.CrawlStopsAtFirstFailure | prometheus_ricoh_printer_exporter/ricoh_data_crawler.py:37-53 | when pair k is the first to fail, exactly the records of pairs 0 .. k-1 come out, then pair k's error |
| RicohDataCrawler.GetPrinterValues | prometheus_ricoh_printer_exporter/ricoh_data_crawler.py:37-53 | the loop yields at most `min(|soups|, |urls|)` records; record k carries `urls[k].name` and is pair k's extraction; it ends without error exactly when all pairs yielded, and otherwise with the error of the pair after the last record; the result equals `Crawl(Zip(soups, urls))` |

## Left out

- The tag selection `soup.find_all(...)` at `ricoh_data_crawler.py:44` is not modelled. It depends on the HTML library's matching rules, so a page is given as the sequence of tags it returns.
- String-to-float parsing is not modelled. A width is a number, unreadable text or absent. Python's `float` also accepts forms such as `"1e3"`, `"inf"` and `"nan"`; the model does not tell these apart from other numbers or text.
- Floating-point rounding is not modelled. Levels are exact reals. 0.625 is exact in binary, so the stated fixed points agree with the code.
- The outer `float(...)` around each `get_fill_percent` call at lines 49-52 is not modelled. It returns its float argument unchanged.
- The lazy generator is modelled only by its observable effect. Records of earlier pairs come out before a later pair's error, and nothing after that error is produced. Stopping early at the caller's choice is the prefix property `CrawlAppend`.
- `url[0]` is modelled as the `name` field of a `(name, url)` entry. Entries of any other shape are not modelled.
- HTTP fetching of status pages, the Prometheus metrics server, printer configuration and the polling schedule are not part of this model. They are I/O outside the crawler.
- The unused `import re` at line 6 is not modelled.
