# unifiedscraper, modelled in Dafny

unifiedscraper crawls e-commerce sites with Scrapy. Each spider starts at a site's brand
index, fans out to the brand listings, and pages through them. A NextPage spider follows a
"next page" link; a LoadMore spider requests a growing product offset. From each product
page the spider extracts a record of fields, guided by the site's product-page schema.
A batch runner crawls a spider in bounded runs, then merges the day's Parquet output into
one `combined.parquet`.

This project models three parts of that system and proves properties of the model:

- **The traversal controller** of `spiders/base_scraper.py` (module `Traversal`) and the
  shared currency helper (module `Currency`). The controller covers URL resolution, the
  start request, `parse_urls` with its domain filter, the brand page, and the two listing
  policies.
- **The batch runner** of `run_spider.py`. Module `BatchRunner` covers the output-folder
  path and the batch loop. Module `Consolidation` covers the Parquet merge.
- **The product parsers** of seventeen spiders, one module each. Each parser has a
  `Product` datatype whose fields are the keys of the yielded dictionary.

Some helpers model Python and Scrapy behaviour:

- `Text`: Python's `str` methods, such as `split`, `join`, `replace`, `strip` and
  `rstrip`.
- `Prices`: the regular-expression searches and `float()`.
- `Records`: the page as the matches of each schema selector, plus lookups into parsed
  JSON.

Python's exceptions are values of a `Result` type. A missing schema key is KeyError, and
`None.replace` is AttributeError. `re.search` on `None` is TypeError, and `.group()` of a
failed search is AttributeError. A malformed `float()` literal is ValueError. Each parser
method states:

- when it raises, and with which exception;
- the whole record it yields otherwise.

The lemmas beside each parser state what its derived fields mean.

## Model

| member | source | states |
|---|---|---|
| Traversal.MakeAbsoluteUrl | unifiedscraper/spiders/base_scraper.py:37-43 | the link is resolved against the parent URL when one is given, against the configured base URL otherwise |
| Traversal.Start | unifiedscraper/spiders/base_scraper.py:47-57 | exactly one request: the brands URL resolved against the base URL, for the brand-page parser, with the playwright flag defaulting to false |
| Traversal.ParseUrls | unifiedscraper/spiders/base_scraper.py:70-82 | an empty URL list raises IndexError (`urls[0]` is read first); otherwise the loop yields exactly the URL-by-URL filtered requests, in input order |
| Traversal.FollowedConcat | unifiedscraper/spiders/base_scraper.py:74-82 | URLs are followed one at a time: the requests for a concatenation of lists are the concatenation of their requests |
| Traversal.FollowedOne | unifiedscraper/spiders/base_scraper.py:76-82 | a single URL is followed exactly when its absolute form contains the allowed domain |
| Traversal.FollowedFilters | unifiedscraper/spiders/base_scraper.py:74-82 | at most one request per URL; each request is in the allowed domain, carries the given callback and meta, and comes from an input URL; every in-domain URL is followed |
| Traversal.ParseBrandPage | unifiedscraper/spiders/base_scraper.py:59-68 | no brand links raises IndexError; otherwise the requests are exactly those `parse_urls` yields for the brand links, in order: every in-domain link becomes a listing request carrying `brand_url` equal to the brand page's own URL, and no other request is made |
| Traversal.ParseNextPageListing | unifiedscraper/spiders/base_scraper.py:127-145 | KeyError without `brand_url`, IndexError without product links; otherwise the filtered product requests, then the next-page request |
| Traversal.NextPageShape | unifiedscraper/spiders/base_scraper.py:130-145 | product requests come first, in the domain and carrying the page's `brand_url`; one more request exists exactly when the pagination matched something non-empty; that request is resolved against the base URL and carries the same `brand_url` |
| Traversal.NextPageNotFiltered | unifiedscraper/spiders/base_scraper.py:139-145 | a next-page link outside the allowed domain is followed all the same |
| Traversal.ParseLoadMoreListing | unifiedscraper/spiders/base_scraper.py:95-124 | KeyError without `brand_url`; the `parse_urls` generator is never consumed, so no product request is yielded; one load-more request when the button matched |
| Traversal.LoadMoreYieldsNoProducts | unifiedscraper/spiders/base_scraper.py:100-124 | a LoadMore listing yields at most one request, never a product request, and its result does not depend on the product links |
| Traversal.LoadMoreRequest | unifiedscraper/spiders/base_scraper.py:107-124 | the request goes to the query plus the offset, resolved against the page URL, and records the offset; the offset is the last offset (default 0) plus the step when the step's text is in the URL, and twice the step otherwise |
| Traversal.OffsetChainCounts | unifiedscraper/spiders/base_scraper.py:110-124 | along pages whose URLs all hold the step's text, starting from k·step, the offsets are (k+1)·step, (k+2)·step, ... |
| Traversal.OffsetsIncrease | unifiedscraper/spiders/base_scraper.py:110-124 | from a first page without the token, the offsets are 2·step, 3·step, ...; with a positive step they strictly increase |
| Traversal.OffsetRepeatsWithoutToken | unifiedscraper/spiders/base_scraper.py:110-114 | when no URL holds the step's text, every load-more request asks for the same offset 2·step |
| Traversal.ParseListing | unifiedscraper/spiders/base_scraper.py:93-145 | a listing page is parsed by the policy of the spider's class |
| Traversal.OffsetAsWritten | unifiedscraper/spiders/base_scraper.py:110-114 | the offset update as written, for either Python type of `load_more_offset`: an integer raises TypeError at the containment test |
| Traversal.OffsetAsWrittenDiverges | unifiedscraper/spiders/base_scraper.py:110-114 | as written, a string step 24 gives "2424" and then "242424", where the intended offsets are 48 and 72 |
| Currency.FirstSymbolIn | unifiedscraper/spiders/base_scraper.py:166-169 | the head of `re.findall` over the symbol class is a symbol that occurs in the text |
| Currency.NoSymbolFound | unifiedscraper/spiders/base_scraper.py:166-169 | the search finds nothing exactly when no character of the text is in the symbol class |
| Currency.ExtractSymbol | unifiedscraper/spiders/base_scraper.py:166-169 | `None` raises TypeError; a text without a symbol raises IndexError; otherwise the result is a symbol that occurs in the text |
| Currency.ToCode | unifiedscraper/spiders/base_scraper.py:149-164 | the result is EUR, USD, GBP or the text itself; it fails exactly when the text is `None` or has no symbol (the copy in pellecchia.py:56-76 is identical) |
| Currency.ToCodeFailsWithoutSymbol | unifiedscraper/spiders/base_scraper.py:156-169 | a text converts exactly when it holds some currency symbol |
| Currency.FirstSymbolDecides | unifiedscraper/spiders/base_scraper.py:166-169 | the first symbol of a text is the one extracted, whatever follows it |
| Currency.KnownSymbolsGiveCodes | unifiedscraper/spiders/base_scraper.py:156-162 | texts like `€75.5`, `60$` and `3£` give EUR, USD and GBP |
| Currency.OtherSymbolsGiveText | unifiedscraper/spiders/base_scraper.py:163-164 | a text whose first symbol is any other symbol comes back unchanged |
| Currency.LaterSymbolsIgnored | unifiedscraper/spiders/base_scraper.py:156-169 | a second, different symbol after a known one changes nothing |
| Prices.SearchFinds | unifiedscraper/spiders/durso.py:35-36 | `re.search('[\d,]+', s)` finds nothing exactly when no character is in the class; a match is made of class characters of `s` |
| Prices.SearchFindsFirstRun | unifiedscraper/spiders/durso.py:35-36 | the match is the leftmost maximal run of class characters |
| Prices.FloatAccepts | unifiedscraper/spiders/durso.py:35-36 | on digits and points, `float()` accepts exactly the texts with a digit and at most one point |
| Prices.ToPrice | unifiedscraper/spiders/durso.py:35-39 | a price text that is `None` raises TypeError (AttributeError when `replace` comes first); any failure is AttributeError, TypeError or ValueError |
| Prices.ToPriceGivesLiteral | unifiedscraper/spiders/durso.py:35-39 | a converted price is a decimal literal, and a text without a digit never converts |
| Prices.KeepDigitsDotsKeeps | unifiedscraper/spiders/answear.py:40-41 | `re.sub(r'[^\d.]', '', s)` keeps every digit and point of `s` and nothing else |
| Prices.CommaDecimalReadsDecimalComma | unifiedscraper/spiders/durso.py:35-36 | `€ 12,50` reads as 12.50: the first run of digits and commas, its comma made a point |
| Prices.CommaThousandsDropsSeparator | unifiedscraper/spiders/pellecchia.py:28-29 | `€1,299` reads as 1299: the comma is dropped |
| Prices.DotDecimalReadsDecimalPoint | unifiedscraper/spiders/evolution.py:33-37 | `12.50 €` reads as 12.50: the first run of digits and points |
| Prices.DotThousandsReadsGroupedPrice | unifiedscraper/spiders/goccia_men.py:35-38 | `1.299,00 €` reads as 1299.00: points dropped, then the comma made a point |
| Prices.DigitsDotsKeptReadsDecimalPoint | unifiedscraper/spiders/answear.py:40-41 | `129.90 EUR` reads as 129.90: everything but digits and points is dropped |
| Prices.CommasDroppedFirstReadsUnits | unifiedscraper/spiders/grs.py:33-36 | with commas removed first, `1299.00 €` reads as 1299 only: the run of digits and commas stops at the point |
| Records.Get | unifiedscraper/spiders/durso.py:52 | a schema key that is missing raises KeyError; otherwise the first match, `None` when nothing matched |
| Records.Present | unifiedscraper/spiders/pellecchia.py:26 | calling a string method on `None` raises AttributeError |
| Records.Tidy | unifiedscraper/spiders/bagaglio.py:38 | `replace("\n", "").strip()` leaves no line break and no surrounding whitespace |
| Records.TidyKeepsChars | unifiedscraper/spiders/bagaglio.py:38 | tidying keeps only characters of the original text |
| Records.TidyIdempotent | unifiedscraper/spiders/bagaglio.py:38 | tidying twice is tidying once |
| Records.Flatten | unifiedscraper/spiders/progetto.py:41-42 | `replace("\n", "").replace("\t", "")` leaves no line break and no tab |
| Records.Index | unifiedscraper/spiders/evolution.py:49 | `j[key]` gives the value of a present key; KeyError for a missing key, TypeError off objects |
| Records.At | unifiedscraper/spiders/evolution.py:49 | `j[0]` on a list gives its first item and raises IndexError on an empty list; KeyError on an object |
| Records.GetKey | unifiedscraper/spiders/evolution.py:48 | `j.get(key)` gives the value or `None` on an object, and AttributeError off objects |
| Consolidation.Lead | unifiedscraper/run_spider.py:40-43 | how many listed files are appended before one raises: all files before it are appendable, and the one at that index is not |
| Consolidation.KeptHolds | unifiedscraper/run_spider.py:45-49 | after k turns, a file is present exactly when it is not among the first k listed files (when deleting), with its content unchanged |
| Consolidation.ConcatenateParquetFiles | unifiedscraper/run_spider.py:12-55 | the folder after the merge and how the merge ended are those of `MergeResult` |
| Consolidation.NothingToMerge | unifiedscraper/run_spider.py:25-29 | with no Parquet file, nothing is created or deleted |
| Consolidation.RowsOfConcat | unifiedscraper/run_spider.py:40-43 | the rows of consecutive runs of files are concatenated |
| Consolidation.MergeConservesRows | unifiedscraper/run_spider.py:32-49 | when every file reads under the first file's schema, the output holds all their rows in listing order under that schema; the listed files are all deleted or all kept; other files are untouched |
| Consolidation.MergeStopsAtFailure | unifiedscraper/run_spider.py:38-53 | an exception at file k leaves the rows of the first k files in the closed output; those files are deleted when deleting, and the rest are untouched |
| Consolidation.RemergeLosesEarlierOutput | unifiedscraper/run_spider.py:25-46 | an earlier `combined.parquet` is listed too; the writer truncates it, so reading it raises; its old rows are lost and later files are not merged |
| BatchRunner.OutputFolder | unifiedscraper/run_spider.py:57-70 | the folder is the relative folder resolved against the working directory: `<cwd>/data/year=Y/...`, or `/data/year=Y/...` at the root; it ends in `/website=NAME` for a truthy name and in `/day=D` otherwise |
| BatchRunner.RelativeFolder | unifiedscraper/run_spider.py:63-68 | the relative folder starts with `data/year=` and ends in `/website=NAME` for a truthy name, in `/day=D` otherwise |
| BatchRunner.OutputFolderInjective | unifiedscraper/run_spider.py:57-70 | different days or different sites never share an output folder |
| BatchRunner.BatchesShape | unifiedscraper/run_spider.py:75-89 | n batches are 2n steps alternating the same crawl and the same pause |
| BatchRunner.CrawlCommandShape | unifiedscraper/run_spider.py:80-84 | the command is `scrapy crawl <site>`, then `-s CLOSESPIDER_ITEMCOUNT=<batch size>` (signed, for any integer) and `-s JOBDIR=crawls/<site>` |
| BatchRunner.CrawlCommandsSeparate | unifiedscraper/run_spider.py:80-84 | two crawls share a job directory exactly when they crawl the same site, and get the same item count exactly when their batch sizes are equal |
| BatchRunner.RunSpiderInBatches | unifiedscraper/run_spider.py:73-97 | a truthy positive cap gives exactly that many batches, then one merge into `combined.parquet` with deletion; a negative cap gives none; a negative wait raises after the first crawl; without a truthy cap the loop is still running after any number of batches |
| Pellecchia.CleanString | unifiedscraper/spiders/pellecchia.py:48-49 | `None` cleans to the empty string |
| Pellecchia.CleanStringKeepsWords | unifiedscraper/spiders/pellecchia.py:52-54 | the result is single-spaced, with no surrounding, repeated or non-space whitespace; it has the same words in the same order |
| Pellecchia.CleanStringIdempotent | unifiedscraper/spiders/pellecchia.py:48-54 | cleaning a cleaned string changes nothing |
| Pellecchia.SkuLabelRemoved | unifiedscraper/spiders/pellecchia.py:26 | `SKU: <code>` gives the code |
| Pellecchia.ParseProductPage | unifiedscraper/spiders/pellecchia.py:11-32 | KeyError exactly for a missing schema key; AttributeError for a missing SKU; success exactly when the SKU is present and the currency and both prices convert; the record has the cleaned brand and sizes, the code without "SKU: ", and both converted prices |
| Durso.Color | unifiedscraper/spiders/durso.py:49-52 | raises exactly when the color text holds "html" and the schema has no alternate color, and then KeyError |
| Durso.AvailabilityMissing | unifiedscraper/spiders/durso.py:44-47 | the availability is `None` exactly when every match is empty, and has no line break otherwise |
| Durso.ColorFromUrl | unifiedscraper/spiders/durso.py:49-52 | without a color, the piece of the URL after the last '-' is the color, or the alternate color when that piece holds "html" |
| Durso.ParseProductPage | unifiedscraper/spiders/durso.py:15-54 | KeyError for a missing schema key; TypeError without a current price; success exactly when the prices and the color step go through; the original price falls back to the current one |
| Evolution.Details | unifiedscraper/spiders/evolution.py:46-49 | missing details raise TypeError and text that is not JSON ValueError, inside the `try` |
| Evolution.DetailsRead | unifiedscraper/spiders/evolution.py:47-49 | details holding a color and a non-empty offer list give that color and the first offer's stock state |
| Evolution.DetailsNotObject | unifiedscraper/spiders/evolution.py:48 | details that are not an object raise AttributeError at `.get` |
| Evolution.DetailsWithoutColor | unifiedscraper/spiders/evolution.py:48-49 | a missing color is `None` and does not raise; missing offers raise KeyError |
| Evolution.ParseProductPage | unifiedscraper/spiders/evolution.py:14-54 | KeyError for a missing schema key; AttributeError for a missing SKU; the SKU loses "SKU:"; the details are popped, and any failure reading them sets both color and stock to `None` |
| Bagaglio.AttributeKey | unifiedscraper/spiders/bagaglio.py:48 | a cleaned attribute title never ends in ':' |
| Bagaglio.AttributesHave | unifiedscraper/spiders/bagaglio.py:43-50 | the dictionary has a key exactly when some row with a title and a value names it |
| Bagaglio.AttributesLastWins | unifiedscraper/spiders/bagaglio.py:43-50 | a key holds the stripped value of the last such row naming it |
| Bagaglio.CollectAttributes | unifiedscraper/spiders/bagaglio.py:40-50 | the loop builds the attribute dictionary of the rows |
| Bagaglio.ParseProductPage | unifiedscraper/spiders/bagaglio.py:12-53 | KeyError for a missing schema key; AttributeError for a missing color; sizes "One Size"; the original price falls back to the current one; the description is the attribute dictionary |
| Wardow.WebCodeOf | unifiedscraper/spiders/wardow.py:34 | the web code is `None` exactly when nothing matched, and has no line break otherwise |
| Wardow.ParseProductPage | unifiedscraper/spiders/wardow.py:12-49 | KeyError for a missing schema key; AttributeError for a missing brand; the category always equals the tidied brand; with a no-discount price both prices are equal |
| Viglie.ParseProductPage | unifiedscraper/spiders/viglie.py:13-46 | KeyError for a missing schema key; AttributeError when the brand, the name or the stock state is missing; the product code is the SKU; the original price falls back to the current one |
| Esdemarca.UnlabelClean | unifiedscraper/spiders/esdemarca.py:40-44 | the cleaned SKU and color hold no colon, line break or tab |
| Esdemarca.UnlabelReads | unifiedscraper/spiders/esdemarca.py:40-44 | a `label: value` text gives the stripped value |
| Esdemarca.ParseProductPage | unifiedscraper/spiders/esdemarca.py:12-46 | KeyError for a missing schema key; success exactly when the currency and both prices convert; a no-discount price stands for both prices and is popped; the SKU and color are unlabelled or `None` |
| Progetto.UntilEach | unifiedscraper/spiders/progetto.py:43 | cutting at ' ', then '_', then '-' cuts at the first of the three |
| Progetto.CodeIsLeadingCode | unifiedscraper/spiders/progetto.py:43 | the product code is the SKU's prefix up to its first space, underscore or dash, and holds none of them |
| Progetto.ParseProductPage | unifiedscraper/spiders/progetto.py:13-45 | KeyError for a missing schema key; AttributeError for a missing SKU or name; the SKU and name lose line breaks and tabs; the original price falls back to the current one |
| GocciaMen.ColorOfCode | unifiedscraper/spiders/goccia_men.py:40-41 | a code without '-' gives no color; otherwise the color is the text between the first dash and the next |
| GocciaMen.ParseProductPage | unifiedscraper/spiders/goccia_men.py:12-43 | KeyError exactly when a looked-up key is missing, the lazily looked-up prices included; a no-discount price gives equal prices; AttributeError for a missing product code |
| Answear.SpiderName | unifiedscraper/spiders/answear.py:45-51 | the three sections are spiders named `answear-...`; they share one parser |
| Answear.CurrencyIsLastWord | unifiedscraper/spiders/answear.py:33 | the currency is the word after the price's last space |
| Answear.InfoFields | unifiedscraper/spiders/answear.py:35-38 | missing info raises TypeError, text that is not JSON ValueError; any failure is TypeError, ValueError or KeyError |
| Answear.InfoRead | unifiedscraper/spiders/answear.py:35-38 | an info object gives its size, category and SKU, and raises KeyError without one of them |
| Answear.ParseProductPage | unifiedscraper/spiders/answear.py:12-43 | KeyError for a missing schema key; AttributeError without a current price; a no-discount price gives equal prices; sizes, category and SKU come from the info blob, which is popped |
| Itgio.ColorLabelRemoved | unifiedscraper/spiders/itgio.py:42-43 | `Colore <name>` gives the stripped name |
| Itgio.ParseProductPage | unifiedscraper/spiders/itgio.py:15-47 | only a missing schema key raises; the prices are both converted or both `None`; a truthy color loses its label; the availability is joined and stripped |
| Deflorio.SkuPartsRead | unifiedscraper/spiders/deflorio.py:30-32 | a SKU without '-' is all code with no color code; otherwise the code is the text before the first dash and the color code the next piece |
| Deflorio.ParseProductPage | unifiedscraper/spiders/deflorio.py:13-44 | KeyError for a missing schema key; AttributeError for a missing SKU; the original price falls back to the current one |
| Cisalfa.DecimalSizeNonEmpty | unifiedscraper/spiders/cisalfa.py:36 | a non-empty size stays non-empty once its commas become points |
| Cisalfa.DecimalSizesClean | unifiedscraper/spiders/cisalfa.py:35-36 | every cleaned size is non-empty and holds no comma; there are exactly as many as the non-empty input sizes (the input length less the number of empty entries) |
| Cisalfa.DecimalSizesOne | unifiedscraper/spiders/cisalfa.py:36 | a single size is dropped when empty and otherwise has its commas made points |
| Cisalfa.DecimalSizesConcat | unifiedscraper/spiders/cisalfa.py:36 | sizes are cleaned one by one in order: the cleaned sizes of a concatenation are the concatenation of the cleaned sizes |
| Cisalfa.ColorAfterLastDash | unifiedscraper/spiders/cisalfa.py:38 | the color is the stripped text after the last dash |
| Cisalfa.ParseProductPage | unifiedscraper/spiders/cisalfa.py:12-40 | only a missing schema key raises; a truthy image is resolved against the shop root; a missing color is `None`; the prices pass through unconverted |
| Grs.UrlParts | unifiedscraper/spiders/grs.py:23-30 | a URL ending `/<code>-<color>` gives that SKU, code and color; one ending `/<code>` gives an empty color |
| Grs.TrailingSlashUrl | unifiedscraper/spiders/grs.py:23 | a URL ending in '/' gives an empty SKU, code and color |
| Grs.ReadProduct | unifiedscraper/spiders/grs.py:14-30 | KeyError or IndexError when the literal fails (no price match raises IndexError); AttributeError for a missing name; the category is the name's first word |
| Grs.ParseProductPageAsWritten | unifiedscraper/spiders/grs.py:12-38 | no page yields a product: once the literal and name are read, the currency step raises TypeError |
| Grs.ParseProductPage | unifiedscraper/spiders/grs.py:12-38 | with the currency read from the current price, success exactly when the literal, the name, the currency and both prices go through |
| Grs.EuroPriceCurrency | unifiedscraper/spiders/grs.py:32 | with the correction, `120.50 €` gives EUR |
| Grs.EuroPriceUnits | unifiedscraper/spiders/grs.py:35-36 | `120.50 €` converts to 120: the run stops at the point |
| Lelefantino.FirstValue | unifiedscraper/spiders/lelefantino.py:20 | `get()` is `None` exactly when nothing matched |
| Lelefantino.SpanTexts | unifiedscraper/spiders/lelefantino.py:36-39 | one item per element, its span text, in document order |
| Lelefantino.GetListField | unifiedscraper/spiders/lelefantino.py:31-41 | the loop returns one item per matched element, in order |
| Lelefantino.ParseProductPage | unifiedscraper/spiders/lelefantino.py:10-29 | the loop over the schema builds the dictionary of `DetailsOf`: the span texts of every element for a selector ending in " li" without "::attr", the first match otherwise |
| Lelefantino.DetailsKeys | unifiedscraper/spiders/lelefantino.py:16-26 | the dictionary has exactly the schema's fields |
| Lelefantino.DetailsValues | unifiedscraper/spiders/lelefantino.py:16-26 | with distinct fields, each field holds what its own selector extracts |
| Tendenze.SkuRead | unifiedscraper/spiders/tendenze.py:28-31 | a SKU text ending in `<code>/<color>` gives that code and color; without a slash, the last word is the code and the color is empty |
| Tendenze.ParseProductPage | unifiedscraper/spiders/tendenze.py:11-33 | KeyError exactly when a looked-up key is missing (the second size selector only when needed); AttributeError for a missing SKU; the sizes fall back to the second selector |

## Left out

- Scrapy itself: scheduling, fetching, `response.follow` and CSS selector evaluation. A page is the matches of each schema selector, and a request is a plain record.
- `urljoin` and `json.loads` are function parameters (`join`, `loads`), so their own behaviour is not modelled.
- `float()` is not evaluated to a binary number. A converted price is kept as the exact literal handed to `float()`, together with whether `float()` accepts it.
- Regular expressions read `\d` as an ASCII digit. Python also matches other Unicode decimal digits.
- `datetime.now()` and `Path.resolve()` are inputs (`today`, `cwd`). The working directory is taken as `os.getcwd()` gives it: absolute and normalised, ending in '/' only at the root. Symbolic links are not resolved.
- BatchRunner.OutputFolder: a site name holding '/', '.' or '..' segments is kept as written, where `Path.resolve()` would normalise it. Spider names hold none.
- `subprocess.run`, `sleep`, `print`, logging, argparse and `os.makedirs` are left out. The runner's trace records the crawl commands and the pauses. A crawl's exit status is ignored, as in the source.
- BatchRunner.RunSpiderInBatches: a loop without a truthy cap never ends. The model watches it for `fuel` batches and reports it as still running.
- The crawls' effect on the folder is not modelled. The merge is given the folder as it stands after the crawls.
- The glob order of the Parquet files is an input `listing`: any order, each file once.
- Parquet reading and writing are left out. A table is a schema and rows, and an unreadable file is a state of its own. A file with a different schema raises at the writer.
- Configuration and schema loading (`_load_config`, `_load_schema`) are left out. The site configuration and the schema's keys are inputs.
- Python dictionary order is left out. Records are datatypes, so the order of their keys is not modelled.
- The intermediate states of the record before it is yielded are not modelled.
- unifiedscraper/middlewares.py is not part of this model. It picks random headers.
- unifiedscraper/spiders/coolculture_schema.py and unifiedscraper/spiders/goccia-men.py are not part of this model. They repeat the currency helper and a NoDiscountPrice override that goccia_men.py already covers.
- The Lelefantino spider is a LoadMore spider. Its listing pages therefore never request a product page (Traversal.LoadMoreYieldsNoProducts). Its parser is modelled all the same.
- Wardow.ParseProductPage: as written, the category is a copy of the cleaned brand. The category selector's match is discarded.
- Evolution.DetailsRead, Evolution.DetailsNotObject and Evolution.DetailsWithoutColor follow from the definition of `Details` without further proof.

## Findings

| source | as written | input that shows it | evidently intended | confidence | as-written member | corrected member |
|---|---|---|---|---|---|---|
| unifiedscraper/spiders/grs.py:32 | the currency helper is given the `response` object, so `re.findall` raises TypeError and no product is ever yielded | any page whose literal and name read, e.g. a current price `120.50 €` | the currency of the current price text, as every other parser reads it | high, not executed | Grs.ParseProductPageAsWritten | Grs.ParseProductPage |
| unifiedscraper/spiders/base_scraper.py:110-114 | `load_more_offset` is used as a string (`in response.url`) and as a number (`+`, `* 2`). An integer raises TypeError at the test; a string step "24" asks for offset "2424" on the second page | a LoadMore page with step 24 whose URL lacks "24" | the next offset is the last offset plus the step, or twice the step on the first follow | medium, not executed | Traversal.OffsetAsWritten | Traversal.NextOffset |
