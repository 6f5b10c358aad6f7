/**
 * The batch runner of unifiedscraper/run_spider.py: a spider is crawled again and again,
 * each run stopping after a fixed number of items and resuming from the same job
 * directory, and once the batches are done the Parquet files of the day's output folder
 * are merged into `combined.parquet`.
 *
 * The clock, the working directory and the folder's contents once the crawls are over
 * are parameters; the crawls themselves are the commands handed to the operating system.
 */
module BatchRunner {
  import opened Wrappers
  import opened Text
  import opened Records
  import opened Consolidation

  /** The calendar day `datetime.now()` gives. */
  datatype Date = Date(year: nat, month: nat, day: nat)

  /**
   * The directory a relative path is resolved against: the working directory followed by
   * a separator, except at the root `/`, which already ends in one.
   */
  function Base(cwd: string): (b: string)
    ensures b != [] && b[|b| - 1] == '/'
  {
    if cwd != [] && cwd[|cwd| - 1] == '/' then cwd else cwd + "/"
  }

  /**
   * `get_current_output_folder(base_name)`: `data/year=Y/month=M/day=D`, followed by
   * `/website=NAME` when the name is truthy, resolved against the working directory.
   */
  function OutputFolder(cwd: string, today: Date, baseName: Option<string>): (r: string)
    ensures StartsWith(r, Base(cwd) + "data/year=")
    ensures Truthy(baseName) ==> EndsWith(r, "/website=" + baseName.value)
    ensures !Truthy(baseName) ==> EndsWith(r, "/day=" + Decimal(today.day))
  {
    var rel := RelativeFolder(today, baseName);
    Resolved(Base(cwd), rel, "data/year=", if Truthy(baseName) then "/website=" + baseName.value
                                           else "/day=" + Decimal(today.day));
    Base(cwd) + rel
  }

  /** The relative folder, before it is resolved. */
  function RelativeFolder(today: Date, baseName: Option<string>): (rel: string)
    ensures StartsWith(rel, "data/year=")
    ensures Truthy(baseName) ==> EndsWith(rel, "/website=" + baseName.value)
    ensures !Truthy(baseName) ==> EndsWith(rel, "/day=" + Decimal(today.day))
  {
    var day := DayPart(today.day, SiteSegment(baseName));
    var rel := "data/year=" + Decimal(today.year) + MonthPart(today.month, day);
    assert rel == "data/year=" + (Decimal(today.year) + MonthPart(today.month, day));
    assert rel[|rel| - |day|..] == day;
    rel
  }

  /** Putting a directory in front keeps a path's ending and extends its beginning. */
  lemma Resolved(base: string, rel: string, head: string, tail: string)
    requires StartsWith(rel, head) && EndsWith(rel, tail)
    ensures StartsWith(base + rel, base + head) && EndsWith(base + rel, tail)
  {
    assert (base + rel)[..|base + head|] == base + rel[..|head|];
    assert (base + rel)[|base + rel| - |tail|..] == rel[|rel| - |tail|..];
  }

  function MonthPart(month: nat, rest: string): string {
    "/month=" + Decimal(month) + rest
  }

  function DayPart(day: nat, rest: string): (r: string)
    ensures EndsWith(r, rest)
    ensures rest == [] ==> EndsWith(r, "/day=" + Decimal(day))
  {
    "/day=" + Decimal(day) + rest
  }

  function SiteSegment(baseName: Option<string>): string {
    if Truthy(baseName) then "/website=" + baseName.value else ""
  }

  /** The length of the leading run of digits. */
  function DigitRun(w: string): nat
    decreases |w|
  {
    if w == [] || !IsDigit(w[0]) then 0 else 1 + DigitRun(w[1..])
  }

  /** Digits followed by nothing or by a '/'-led rest: the run is exactly the digits. */
  lemma {:induction false} DigitRunOf(a: string, x: string)
    requires forall i :: 0 <= i < |a| ==> IsDigit(a[i])
    requires x == [] || x[0] == '/'
    ensures DigitRun(a + x) == |a|
    decreases |a|
  {
    if a == [] {
      assert a + x == x;
    } else {
      assert (a + x)[1..] == a[1..] + x;
      DigitRunOf(a[1..], x);
    }
  }

  /** A run of digits followed by nothing or by a '/'-led rest splits in one way only. */
  lemma DigitsThenSlash(a: string, x: string, b: string, y: string)
    requires forall i :: 0 <= i < |a| ==> IsDigit(a[i])
    requires forall i :: 0 <= i < |b| ==> IsDigit(b[i])
    requires x == [] || x[0] == '/'
    requires y == [] || y[0] == '/'
    requires a + x == b + y
    ensures a == b && x == y
  {
    DigitRunOf(a, x);
    DigitRunOf(b, y);
    assert a == (a + x)[..|a|];
    assert b == (b + y)[..|b|];
    assert x == (a + x)[|a|..];
    assert y == (b + y)[|b|..];
  }

  /** Equal strings with equal prefixes have equal rests. */
  lemma CancelPrefix(p: string, x: string, y: string)
    requires p + x == p + y
    ensures x == y
  {
    assert x == (p + x)[|p|..];
    assert y == (p + y)[|p|..];
  }

  /** Past a common prefix, a number followed by a '/'-led rest reads back in one way. */
  lemma PeelNumber(p: string, m: nat, x: string, n: nat, y: string)
    requires x == [] || x[0] == '/'
    requires y == [] || y[0] == '/'
    requires p + Decimal(m) + x == p + Decimal(n) + y
    ensures m == n && x == y
  {
    assert p + Decimal(m) + x == p + (Decimal(m) + x);
    assert p + Decimal(n) + y == p + (Decimal(n) + y);
    CancelPrefix(p, Decimal(m) + x, Decimal(n) + y);
    DigitsThenSlash(Decimal(m), x, Decimal(n), y);
    DecimalInjective(m, n);
  }

  /**
   * Two runs on different days, or for different sites, never share an output folder:
   * the folder names the day and the site in one way only.
   */
  lemma OutputFolderInjective(cwd: string, d1: Date, n1: Option<string>, d2: Date, n2: Option<string>)
    requires OutputFolder(cwd, d1, n1) == OutputFolder(cwd, d2, n2)
    ensures d1 == d2
    ensures Truthy(n1) <==> Truthy(n2)
    ensures Truthy(n1) ==> n1.value == n2.value
  {
    var t1, t2 := SiteSegment(n1), SiteSegment(n2);
    var day1, day2 := DayPart(d1.day, t1), DayPart(d2.day, t2);
    var month1, month2 := MonthPart(d1.month, day1), MonthPart(d2.month, day2);
    CancelPrefix(Base(cwd), RelativeFolder(d1, n1), RelativeFolder(d2, n2));
    PeelNumber("data/year=", d1.year, month1, d2.year, month2);
    PeelNumber("/month=", d1.month, day1, d2.month, day2);
    PeelNumber("/day=", d1.day, t1, d2.day, t2);
    if Truthy(n1) && Truthy(n2) {
      CancelPrefix("/website=", n1.value, n2.value);
    }
  }

  // ---------------------------------------------------------------------------
  // run_spider_in_batches

  /** What the runner asks of the operating system. */
  datatype Step = Crawl(args: seq<string>) | Sleep(seconds: int)

  /** How a run ended: still looping when the observation stopped, an exception, or the merge. */
  datatype RunOutcome =
    | StillRunning
    | Crashed(error: Error)
    | Finished(outputFolder: string, folder: Folder, merge: MergeOutcome)

  /** One crawl: stop after `batchSize` items, keep the job state under `crawls/<website>`. */
  function CrawlCommand(website: string, batchSize: int): seq<string> {
    ["scrapy", "crawl", website, "-s", "CLOSESPIDER_ITEMCOUNT=" + IntToString(batchSize),
     "-s", "JOBDIR=crawls/" + website]
  }

  /** `n` batches: each a crawl followed by a pause. */
  function Batches(n: nat, cmd: seq<string>, waitTime: int): seq<Step> {
    if n == 0 then [] else Batches(n - 1, cmd, waitTime) + [Crawl(cmd), Sleep(waitTime)]
  }

  /** `max_batches` stops the loop only when it is truthy, that is, present and not 0. */
  predicate Bounded(maxBatches: Option<int>) {
    maxBatches.Some? && maxBatches.value != 0
  }

  /** How many batches a bounded run makes: none at all for a negative bound. */
  function Limit(maxBatches: Option<int>): nat
    requires Bounded(maxBatches)
  {
    if maxBatches.value < 0 then 0 else maxBatches.value
  }

  /** The batches alternate crawls and pauses, always the same crawl and the same pause. */
  lemma {:induction false} BatchesShape(n: nat, cmd: seq<string>, waitTime: int)
    ensures |Batches(n, cmd, waitTime)| == 2 * n
    ensures forall i :: 0 <= i < n ==>
      Batches(n, cmd, waitTime)[2 * i] == Crawl(cmd) && Batches(n, cmd, waitTime)[2 * i + 1] == Sleep(waitTime)
  {
    if n > 0 {
      BatchesShape(n - 1, cmd, waitTime);
    }
  }

  /**
   * The crawl command: `scrapy crawl <site>`, closing the spider after the batch size in
   * items and keeping the job state in `crawls/<site>`, so that each batch resumes the last.
   */
  lemma CrawlCommandShape(website: string, batchSize: int)
    ensures |CrawlCommand(website, batchSize)| == 7
    ensures CrawlCommand(website, batchSize)[..3] == ["scrapy", "crawl", website]
    ensures CrawlCommand(website, batchSize)[3] == "-s" && CrawlCommand(website, batchSize)[5] == "-s"
    ensures batchSize >= 0 ==> CrawlCommand(website, batchSize)[4] == "CLOSESPIDER_ITEMCOUNT=" + Decimal(batchSize)
    ensures batchSize < 0 ==> CrawlCommand(website, batchSize)[4] == "CLOSESPIDER_ITEMCOUNT=-" + Decimal(-batchSize)
    ensures CrawlCommand(website, batchSize)[6] == "JOBDIR=crawls/" + website
  {
    var c := CrawlCommand(website, batchSize);
    assert c[..3] == [c[0], c[1], c[2]];
  }

  /**
   * Crawls of different sites never share a job directory, and the item count a crawl
   * is given reads back as the batch size.
   */
  lemma CrawlCommandsSeparate(w1: string, b1: int, w2: string, b2: int)
    ensures CrawlCommand(w1, b1)[6] == CrawlCommand(w2, b2)[6] <==> w1 == w2
    ensures CrawlCommand(w1, b1)[4] == CrawlCommand(w2, b2)[4] <==> b1 == b2
  {
    if CrawlCommand(w1, b1)[6] == CrawlCommand(w2, b2)[6] {
      CancelPrefix("JOBDIR=crawls/", w1, w2);
    }
    if CrawlCommand(w1, b1)[4] == CrawlCommand(w2, b2)[4] {
      var t1, t2 := IntToString(b1), IntToString(b2);
      CancelPrefix("CLOSESPIDER_ITEMCOUNT=", t1, t2);
      IntToStringInjective(b1, b2);
    }
  }

  /** A printed integer starts with a minus sign exactly when it is negative. */
  lemma SignOf(m: int)
    ensures IntToString(m) != [] && (IntToString(m)[0] == '-' <==> m < 0)
  {
    if m >= 0 {
      assert IsDigit(Decimal(m)[0]);
    }
  }

  /** Distinct integers print differently: a sign and then the decimal digits. */
  lemma IntToStringInjective(m: int, n: int)
    requires IntToString(m) == IntToString(n)
    ensures m == n
  {
    SignOf(m);
    SignOf(n);
    if m < 0 {
      assert Decimal(-m) == IntToString(m)[1..];
      assert Decimal(-n) == IntToString(n)[1..];
      DecimalInjective(-m, -n);
    } else {
      DecimalInjective(m, n);
    }
  }

  /**
   * A run watched for `fuel` batches reaches the merge: the bound stops it within the
   * fuel, and no pause before that raises.
   */
  predicate Completes(maxBatches: Option<int>, waitTime: int, fuel: nat) {
    Bounded(maxBatches) && Limit(maxBatches) <= fuel && (Limit(maxBatches) == 0 || waitTime >= 0)
  }

  /**
   * `run_spider_in_batches(website, batch_size, max_batches, wait_time)`, watched for at
   * most `fuel` batches. `folder` and `listing` describe the day's output folder once the
   * crawls are over. `sleep` of a negative time raises ValueError.
   */
  method RunSpiderInBatches(website: string, batchSize: int, maxBatches: Option<int>, waitTime: int,
                            fuel: nat, cwd: string, today: Date, folder: Folder, listing: seq<string>)
    returns (trace: seq<Step>, outcome: RunOutcome)
    requires IsListing(folder, listing)
    ensures Completes(maxBatches, waitTime, fuel) ==>
      && trace == Batches(Limit(maxBatches), CrawlCommand(website, batchSize), waitTime)
      && outcome == Finished(OutputFolder(cwd, today, Some(website)),
                             MergeResult(folder, listing, "combined.parquet", true).0,
                             MergeResult(folder, listing, "combined.parquet", true).1)
    ensures !Completes(maxBatches, waitTime, fuel) && waitTime < 0 && fuel > 0 ==>
      trace == [Crawl(CrawlCommand(website, batchSize))] && outcome == Crashed(ValueError)
    ensures !Completes(maxBatches, waitTime, fuel) && !(waitTime < 0 && fuel > 0) ==>
      trace == Batches(fuel, CrawlCommand(website, batchSize), waitTime) && outcome == StillRunning
  {
    var cmd := CrawlCommand(website, batchSize);
    var batchCount: nat := 0;
    trace := [];
    while true
      invariant batchCount <= fuel
      invariant trace == Batches(batchCount, cmd, waitTime)
      invariant Bounded(maxBatches) ==> batchCount <= Limit(maxBatches)
      invariant batchCount > 0 ==> waitTime >= 0
      decreases fuel - batchCount
    {
      if Bounded(maxBatches) && batchCount >= maxBatches.value {
        break;
      }
      if batchCount == fuel {
        assert !Completes(maxBatches, waitTime, fuel);
        return trace, StillRunning;
      }
      trace := trace + [Crawl(cmd)];
      batchCount := batchCount + 1;
      if waitTime < 0 {
        assert trace == [Crawl(cmd)];
        assert !Completes(maxBatches, waitTime, fuel);
        return trace, Crashed(ValueError);
      }
      trace := trace + [Sleep(waitTime)];
      assert trace == Batches(batchCount, cmd, waitTime);
    }
    assert Completes(maxBatches, waitTime, fuel) && batchCount == Limit(maxBatches);
    var outputFolder := OutputFolder(cwd, today, Some(website));
    var after, merged := ConcatenateParquetFiles(folder, listing, "combined.parquet", true);
    return trace, Finished(outputFolder, after, merged);
  }
}
