/**
 * `concatenate_parquet_files` (unifiedscraper/run_spider.py): the Parquet files of a
 * folder are appended, in listing order, to one output file that takes the schema of
 * the first file, and each is deleted once written when asked to.
 *
 * A folder is a map from file names to file contents. A file the Parquet reader cannot
 * read is `Unreadable`; while the writer holds the output open, the output is unreadable
 * too. Reading failures and schema mismatches raise ValueError.
 */
module Consolidation {
  import opened Wrappers
  import opened Text

  type Row = seq<string>

  datatype Table = Table(schema: seq<string>, rows: seq<Row>)

  datatype FileState = Readable(table: Table) | Unreadable

  type Folder = map<string, FileState>

  /** How a merge ended: nothing to merge, every listed file merged, or an exception. */
  datatype MergeOutcome = NoFiles | Merged(count: nat) | Raised(error: Error)

  /**
   * `Path(folder).glob('*.parquet')` filtered by `is_file()`: every Parquet file of the
   * folder once, in some order.
   */
  predicate IsListing(folder: Folder, listing: seq<string>) {
    && (forall i :: 0 <= i < |listing| ==> listing[i] in folder && EndsWith(listing[i], ".parquet"))
    && (forall i, j :: 0 <= i < j < |listing| ==> listing[i] != listing[j])
    && (forall name :: name in folder && EndsWith(name, ".parquet") ==> name in listing)
  }

  /** A listed file the loop can read and append: not the open output, readable, same schema. */
  predicate Appendable(folder: Folder, name: string, output: string, schema: seq<string>) {
    name != output && name in folder && folder[name].Readable? && folder[name].table.schema == schema
  }

  /** How many listed files, from the front, the loop appends before one raises. */
  function Lead(folder: Folder, listing: seq<string>, output: string, schema: seq<string>): (k: nat)
    ensures k <= |listing|
    ensures forall i :: 0 <= i < k ==> Appendable(folder, listing[i], output, schema)
    ensures k < |listing| ==> !Appendable(folder, listing[k], output, schema)
    decreases |listing|
  {
    if listing == [] || !Appendable(folder, listing[0], output, schema) then 0
    else 1 + Lead(folder, listing[1..], output, schema)
  }

  /** The rows of a file; the merge only ever reads readable ones. */
  function RowsIn(folder: Folder, name: string): seq<Row> {
    if name in folder && folder[name].Readable? then folder[name].table.rows else []
  }

  /** The rows of the named files, in order. */
  function RowsOf(folder: Folder, names: seq<string>): seq<Row> {
    if names == [] then []
    else RowsOf(folder, names[..|names| - 1]) + RowsIn(folder, names[|names| - 1])
  }

  /** The folder once the first `k` listed files are deleted, if deleting. */
  function Kept(folder: Folder, listing: seq<string>, k: nat, deleteOriginal: bool): Folder
    requires k <= |listing|
  {
    if k == 0 || !deleteOriginal then folder
    else Kept(folder, listing, k - 1, deleteOriginal) - {listing[k - 1]}
  }

  /** A file survives the first `k` deletions exactly when it is not among those `k`, unchanged. */
  lemma {:induction false} KeptHolds(folder: Folder, listing: seq<string>, k: nat, deleteOriginal: bool,
                                     name: string)
    requires k <= |listing|
    ensures name in Kept(folder, listing, k, deleteOriginal) <==>
      name in folder && !(deleteOriginal && name in listing[..k])
    ensures name in Kept(folder, listing, k, deleteOriginal) ==>
      Kept(folder, listing, k, deleteOriginal)[name] == folder[name]
  {
    if k > 0 && deleteOriginal {
      KeptHolds(folder, listing, k - 1, deleteOriginal, name);
      assert listing[..k] == listing[..k - 1] + [listing[k - 1]];
    }
  }

  /** What one more turn of the merge loop changes. */
  lemma KeptStep(folder: Folder, listing: seq<string>, output: string, i: nat, deleteOriginal: bool)
    requires IsListing(folder, listing) && i < |listing| && listing[i] != output
    ensures var files := Kept(folder, listing, i, deleteOriginal)[output := Unreadable];
      listing[i] in files && files[listing[i]] == folder[listing[i]]
    ensures var files := Kept(folder, listing, i, deleteOriginal)[output := Unreadable];
      Kept(folder, listing, i + 1, deleteOriginal)[output := Unreadable]
        == if deleteOriginal then files - {listing[i]} else files
  {
    assert listing[i] !in listing[..i];
    KeptHolds(folder, listing, i, deleteOriginal, listing[i]);
    if deleteOriginal {
      var kept := Kept(folder, listing, i, deleteOriginal);
      assert Kept(folder, listing, i + 1, deleteOriginal)[output := Unreadable]
        == kept[output := Unreadable] - {listing[i]};
    }
  }

  /** The folder after a merge and how the merge ended. */
  function MergeResult(folder: Folder, listing: seq<string>, output: string, deleteOriginal: bool)
    : (Folder, MergeOutcome)
  {
    if listing == [] then (folder, NoFiles)
    else if !(listing[0] in folder && folder[listing[0]].Readable?) then (folder, Raised(ValueError))
    else
      var schema := folder[listing[0]].table.schema;
      var k := Lead(folder, listing, output, schema);
      (Kept(folder, listing, k, deleteOriginal)[output := Readable(Table(schema, RowsOf(folder, listing[..k])))],
       if k == |listing| then Merged(k) else Raised(ValueError))
  }

  /**
   * `concatenate_parquet_files(input_folder, output_file, delete_original)` with the
   * output in the input folder, as the batch runner places it. The writer creates (or
   * truncates) the output before the loop; the loop reads, appends and deletes file after
   * file until one raises; the writer is closed in any case.
   */
  method ConcatenateParquetFiles(folder: Folder, listing: seq<string>, output: string, deleteOriginal: bool)
    returns (after: Folder, outcome: MergeOutcome)
    requires IsListing(folder, listing)
    ensures (after, outcome) == MergeResult(folder, listing, output, deleteOriginal)
  {
    if listing == [] {
      return folder, NoFiles;
    }
    if !(listing[0] in folder && folder[listing[0]].Readable?) {
      return folder, Raised(ValueError);
    }
    var schema := folder[listing[0]].table.schema;
    var files := folder[output := Unreadable];
    var written: seq<Row> := [];
    var raised := false;
    var i := 0;
    while i < |listing| && !raised
      invariant 0 <= i <= |listing|
      decreases |listing| - i, if raised then 0 else 1
      invariant forall j :: 0 <= j < i ==> Appendable(folder, listing[j], output, schema)
      invariant raised ==> i < |listing| && !Appendable(folder, listing[i], output, schema)
      invariant written == RowsOf(folder, listing[..i])
      invariant files == Kept(folder, listing, i, deleteOriginal)[output := Unreadable]
    {
      var name := listing[i];
      if name != output {
        KeptStep(folder, listing, output, i, deleteOriginal);
      }
      if !(name in files && files[name].Readable?) || files[name].table.schema != schema {
        raised := true;
      } else {
        assert listing[..i + 1][..i] == listing[..i];
        written := written + files[name].table.rows;
        if deleteOriginal {
          files := files - {name};
        }
        i := i + 1;
      }
    }
    ghost var kept := Kept(folder, listing, i, deleteOriginal);
    files := files[output := Readable(Table(schema, written))];
    assert files == kept[output := Readable(Table(schema, written))];
    assert i == Lead(folder, listing, output, schema);
    if raised {
      return files, Raised(ValueError);
    }
    return files, Merged(i);
  }

  // ---------------------------------------------------------------------------
  // What a merge promises

  /** With no Parquet file in the folder, nothing is created or deleted. */
  lemma NothingToMerge(folder: Folder, output: string, deleteOriginal: bool)
    ensures MergeResult(folder, [], output, deleteOriginal) == (folder, NoFiles)
  {
  }

  /** The rows of consecutive runs of files are concatenated. */
  lemma {:induction false} RowsOfConcat(folder: Folder, a: seq<string>, b: seq<string>)
    ensures RowsOf(folder, a + b) == RowsOf(folder, a) + RowsOf(folder, b)
    decreases |b|
  {
    if b == [] {
      assert a + b == a;
    } else {
      var b' := b[..|b| - 1];
      assert (a + b)[..|a + b| - 1] == a + b';
      assert (a + b)[|a + b| - 1] == b[|b| - 1];
      RowsOfConcat(folder, a, b');
    }
  }

  /**
   * When every listed file is readable, shares the first file's schema and is not the
   * output: the output holds all their rows in listing order under that schema, and
   * the listed files are all gone when deleting, all untouched otherwise.
   */
  lemma MergeConservesRows(folder: Folder, listing: seq<string>, output: string, deleteOriginal: bool)
    requires IsListing(folder, listing) && listing != []
    requires listing[0] in folder && folder[listing[0]].Readable?
    requires forall i :: 0 <= i < |listing| ==>
      Appendable(folder, listing[i], output, folder[listing[0]].table.schema)
    ensures var (after, outcome) := MergeResult(folder, listing, output, deleteOriginal);
      && outcome == Merged(|listing|)
      && output in after
      && after[output] == Readable(Table(folder[listing[0]].table.schema, RowsOf(folder, listing)))
      && (forall i :: 0 <= i < |listing| ==> (listing[i] in after <==> !deleteOriginal))
      && (forall name :: name in folder && name != output && name !in listing ==>
            name in after && after[name] == folder[name])
  {
    var schema := folder[listing[0]].table.schema;
    var k := Lead(folder, listing, output, schema);
    assert k == |listing|;
    assert listing[..k] == listing;
    forall i | 0 <= i < |listing| ensures listing[i] in listing[..k] {
    }
    forall name ensures name in listing[..k] ==> name in listing {
    }
    forall name {
      KeptHolds(folder, listing, k, deleteOriginal, name);
    }
  }

  /**
   * An exception part-way: the files before the failing one are appended (and deleted
   * when deleting), that one and the rest are left as they were, and the output still
   * holds the rows written before the failure.
   */
  lemma MergeStopsAtFailure(folder: Folder, listing: seq<string>, output: string, deleteOriginal: bool, k: nat)
    requires IsListing(folder, listing)
    requires k < |listing| && listing[0] in folder && folder[listing[0]].Readable?
    requires forall i :: 0 <= i < k ==> Appendable(folder, listing[i], output, folder[listing[0]].table.schema)
    requires !Appendable(folder, listing[k], output, folder[listing[0]].table.schema)
    ensures var (after, outcome) := MergeResult(folder, listing, output, deleteOriginal);
      && outcome == Raised(ValueError)
      && after[output] == Readable(Table(folder[listing[0]].table.schema, RowsOf(folder, listing[..k])))
      && (forall i :: 0 <= i < k ==> (listing[i] in after <==> !deleteOriginal))
      && (forall i :: k <= i < |listing| && listing[i] != output ==> listing[i] in after && after[listing[i]] == folder[listing[i]])
  {
    var schema := folder[listing[0]].table.schema;
    assert Lead(folder, listing, output, schema) == k;
    forall i | 0 <= i < k ensures listing[i] in listing[..k] {
    }
    forall i | k <= i < |listing| ensures listing[i] !in listing[..k] {
    }
    forall name {
      KeptHolds(folder, listing, k, deleteOriginal, name);
    }
  }

  /**
   * Merging again into a folder that still holds an earlier `combined.parquet`: that
   * file is listed too, but by the time the loop reaches it the writer has truncated it,
   * so reading it raises. Its earlier rows are gone from the output, and the files
   * listed after it are not merged.
   */
  lemma RemergeLosesEarlierOutput(folder: Folder, listing: seq<string>, output: string, k: nat)
    requires IsListing(folder, listing)
    requires k < |listing| && listing[k] == output
    requires listing[0] in folder && folder[listing[0]].Readable?
    requires forall i :: 0 <= i < k ==> Appendable(folder, listing[i], output, folder[listing[0]].table.schema)
    ensures var (after, outcome) := MergeResult(folder, listing, output, true);
      && outcome == Raised(ValueError)
      && after[output] == Readable(Table(folder[listing[0]].table.schema, RowsOf(folder, listing[..k])))
      && (forall i :: k < i < |listing| ==> listing[i] in after && after[listing[i]] == folder[listing[i]])
  {
    MergeStopsAtFailure(folder, listing, output, true, k);
  }
}
