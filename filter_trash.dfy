/** The filter of `filter_trashdata.py`: rows of the mapping workbook marked
    "not found in standard" give exclusion keys, and the rows of the model
    and audit tables carrying those keys are moved out of evaluation. */
module FilterTrash {
  import opened Wrappers
  import opened Text
  import opened EcmsEval
  import EvalResults

  /** The mark of a variable the standard ontology does not cover. */
  const NotFoundPhrase: string := "not found in standard"

  /** The column names tried, in this order, for the file of a row. */
  const FileCandidates: seq<string> := ["oem_file", "file", "filename", "oem", "ttl", "source_file"]

  /** The column names tried, in this order, for the variable of a row. */
  const NameCandidates: seq<string> := ["original_name", "oem_variable", "variable", "var", "oem_name", "name"]

  /** The key columns of the model and audit tables. */
  const FileColumn: string := "file"
  const NameColumn: string := "original_name"

  /** A table: its column names and its rows, each a sequence of cells in
      column order. */
  datatype Frame = Frame(columns: seq<string>, rows: seq<seq<Cell>>)

  /** The cell of column `i`; a row shorter than its header reads blank. */
  function CellAt(row: seq<Cell>, i: nat): Cell {
    if i < |row| then row[i] else Blank
  }

  // ---------------------------------------------------------------------------
  // Key normalisation
  // ---------------------------------------------------------------------------

  /** `norm_file`: "" for an empty cell, else stripped and lower-cased, then
      without one trailing ".ttl". */
  function NormFile(c: Cell): (k: string)
    ensures c.Blank? ==> k == ""
    ensures c.Written? && !EndsWith(Lower(Strip(c.text)), ".ttl") ==> k == Lower(Strip(c.text))
    ensures c.Written? && EndsWith(Lower(Strip(c.text)), ".ttl") ==> k + ".ttl" == Lower(Strip(c.text))
  {
    if c.Blank? then "" else DropSuffix(Lower(Strip(c.text)), ".ttl")
  }

  /** `norm_name`: "" for an empty cell, else stripped and lower-cased. */
  function NormName(c: Cell): (k: string)
    ensures c.Blank? ==> k == ""
    ensures c.Written? ==> k == Lower(Strip(c.text))
  {
    if c.Blank? then "" else Lower(Strip(c.text))
  }

  /** Lower-casing works character by character, so it distributes over
      concatenation. */
  lemma LowerConcat(a: string, b: string)
    ensures Lower(a + b) == Lower(a) + Lower(b)
  {
    var l, r := Lower(a + b), Lower(a) + Lower(b);
    forall i | 0 <= i < |l|
      ensures l[i] == r[i]
    {
      if i < |a| {
        assert (a + b)[i] == a[i];
      } else {
        assert (a + b)[i] == b[i - |a|];
      }
    }
  }

  /** Lower-casing comes first here, so ".TTL" is dropped as well; the key
      of `eval_results.py` keeps it. */
  lemma UpperTtlDropped(s: string)
    requires EvalResults.Trimmed(s)
    ensures NormFile(Written(s + ".TTL")) == Lower(s)
  {
    EvalResults.StripKeepsSuffixed(s, ".TTL");
    LowerConcat(s, ".TTL");
    assert Lower(".TTL") == ".ttl";
    var l := Lower(s) + ".ttl";
    assert l[|l| - 4..] == ".ttl";
    assert l[..|l| - 4] == Lower(s);
  }

  // ---------------------------------------------------------------------------
  // Finding columns
  // ---------------------------------------------------------------------------

  /** The position of the last occurrence of `key`. */
  function LastIndexOf(keys: seq<string>, key: string): (r: Option<nat>)
    ensures r.None? <==> key !in keys
    ensures r.Some? ==> r.value < |keys| && keys[r.value] == key
    ensures r.Some? ==> forall j :: r.value < j < |keys| ==> keys[j] != key
  {
    if keys == [] then None
    else if keys[|keys| - 1] == key then Some(|keys| - 1)
    else LastIndexOf(keys[..|keys| - 1], key)
  }

  /** The column names lower-cased, position by position. */
  function LowerAll(columns: seq<string>): (r: seq<string>)
    ensures |r| == |columns|
    ensures forall i :: 0 <= i < |columns| ==> r[i] == Lower(columns[i])
  {
    seq(|columns|, i requires 0 <= i < |columns| => Lower(columns[i]))
  }

  /** `find_col`: the column of the first candidate whose lower-cased name
      is among the lower-cased column names; of several columns with that
      name, the last (the dictionary keeps the later one). */
  function FindCol(columns: seq<string>, candidates: seq<string>): (r: Option<nat>)
    ensures r.None? <==> forall k :: 0 <= k < |candidates| ==> Lower(candidates[k]) !in LowerAll(columns)
    ensures r.Some? ==> r.value < |columns|
  {
    if candidates == [] then None
    else
      var hit := LastIndexOf(LowerAll(columns), Lower(candidates[0]));
      if hit.Some? then hit
      else
        assert forall k :: 0 <= k < |candidates| - 1 ==> candidates[1..][k] == candidates[k + 1];
        FindCol(columns, candidates[1..])
  }

  /** `c in df.columns` and `df[c]`: the exact column name, distinct names
      assumed. */
  function ColumnIndex(columns: seq<string>, name: string): (r: Option<nat>)
    ensures r.None? <==> name !in columns
    ensures r.Some? ==> r.value < |columns| && columns[r.value] == name
  {
    LastIndexOf(columns, name)
  }

  /** The first candidate present, in candidate order, picks the column,
      whatever the later candidates. */
  lemma {:induction false} FirstCandidateWins(columns: seq<string>, candidates: seq<string>, k: nat)
    requires k < |candidates| && Lower(candidates[k]) in LowerAll(columns)
    requires forall j :: 0 <= j < k ==> Lower(candidates[j]) !in LowerAll(columns)
    ensures FindCol(columns, candidates) == LastIndexOf(LowerAll(columns), Lower(candidates[k]))
  {
    if k > 0 {
      var rest := candidates[1..];
      assert rest[k - 1] == candidates[k];
      assert forall j :: 0 <= j < k - 1 ==> rest[j] == candidates[j + 1];
      FirstCandidateWins(columns, rest, k - 1);
    }
  }

  // ---------------------------------------------------------------------------
  // Flagged rows
  // ---------------------------------------------------------------------------

  /** `row_contains_not_found`: some non-empty cell holds the phrase, in any
      case. */
  function RowContainsNotFound(row: seq<Cell>): (b: bool)
    ensures b <==> exists i :: 0 <= i < |row| && row[i].Written? && Contains(Lower(row[i].text), NotFoundPhrase)
  {
    if row == [] then false
    else if row[0].Written? && Contains(Lower(row[0].text), NotFoundPhrase) then true
    else
      assert forall i :: 1 <= i < |row| ==> row[1..][i - 1] == row[i];
      RowContainsNotFound(row[1..])
  }

  /** `df[df.apply(row_contains_not_found, axis=1)]`: the flagged rows, in
      order. */
  function Flagged(rows: seq<seq<Cell>>): (nf: seq<seq<Cell>>)
    ensures |nf| <= |rows|
    ensures forall r :: r in nf <==> r in rows && RowContainsNotFound(r)
  {
    if rows == [] then []
    else
      var init := Flagged(rows[..|rows| - 1]);
      var last := rows[|rows| - 1];
      assert rows == rows[..|rows| - 1] + [last];
      if RowContainsNotFound(last) then init + [last] else init
  }

  /** `df.empty`: no column or no row. */
  predicate EmptyFrame(f: Frame) {
    |f.columns| == 0 || |f.rows| == 0
  }

  // ---------------------------------------------------------------------------
  // Exclusion keys
  // ---------------------------------------------------------------------------

  /** What a flagged row contributes: a (file, variable) pair, a variable
      alone, or nothing. */
  datatype Key = PairKey(file: string, name: string) | NameOnly(name: string) | NoKey

  /** The key of a flagged row: a pair when the sheet has a file column and
      both normalised keys are non-empty, else the variable alone when it is
      non-empty. */
  function RowKey(row: seq<Cell>, fileCol: Option<nat>, nameCol: nat): (k: Key)
    ensures k.PairKey? ==> fileCol.Some? && k.file != "" && k.name != ""
    ensures k.PairKey? ==> k.file == NormFile(CellAt(row, fileCol.value)) && k.name == NormName(CellAt(row, nameCol))
    ensures k.NameOnly? ==> k.name != "" && k.name == NormName(CellAt(row, nameCol))
    ensures k.NameOnly? && fileCol.Some? ==> NormFile(CellAt(row, fileCol.value)) == ""
    ensures k.NoKey? <==> NormName(CellAt(row, nameCol)) == ""
  {
    var n := NormName(CellAt(row, nameCol));
    if fileCol.Some? && NormFile(CellAt(row, fileCol.value)) != "" && n != "" then
      PairKey(NormFile(CellAt(row, fileCol.value)), n)
    else if n != "" then NameOnly(n)
    else NoKey
  }

  /** The exclusion keys gathered so far, and the count of flagged rows. */
  datatype Exclusions = Exclusions(pairs: set<(string, string)>, names: set<string>, flaggedRows: nat)

  const NoExclusions: Exclusions := Exclusions({}, {}, 0)

  /** Every key gathered has non-empty parts. */
  predicate KeysNonEmpty(ex: Exclusions) {
    (forall p :: p in ex.pairs ==> p.0 != "" && p.1 != "") && "" !in ex.names
  }

  /** The keys of some flagged rows, row by row. */
  function RowKeys(rows: seq<seq<Cell>>, fileCol: Option<nat>, nameCol: nat): (ks: seq<Key>)
    ensures |ks| == |rows|
    ensures forall i :: 0 <= i < |rows| ==> ks[i] == RowKey(rows[i], fileCol, nameCol)
  {
    seq(|rows|, i requires 0 <= i < |rows| => RowKey(rows[i], fileCol, nameCol))
  }

  /** The pair keys and the variable keys among `ks`, as two sets. */
  function KeySets(ks: seq<Key>): (set<(string, string)>, set<string>) {
    if ks == [] then ({}, {})
    else AddKey(KeySets(ks[..|ks| - 1]), ks[|ks| - 1])
  }

  /** The pair keys and the variable keys are exactly those among `ks`. */
  lemma {:induction false} KeySetsMembers(ks: seq<Key>)
    ensures forall p :: p in KeySets(ks).0 <==> PairKey(p.0, p.1) in ks
    ensures forall n :: n in KeySets(ks).1 <==> NameOnly(n) in ks
  {
    if ks != [] {
      var init := ks[..|ks| - 1];
      assert ks == init + [ks[|ks| - 1]];
      KeySetsMembers(init);
    }
  }

  /** One key added to the set of its kind. */
  function AddKey(sets: (set<(string, string)>, set<string>), k: Key): (set<(string, string)>, set<string>) {
    match k
    case PairKey(f, n) => (sets.0 + {(f, n)}, sets.1)
    case NameOnly(n) => (sets.0, sets.1 + {n})
    case NoKey => sets
  }

  /** A prefix one element longer. */
  lemma TakeOneMore<T>(s: seq<T>, i: nat)
    requires i < |s|
    ensures s[..i + 1] == s[..i] + [s[i]]
  {
  }

  /** One more key adds itself to the set of its kind. */
  lemma KeySetsSnoc(ks: seq<Key>, k: Key)
    ensures KeySets(ks + [k]) == AddKey(KeySets(ks), k)
  {
    assert (ks + [k])[..|ks|] == ks;
  }

  /** The pair keys and variable keys of some flagged rows. */
  function KeysOf(rows: seq<seq<Cell>>, fileCol: Option<nat>, nameCol: nat): (r: (set<(string, string)>, set<string>))
    ensures forall p :: p in r.0 <==> exists i :: 0 <= i < |rows| && RowKey(rows[i], fileCol, nameCol) == PairKey(p.0, p.1)
    ensures forall n :: n in r.1 <==> exists i :: 0 <= i < |rows| && RowKey(rows[i], fileCol, nameCol) == NameOnly(n)
  {
    KeySetsMembers(RowKeys(rows, fileCol, nameCol));
    KeySets(RowKeys(rows, fileCol, nameCol))
  }

  /** `k` is the key of a flagged row of a non-empty sheet with a variable
      column. */
  predicate SheetKey(f: Frame, k: Key) {
    && !EmptyFrame(f)
    && FindCol(f.columns, NameCandidates).Some?
    && exists i ::
      && 0 <= i < |Flagged(f.rows)|
      && RowKey(Flagged(f.rows)[i], FindCol(f.columns, FileCandidates), FindCol(f.columns, NameCandidates).value) == k
  }

  /** What one sheet adds: nothing for an empty sheet or one without a
      flagged row; the flagged rows are counted before the variable column
      is looked for, and a sheet without one adds no key. */
  function SheetExclusions(ex: Exclusions, f: Frame): (r: Exclusions)
    ensures EmptyFrame(f) || Flagged(f.rows) == [] ==> r == ex
    ensures !EmptyFrame(f) ==> r.flaggedRows == ex.flaggedRows + |Flagged(f.rows)|
    ensures FindCol(f.columns, NameCandidates).None? ==> r.pairs == ex.pairs && r.names == ex.names
    ensures KeysNonEmpty(ex) ==> KeysNonEmpty(r)
  {
    var nf := Flagged(f.rows);
    if EmptyFrame(f) || nf == [] then ex
    else
      var counted := ex.(flaggedRows := ex.flaggedRows + |nf|);
      var nameCol := FindCol(f.columns, NameCandidates);
      if nameCol.None? then counted
      else
        var keys := KeysOf(nf, FindCol(f.columns, FileCandidates), nameCol.value);
        counted.(pairs := ex.pairs + keys.0, names := ex.names + keys.1)
  }

  /** The keys of all sheets, in workbook order. */
  function ExclusionsOf(sheets: seq<Frame>): (r: Exclusions)
    ensures KeysNonEmpty(r)
  {
    if sheets == [] then NoExclusions
    else SheetExclusions(ExclusionsOf(sheets[..|sheets| - 1]), sheets[|sheets| - 1])
  }

  /** The rows counted are the flagged rows of the non-empty sheets. */
  lemma {:induction false} FlaggedRowsCounted(sheets: seq<Frame>)
    ensures ExclusionsOf(sheets).flaggedRows == TotalFlagged(sheets)
  {
    if sheets != [] {
      FlaggedRowsCounted(sheets[..|sheets| - 1]);
    }
  }

  /** The flagged rows of the non-empty sheets. */
  function TotalFlagged(sheets: seq<Frame>): nat {
    if sheets == [] then 0
    else
      var last := sheets[|sheets| - 1];
      TotalFlagged(sheets[..|sheets| - 1]) + (if EmptyFrame(last) then 0 else |Flagged(last.rows)|)
  }

  /** The sheet loop: for each sheet, its flagged rows are counted and their
      keys added to the two sets. */
  method CollectExclusions(sheets: seq<Frame>) returns (pairs: set<(string, string)>, names: set<string>, total: nat)
    ensures Exclusions(pairs, names, total) == ExclusionsOf(sheets)
  {
    pairs, names, total := {}, {}, 0;
    for s := 0 to |sheets|
      invariant Exclusions(pairs, names, total) == ExclusionsOf(sheets[..s])
    {
      assert sheets[..s + 1][..s] == sheets[..s];
      var df := sheets[s];
      var nf := Flagged(df.rows);
      if EmptyFrame(df) || nf == [] {
        continue;
      }
      total := total + |nf|;
      var nameCol := FindCol(df.columns, NameCandidates);
      if nameCol.None? {
        continue;
      }
      var fileCol := FindCol(df.columns, FileCandidates);
      pairs, names := AddRowKeys(pairs, names, nf, fileCol, nameCol.value);
    }
    assert sheets[..|sheets|] == sheets;
  }

  /** The row loop of one sheet. */
  method AddRowKeys(pairs0: set<(string, string)>, names0: set<string>, nf: seq<seq<Cell>>, fileCol: Option<nat>, nameCol: nat)
    returns (pairs: set<(string, string)>, names: set<string>)
    ensures pairs == pairs0 + KeysOf(nf, fileCol, nameCol).0
    ensures names == names0 + KeysOf(nf, fileCol, nameCol).1
  {
    pairs, names := pairs0, names0;
    ghost var ks := RowKeys(nf, fileCol, nameCol);
    for i := 0 to |nf|
      invariant pairs == pairs0 + KeySets(ks[..i]).0
      invariant names == names0 + KeySets(ks[..i]).1
    {
      TakeOneMore(ks, i);
      KeySetsSnoc(ks[..i], ks[i]);
      pairs, names := AddRowKey(pairs, names, nf[i], fileCol, nameCol);
    }
    assert RowKeys(nf, fileCol, nameCol)[..|nf|] == RowKeys(nf, fileCol, nameCol);
  }

  /** The body of the row loop: a pair when both keys are written, else the
      variable alone when it is written. */
  method AddRowKey(pairs0: set<(string, string)>, names0: set<string>, row: seq<Cell>, fileCol: Option<nat>, nameCol: nat)
    returns (pairs: set<(string, string)>, names: set<string>)
    ensures (pairs, names) == AddKey((pairs0, names0), RowKey(row, fileCol, nameCol))
  {
    pairs, names := pairs0, names0;
    var n := NormName(CellAt(row, nameCol));
    if fileCol.Some? {
      var f := NormFile(CellAt(row, fileCol.value));
      if f != "" && n != "" {
        pairs := pairs + {(f, n)};
      } else if n != "" {
        names := names + {n};
      }
    } else if n != "" {
      names := names + {n};
    }
  }

  // ---------------------------------------------------------------------------
  // Applying the exclusion
  // ---------------------------------------------------------------------------

  /** The `file_norm` of a row: "" for every row when the table has no
      "file" column. */
  function FileKeyOf(columns: seq<string>, row: seq<Cell>): string {
    var i := ColumnIndex(columns, FileColumn);
    if i.Some? then NormFile(CellAt(row, i.value)) else ""
  }

  /** The `original_name_norm` of a row, likewise. */
  function NameKeyOf(columns: seq<string>, row: seq<Cell>): string {
    var i := ColumnIndex(columns, NameColumn);
    if i.Some? then NormName(CellAt(row, i.value)) else ""
  }

  /** `should_exclude`: the row's (file, variable) pair is a pair key, or its
      variable is a variable key. */
  predicate ShouldExclude(ex: Exclusions, columns: seq<string>, row: seq<Cell>) {
    (FileKeyOf(columns, row), NameKeyOf(columns, row)) in ex.pairs || NameKeyOf(columns, row) in ex.names
  }

  /** The rows whose exclusion test gives `excluded`, in table order: the
      boolean indexing `df[mask]` (`excluded`) or `df[~mask]` (not). */
  function Filtered(ex: Exclusions, columns: seq<string>, rows: seq<seq<Cell>>, excluded: bool): (r: seq<seq<Cell>>)
    ensures |r| <= |rows|
  {
    if rows == [] then []
    else
      var rest := Filtered(ex, columns, rows[1..], excluded);
      if ShouldExclude(ex, columns, rows[0]) == excluded then [rows[0]] + rest else rest
  }

  /** Filtering one more row at the end adds it at the end or not at all. */
  lemma {:induction false} FilteredSnoc(ex: Exclusions, columns: seq<string>, rows: seq<seq<Cell>>, row: seq<Cell>, excluded: bool)
    ensures Filtered(ex, columns, rows + [row], excluded) ==
      Filtered(ex, columns, rows, excluded) + (if ShouldExclude(ex, columns, row) == excluded then [row] else [])
    decreases |rows|
  {
    if rows != [] {
      assert (rows + [row])[1..] == rows[1..] + [row];
      FilteredSnoc(ex, columns, rows[1..], row, excluded);
    } else {
      assert Filtered(ex, columns, [], excluded) == [];
      assert ([] + [row])[1..] == [];
    }
  }

  /** `df[~mask]` and `df[mask]`: the kept rows and the excluded rows, each
      in table order, together the whole table. */
  function Split(ex: Exclusions, f: Frame): (r: (seq<seq<Cell>>, seq<seq<Cell>>))
    ensures r.0 == Filtered(ex, f.columns, f.rows, false) && r.1 == Filtered(ex, f.columns, f.rows, true)
    ensures |r.0| + |r.1| == |f.rows|
    ensures multiset(r.0) + multiset(r.1) == multiset(f.rows)
    ensures forall row :: row in r.0 ==> row in f.rows && !ShouldExclude(ex, f.columns, row)
    ensures forall row :: row in r.1 ==> row in f.rows && ShouldExclude(ex, f.columns, row)
    decreases |f.rows|
  {
    if f.rows == [] then ([], [])
    else
      var init := f.rows[..|f.rows| - 1];
      var last := f.rows[|f.rows| - 1];
      assert f.rows == init + [last];
      var (kept, excluded) := Split(ex, Frame(f.columns, init));
      FilteredSnoc(ex, f.columns, init, last, false);
      FilteredSnoc(ex, f.columns, init, last, true);
      if ShouldExclude(ex, f.columns, last) then (kept, excluded + [last]) else (kept + [last], excluded)
  }

  /** A row whose variable is blank is never excluded: every key names a
      variable. */
  lemma NamelessRowKept(sheets: seq<Frame>, columns: seq<string>, row: seq<Cell>)
    requires NameKeyOf(columns, row) == ""
    ensures !ShouldExclude(ExclusionsOf(sheets), columns, row)
  {
  }

  /** A table without a "file" column is filtered by variable alone: no pair
      key has an empty file. */
  lemma NoFileColumnByName(sheets: seq<Frame>, columns: seq<string>, row: seq<Cell>)
    requires FileColumn !in columns
    ensures ShouldExclude(ExclusionsOf(sheets), columns, row) <==> NameKeyOf(columns, row) in ExclusionsOf(sheets).names
  {
  }

  /** `k` is among the keys of `ex`. */
  predicate HasKey(ex: Exclusions, k: Key) {
    match k
    case PairKey(f, n) => (f, n) in ex.pairs
    case NameOnly(n) => n in ex.names
    case NoKey => false
  }

  /** After a sheet, the keys are those gathered before it and those of its
      own flagged rows, and no other. */
  lemma SheetMembers(ex: Exclusions, f: Frame)
    ensures forall p :: p in SheetExclusions(ex, f).pairs <==> p in ex.pairs || SheetKey(f, PairKey(p.0, p.1))
    ensures forall n :: n in SheetExclusions(ex, f).names <==> n in ex.names || SheetKey(f, NameOnly(n))
  {
  }

  /** A sheet keeps the keys gathered before it and adds those of its own
      flagged rows. */
  lemma SheetHasKey(ex: Exclusions, f: Frame, k: Key)
    requires HasKey(ex, k) || (SheetKey(f, k) && !k.NoKey?)
    ensures HasKey(SheetExclusions(ex, f), k)
  {
    SheetMembers(ex, f);
    if k.PairKey? {
      var p := (k.file, k.name);
      assert PairKey(p.0, p.1) == k;
    }
  }

  /** A key of a flagged row of any sheet is kept, whatever the sheets
      after it. */
  lemma {:induction false} KeyKept(sheets: seq<Frame>, s: nat, k: Key)
    requires s < |sheets| && SheetKey(sheets[s], k) && !k.NoKey?
    ensures HasKey(ExclusionsOf(sheets), k)
  {
    var init, last := sheets[..|sheets| - 1], sheets[|sheets| - 1];
    var before := ExclusionsOf(init);
    assert ExclusionsOf(sheets) == SheetExclusions(before, last);
    if s < |sheets| - 1 {
      assert init[s] == sheets[s];
      KeyKept(init, s, k);
      SheetHasKey(before, last, k);
    } else {
      assert last == sheets[s];
      SheetHasKey(before, last, k);
    }
  }

  /** Every key gathered is the key of a flagged row of some sheet. */
  lemma {:induction false} KeyOrigin(sheets: seq<Frame>)
    ensures forall p :: p in ExclusionsOf(sheets).pairs ==> exists s :: 0 <= s < |sheets| && SheetKey(sheets[s], PairKey(p.0, p.1))
    ensures forall n :: n in ExclusionsOf(sheets).names ==> exists s :: 0 <= s < |sheets| && SheetKey(sheets[s], NameOnly(n))
  {
    if sheets != [] {
      var init := sheets[..|sheets| - 1];
      KeyOrigin(init);
      SheetMembers(ExclusionsOf(init), sheets[|sheets| - 1]);
      assert forall s :: 0 <= s < |init| ==> init[s] == sheets[s];
    }
  }

  /** A table row whose variable is the variable-only key of a flagged row
      is excluded. */
  lemma FlaggedNameExcludes(sheets: seq<Frame>, s: nat, columns: seq<string>, row: seq<Cell>)
    requires s < |sheets| && SheetKey(sheets[s], NameOnly(NameKeyOf(columns, row)))
    ensures ShouldExclude(ExclusionsOf(sheets), columns, row)
  {
    KeyKept(sheets, s, NameOnly(NameKeyOf(columns, row)));
  }

  /** A table row whose (file, variable) is the pair key of a flagged row is
      excluded. */
  lemma FlaggedPairExcludes(sheets: seq<Frame>, s: nat, columns: seq<string>, row: seq<Cell>)
    requires s < |sheets| && SheetKey(sheets[s], PairKey(FileKeyOf(columns, row), NameKeyOf(columns, row)))
    ensures ShouldExclude(ExclusionsOf(sheets), columns, row)
  {
    KeyKept(sheets, s, PairKey(FileKeyOf(columns, row), NameKeyOf(columns, row)));
  }
}
