/** The web version of the plotter (streamlit_version.py): a manifest lists the
    datasets with their organism and organ; the user narrows it down, picks a dataset
    and types a gene; the page keeps a small session record between reruns and shows
    the expression row of the gene, or a warning. Tables are modelled as column names
    plus rows of cells, the cells kept as text. */
module Web {
  import opened Base
  import opened Text

  /** A table as `pd.read_csv` produces it. */
  datatype Table = Table(columns: seq<string>, rows: seq<seq<string>>)

  /** What `read_csv` guarantees: distinct column names (duplicates get renamed) and
      one cell per column in every row. */
  predicate WellFormed(t: Table) {
    && (forall i, j :: 0 <= i < j < |t.columns| ==> t.columns[i] != t.columns[j])
    && (forall r :: r in t.rows ==> |r| == |t.columns|)
  }

  /** A loaded dataset: a well-formed table with a `gene` column. */
  predicate IsDataset(t: Table) {
    WellFormed(t) && "gene" in t.columns
  }

  /** One manifest line, every field as text. */
  datatype ManifestRow = ManifestRow(file: string, organism: string, organ: string, datasetName: string, paperUrl: string)

  datatype LoadError =
    | MissingColumns(missing: set<string>)   // manifest.csv missing columns: {...}
    | MissingGeneColumn                      // <file> must have a 'gene' column.

  const ManifestColumns: seq<string> := ["file", "organism", "organ", "dataset_name", "paper_url"]

  /** The cell of row `r` under column `name`. */
  function Cell(t: Table, r: nat, name: string): string
    requires WellFormed(t) && r < |t.rows| && name in t.columns
  {
    t.rows[r][IndexOf(t.columns, name)]
  }

  /** `required - set(df.columns)`: the manifest columns the table lacks. */
  function MissingManifestColumns(t: Table): (missing: set<string>)
    ensures forall c :: c in missing <==> c in ManifestColumns && c !in t.columns
  {
    set c | c in ManifestColumns && c !in t.columns
  }

  /** `load_manifest` after `read_csv`: fails, naming them, when any of the five
      manifest columns is missing; otherwise one manifest row per table row. */
  function LoadManifest(t: Table): (r: Result<seq<ManifestRow>, LoadError>)
    requires WellFormed(t)
    ensures r.Failure? <==> exists c :: c in ManifestColumns && c !in t.columns
    ensures r.Failure? ==> r.error == MissingColumns(MissingManifestColumns(t))
    ensures r.Success? ==> |r.value| == |t.rows|
    ensures r.Success? ==> forall i :: 0 <= i < |t.rows| ==> r.value[i] == ManifestRowAt(t, i)
  {
    var missing := MissingManifestColumns(t);
    if missing != {} then
      Failure(MissingColumns(missing))
    else
      Success(seq(|t.rows|, i requires 0 <= i < |t.rows| => ManifestRowAt(t, i)))
  }

  /** The manifest fields of table row `i`, each read from its own column. */
  function ManifestRowAt(t: Table, i: nat): (row: ManifestRow)
    requires WellFormed(t) && i < |t.rows|
    requires forall c :: c in ManifestColumns ==> c in t.columns
  {
    assert ManifestColumns[0] == "file" && ManifestColumns[1] == "organism";
    assert ManifestColumns[2] == "organ" && ManifestColumns[3] == "dataset_name";
    assert ManifestColumns[4] == "paper_url";
    ManifestRow(Cell(t, i, "file"), Cell(t, i, "organism"), Cell(t, i, "organ"),
                Cell(t, i, "dataset_name"), Cell(t, i, "paper_url"))
  }

  /** `load_dataset_csv` after `read_csv`: fails exactly when there is no `gene`
      column, and otherwise returns the table as read. */
  function LoadDatasetCsv(t: Table): (r: Result<Table, LoadError>)
    requires WellFormed(t)
    ensures r.Failure? <==> "gene" !in t.columns
    ensures r.Failure? ==> r.error == MissingGeneColumn
    ensures r.Success? ==> r.value == t && IsDataset(r.value)
  {
    if "gene" !in t.columns then Failure(MissingGeneColumn) else Success(t)
  }

  /** Python truthiness of an optional string: neither `None` nor empty. */
  predicate Given(s: Option<string>) {
    s.Some? && s.value != ""
  }

  /** The condition `filter_manifest` keeps a row by. */
  predicate ManifestMatches(row: ManifestRow, organism: Option<string>, organ: Option<string>) {
    (Given(organism) ==> row.organism == organism.value) && (Given(organ) ==> row.organ == organ.value)
  }

  /** `filter_manifest`: keep the rows of the given organism, then those of the given
      organ; an absent or empty filter keeps everything. */
  function FilterManifest(mf: seq<ManifestRow>, organism: Option<string>, organ: Option<string>): (out: seq<ManifestRow>)
    ensures IsSubsequence(out, mf)
    ensures forall row :: row in out <==> row in mf && ManifestMatches(row, organism, organ)
    ensures forall row :: multiset(out)[row] == if ManifestMatches(row, organism, organ) then multiset(mf)[row] else 0
    ensures !Given(organism) && !Given(organ) ==> out == mf
  {
    var byOrganism :=
      if Given(organism) then
        var keep := (row: ManifestRow) => row.organism == organism.value;
        FilterCounts(mf, keep);
        Filter(mf, keep)
      else mf;
    var byOrgan :=
      if Given(organ) then
        var keep := (row: ManifestRow) => row.organ == organ.value;
        FilterCounts(byOrganism, keep);
        Filter(byOrganism, keep)
      else byOrganism;
    SubsequenceReflexive(mf);
    SubsequenceReflexive(byOrganism);
    SubsequenceTransitive(byOrgan, byOrganism, mf);
    byOrgan
  }

  /** Filtering the manifest a second time with the same choices changes nothing. */
  lemma FilterManifestIdempotent(mf: seq<ManifestRow>, organism: Option<string>, organ: Option<string>)
    ensures FilterManifest(FilterManifest(mf, organism, organ), organism, organ) == FilterManifest(mf, organism, organ)
  {
    var once := FilterManifest(mf, organism, organ);
    if Given(organism) {
      FilterKeepsAll(once, (row: ManifestRow) => row.organism == organism.value);
    }
    if Given(organ) {
      FilterKeepsAll(once, (row: ManifestRow) => row.organ == organ.value);
    }
  }

  /** `build_expr_df`: the row without its gene, as (column, value) pairs in column
      order, the columns later named `celltype` and `expression`. */
  function BuildExprDf(t: Table, r: nat): (out: seq<(string, string)>)
    requires IsDataset(t) && r < |t.rows|
    ensures |out| == |t.columns| - 1
    ensures IsSubsequence(out, Labelled(t, r))
  {
    var pairs := Labelled(t, r);
    var k := IndexOf(t.columns, "gene");
    assert forall i :: 0 <= i < |pairs| && i != k ==> NotGene(pairs[i]);
    FilterDropsOne(pairs, NotGene, k);
    Filter(pairs, NotGene)
  }

  /** The expression table holds exactly the (column, value) pairs of the row's
      non-gene columns. */
  lemma ExprDfEntries(t: Table, r: nat)
    requires IsDataset(t) && r < |t.rows|
    ensures forall p :: p in BuildExprDf(t, r) <==>
      exists i :: IsExprEntry(t, r, i) && p == (t.columns[i], t.rows[r][i])
  {
    var pairs := Labelled(t, r);
    var out := BuildExprDf(t, r);
    assert out == Filter(pairs, NotGene);
    forall p | p in out
      ensures exists i :: IsExprEntry(t, r, i) && p == (t.columns[i], t.rows[r][i])
    {
      var i :| 0 <= i < |pairs| && pairs[i] == p;
      assert IsExprEntry(t, r, i);
    }
    forall i | IsExprEntry(t, r, i)
      ensures (t.columns[i], t.rows[r][i]) in out
    {
      assert pairs[i] == (t.columns[i], t.rows[r][i]);
    }
  }

  /** Column `i` of row `r` is an expression value: any column but `gene`. */
  predicate IsExprEntry(t: Table, r: nat, i: int)
    requires WellFormed(t) && r < |t.rows|
  {
    0 <= i < |t.columns| && t.columns[i] != "gene"
  }

  /** The cells of row `r` with their column names. */
  function Labelled(t: Table, r: nat): (pairs: seq<(string, string)>)
    requires WellFormed(t) && r < |t.rows|
    ensures |pairs| == |t.columns|
    ensures forall i :: 0 <= i < |t.columns| ==> pairs[i] == (t.columns[i], t.rows[r][i])
  {
    seq(|t.columns|, i requires 0 <= i < |t.columns| => (t.columns[i], t.rows[r][i]))
  }

  predicate NotGene(p: (string, string)) { p.0 != "gene" }

  /** The gene of row `r`. */
  function GeneOf(t: Table, r: nat): string
    requires IsDataset(t) && r < |t.rows|
  {
    Cell(t, r, "gene")
  }

  /** `df["gene"].str.upper() == g.upper()` at row `r`. */
  predicate GeneMatches(t: Table, r: nat, g: string)
    requires IsDataset(t) && r < |t.rows|
  {
    Upper(GeneOf(t, r)) == Upper(g)
  }

  /** The first row, from `from` on, whose gene equals `g` ignoring case. */
  function FirstMatchFrom(t: Table, g: string, from: nat): (m: Option<nat>)
    requires IsDataset(t) && from <= |t.rows|
    ensures m.None? <==> forall i :: from <= i < |t.rows| ==> !GeneMatches(t, i, g)
    ensures m.Some? ==> from <= m.value < |t.rows| && GeneMatches(t, m.value, g)
    ensures m.Some? ==> forall i :: from <= i < m.value ==> !GeneMatches(t, i, g)
    decreases |t.rows| - from
  {
    if from == |t.rows| then None
    else if GeneMatches(t, from, g) then Some(from)
    else FirstMatchFrom(t, g, from + 1)
  }

  /** `match.iloc[0]` of the case-insensitive gene match: the first matching row. */
  function FirstMatch(t: Table, g: string): (m: Option<nat>)
    requires IsDataset(t)
    ensures m.None? <==> forall i :: 0 <= i < |t.rows| ==> !GeneMatches(t, i, g)
    ensures m.Some? ==> m.value < |t.rows| && GeneMatches(t, m.value, g)
    ensures m.Some? ==> forall i :: 0 <= i < m.value ==> !GeneMatches(t, i, g)
  {
    FirstMatchFrom(t, g, 0)
  }

  /** The dataset picker's default: the position of the dataset chosen before if it
      is still offered, else 0. */
  function DefaultIndex(options: seq<string>, previous: Option<string>): (k: nat)
    ensures previous.Some? && previous.value in options ==>
      k < |options| && options[k] == previous.value && forall j :: 0 <= j < k ==> options[j] != previous.value
    ensures !(previous.Some? && previous.value in options) ==> k == 0
  {
    if previous.Some? && previous.value in options then IndexOf(options, previous.value) else 0
  }

  /** The selected manifest row: `None` when nothing is left after filtering,
      otherwise the first row with the selected dataset name. */
  function SelectedRow(rows: seq<ManifestRow>, selected: string): (r: Option<ManifestRow>)
    requires rows != [] ==> exists row :: row in rows && row.datasetName == selected
    ensures r.None? <==> rows == []
    ensures r.Some? ==> r.value in rows && r.value.datasetName == selected
    ensures r.Some? ==>
      exists k :: 0 <= k < |rows| && rows[k] == r.value && forall j :: 0 <= j < k ==> rows[j].datasetName != selected
  {
    if rows == [] then None
    else
      var names := seq(|rows|, i requires 0 <= i < |rows| => rows[i].datasetName);
      assert selected in names by {
        var row :| row in rows && row.datasetName == selected;
        var i :| 0 <= i < |rows| && rows[i] == row;
        assert names[i] == selected;
      }
      var k := IndexOf(names, selected);
      assert forall j :: 0 <= j < k ==> rows[j].datasetName != selected by {
        assert forall j :: 0 <= j < k ==> names[j] == rows[j].datasetName;
      }
      Some(rows[k])
  }

  /** How Python prints an optional string inside an f-string. */
  function Show(s: Option<string>): string {
    if s.Some? then s.value else "None"
  }

  /** The keys of `st.session_state` the page uses; an absent key and a `None` value
      read the same through `.get`. */
  class Session {
    var datasetName: Option<string>
    var currentGene: Option<string>
    var barExprDf: Option<seq<(string, string)>>
    var barWarning: Option<string>

    /** A figure and a warning are never both pending. */
    ghost predicate Valid()
      reads this
    {
      !(barExprDf.Some? && barWarning.Some?)
    }

    /** A fresh browser session. */
    constructor ()
      ensures Valid()
      ensures datasetName == None && currentGene == None && barExprDf == None && barWarning == None
    {
      datasetName, currentGene, barExprDf, barWarning := None, None, None, None;
    }

    /** Reacting to a new dataset choice (lines 115-131): remember it and redo the
        bar data of the current gene from the new dataset, or warn that the gene is
        not there; with no gene (or no dataset) clear both. A choice equal to the
        remembered one changes nothing. */
    method OnDatasetChange(selected: Option<string>, df: Option<Table>)
      requires Valid()
      requires df.Some? ==> IsDataset(df.value)
      modifies this`datasetName, this`barExprDf, this`barWarning
      ensures Valid()
      ensures selected == old(datasetName) ==> unchanged(this)
      ensures selected != old(datasetName) ==> datasetName == selected
      ensures selected != old(datasetName) ==>
        var g := Strip(if currentGene.Some? then currentGene.value else "");
        if df.Some? && g != "" then
          match FirstMatch(df.value, g)
          case None => barExprDf == None && barWarning == Some("'" + g + "' not found in " + Show(selected) + ".")
          case Some(i) => barExprDf == Some(BuildExprDf(df.value, i)) && barWarning == None
        else barExprDf == None && barWarning == None
    {
      if selected == datasetName {
        return;
      }
      datasetName := selected;
      var g := Strip(if currentGene.Some? then currentGene.value else "");
      if df.Some? && g != "" {
        var m := FirstMatch(df.value, g);
        if m.None? {
          barExprDf := None;
          barWarning := Some("'" + g + "' not found in " + Show(selected) + ".");
        } else {
          barExprDf := Some(BuildExprDf(df.value, m.value));
          barWarning := None;
        }
      } else {
        barExprDf := None;
        barWarning := None;
      }
    }

    /** Pressing Show (lines 134-143): the stripped input becomes the current gene;
        the first row matching it ignoring case gives the bar data, or the warning
        "No data for gene: ..." when none does. Nothing happens without a dataset. */
    method OnSubmit(submitted: bool, geneInput: string, df: Option<Table>)
      requires Valid()
      requires df.Some? ==> IsDataset(df.value)
      modifies this`currentGene, this`barExprDf, this`barWarning
      ensures Valid()
      ensures !(submitted && df.Some?) ==> unchanged(this)
      ensures submitted && df.Some? ==>
        var g := Strip(geneInput);
        && currentGene == Some(g)
        && match FirstMatch(df.value, g)
           case None => barExprDf == None && barWarning == Some("No data for gene: " + g)
           case Some(i) => barExprDf == Some(BuildExprDf(df.value, i)) && barWarning == None
    {
      if !(submitted && df.Some?) {
        return;
      }
      var g := Strip(geneInput);
      currentGene := Some(g);
      var m := FirstMatch(df.value, g);
      if m.None? {
        barExprDf := None;
        barWarning := Some("No data for gene: " + g);
      } else {
        barExprDf := Some(BuildExprDf(df.value, m.value));
        barWarning := None;
      }
    }

    /** The first-load default (lines 146-155), only when neither bar data nor a
        warning is pending: try the current gene, or GAPDH when there is none; if it
        is absent fall back to the first row and make its gene current; warn
        "No data available in this dataset." only when the dataset has no rows. */
    method ApplyFirstLoadDefault(df: Option<Table>)
      requires Valid()
      requires df.Some? ==> IsDataset(df.value)
      modifies this`currentGene, this`barExprDf, this`barWarning
      ensures Valid()
      ensures !(df.Some? && old(barExprDf).None? && old(barWarning).None?) ==> unchanged(this)
      ensures df.Some? && old(barExprDf).None? && old(barWarning).None? ==>
        var t := df.value;
        var initGene := if old(currentGene).Some? && old(currentGene).value != "" then old(currentGene).value else "GAPDH";
        match FirstMatch(t, initGene)
        case Some(i) => barExprDf == Some(BuildExprDf(t, i)) && barWarning == None && currentGene == old(currentGene)
        case None =>
          if t.rows != [] then
            barExprDf == Some(BuildExprDf(t, 0)) && barWarning == None && currentGene == Some(GeneOf(t, 0))
          else
            barExprDf == None && barWarning == Some("No data available in this dataset.") && currentGene == old(currentGene)
    {
      if !(df.Some? && barExprDf.None? && barWarning.None?) {
        return;
      }
      var t := df.value;
      var initGene := if currentGene.Some? && currentGene.value != "" then currentGene.value else "GAPDH";
      var m0 := FirstMatch(t, initGene);
      if m0.None? && t.rows != [] {
        m0 := Some(0);
        currentGene := Some(GeneOf(t, 0));
      }
      if m0.Some? {
        barExprDf := Some(BuildExprDf(t, m0.value));
      } else {
        barWarning := Some("No data available in this dataset.");
      }
    }

    /** The three steps in script order, as one rerun of the page does them. After
        it the remembered dataset is the selected one and, whenever a dataset is
        loaded, exactly one of bar data and warning is set. */
    method Rerun(selected: Option<string>, df: Option<Table>, submitted: bool, geneInput: string)
      requires Valid()
      requires df.Some? ==> IsDataset(df.value)
      modifies this
      ensures Valid()
      ensures datasetName == selected
      ensures df.Some? ==> barExprDf.Some? != barWarning.Some?
    {
      OnDatasetChange(selected, df);
      OnSubmit(submitted, geneInput, df);
      ApplyFirstLoadDefault(df);
    }
  }

  /** The gene lookup ignores case on the user's side as well: asking for a gene
      or for its upper-case spelling finds the same row. */
  lemma FirstMatchIgnoresCase(t: Table, g: string)
    requires IsDataset(t)
    ensures FirstMatch(t, Upper(g)) == FirstMatch(t, g)
  {
    UpperIdempotent(g);
    assert forall i :: 0 <= i < |t.rows| ==> (GeneMatches(t, i, Upper(g)) <==> GeneMatches(t, i, g));
  }
}
