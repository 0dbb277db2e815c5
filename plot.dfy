/** The dataset side of the desktop plotter (plot.py): which datasets a choice of
    organism and organ draws from, in which order, and which rows of each dataset a
    plot shows. Figures are modelled by what they are drawn from, not by pixels. */
module Plot {
  import opened Base

  /** One row of a dataset in long form. `x` is the value on the x axis (zone, cell
      type, apicome fraction, tissue or intestinal section), `hue` the colour grouping
      (organ or cell type, empty when unused) and `expression` the plotted value,
      carried as an opaque cell. */
  datatype Row = Row(gene: string, x: string, hue: string, expression: string)

  /** The loaded datasets by name, as `import_datasets` returns them. */
  type Datasets = map<string, seq<Row>>

  /** The names `import_datasets` loads (plot.py lines 8-57). */
  const ImportedKeys: set<string> := {
    "ts_pancreas", "ts_liver", "ts_intestine", "tm_pancreas", "hpa",
    "yotams_visium_zonation", "rachel_zwick_human", "rachel_zwick_mouse", "innas",
    "yotams_sc_sigmat", "shani_zonation", "human_apicome", "mouse_apicome"
  }

  /** The nine plotting functions, with the arguments that only reach their titles. */
  datatype Plotter =
    | Shani
    | YotamsVisium
    | Apicome(organism: string)
    | Inna
    | Hpa
    | TabulaMuris(organ: string)
    | TabulaSapiens(organ: string)
    | YotamsSc
    | RachelZwick(organism: string)

  /** A drawn figure: the dataset it came from, the function that drew it and the rows
      it shows. The section line plot also fixes its x ticks and their labels. */
  datatype Chart =
    | Bar(dataset: string, plotter: Plotter, rows: seq<Row>)
    | Line(dataset: string, plotter: Plotter, rows: seq<Row>, ticks: seq<string>, tickLabels: seq<string>)

  /** `gene in df['gene'].values` */
  predicate HasGene(df: seq<Row>, gene: string) {
    exists i :: 0 <= i < |df| && df[i].gene == gene
  }

  /** The rule every plotter starts with: `None` when the gene is absent, otherwise
      `df[df['gene'] == gene]`, the matching rows in dataset order. */
  function Select(df: seq<Row>, gene: string): (r: Option<seq<Row>>)
    ensures r.None? <==> !HasGene(df, gene)
    ensures r.Some? ==> r.value != []
    ensures r.Some? ==> IsSubsequence(r.value, df)
    ensures r.Some? ==> forall row :: row in r.value <==> row in df && row.gene == gene
    ensures r.Some? ==> forall row :: multiset(r.value)[row] == if row.gene == gene then multiset(df)[row] else 0
  {
    if !HasGene(df, gene) then None
    else
      var keep := (row: Row) => row.gene == gene;
      var rows := Filter(df, keep);
      FilterCounts(df, keep);
      assert rows != [] by {
        var i :| 0 <= i < |df| && df[i].gene == gene;
        assert df[i] in rows;
      }
      Some(rows)
  }

  /** The x values of some rows, in row order. */
  function XValues(rows: seq<Row>): seq<string> {
    seq(|rows|, i requires 0 <= i < |rows| => rows[i].x)
  }

  /** pandas' `Series.unique()`: each value once, in order of first appearance. */
  function Unique(xs: seq<string>): (u: seq<string>)
    ensures forall x :: x in u <==> x in xs
    ensures forall i, j :: 0 <= i < j < |u| ==> u[i] != u[j]
    ensures IsSubsequence(u, xs)
  {
    if xs == [] then []
    else
      var init := xs[..|xs| - 1];
      var last := xs[|xs| - 1];
      var u := Unique(init);
      assert xs == init + [last];
      if last in u then
        SubsequenceAppend(u, init, last);
        u
      else
        SubsequenceExtendBoth(u, init, last);
        u + [last]
  }

  /** The values of `u`, all taken from `xs`, are listed in the order in which they
      first appear in `xs`. */
  predicate FirstAppearanceOrder(u: seq<string>, xs: seq<string>) {
    && (forall x :: x in u ==> x in xs)
    && forall i, j :: 0 <= i < j < |u| ==> IndexOf(xs, u[i]) < IndexOf(xs, u[j])
  }

  /** `unique()` lists the values in the order in which they first appear. */
  lemma {:induction false} UniqueFirstAppearance(xs: seq<string>)
    ensures FirstAppearanceOrder(Unique(xs), xs)
  {
    if xs != [] {
      var init := xs[..|xs| - 1];
      var last := xs[|xs| - 1];
      assert xs == init + [last];
      UniqueFirstAppearance(init);
      var u := Unique(init);
      FirstAppearanceStep(u, init, last);
    }
  }

  /** Extending the list by one value keeps the first-appearance order of the values
      seen so far, and a new value comes after all of them. */
  lemma FirstAppearanceStep(u: seq<string>, init: seq<string>, last: string)
    requires forall x :: x in u <==> x in init
    requires FirstAppearanceOrder(u, init)
    ensures FirstAppearanceOrder(if last in u then u else u + [last], init + [last])
  {
    var xs := init + [last];
    forall x | x in init
      ensures x in xs && IndexOf(xs, x) == IndexOf(init, x)
    {
      IndexOfAppend(init, last, x);
    }
    if last !in u {
      IndexOfLast(init, last);
      NewValueLast(u, init, last);
    }
  }

  /** A value not seen before is listed after every value seen before. */
  lemma NewValueLast(u: seq<string>, init: seq<string>, last: string)
    requires forall x :: x in u <==> x in init
    requires FirstAppearanceOrder(u, init) && last !in init
    requires forall x :: x in init ==> x in init + [last] && IndexOf(init + [last], x) == IndexOf(init, x)
    requires IndexOf(init + [last], last) == |init|
    ensures FirstAppearanceOrder(u + [last], init + [last])
  {
    var xs, v := init + [last], u + [last];
    forall i, j | 0 <= i < j < |v|
      ensures IndexOf(xs, v[i]) < IndexOf(xs, v[j])
    {
      assert v[i] == u[i] && u[i] in init;
      if j == |u| {
        assert v[j] == last;
      } else {
        assert v[j] == u[j] && u[j] in init;
      }
    }
  }

  /** The x tick labels of the section plot (plot.py lines 208-209), as built there:
      a list of empty strings, then position 0 and position -1 overwritten in turn. */
  method BuildTickLabels(n: nat) returns (labels: seq<string>)
    requires n >= 1
    ensures |labels| == n
    ensures labels[n - 1] == "terminal ileum"
    ensures n >= 2 ==> labels[0] == "Duodenum"
    ensures forall i :: 0 < i < n - 1 ==> labels[i] == ""
    ensures labels == TickLabels(n)
  {
    var a := new string[n](_ => "");
    a[0] := "Duodenum";
    a[n - 1] := "terminal ileum";
    labels := a[..];
  }

  /** The tick labels for `n` sections, as a value. */
  function TickLabels(n: nat): seq<string> {
    seq(n, i => if i == n - 1 then "terminal ileum" else if i == 0 then "Duodenum" else "")
  }

  /** What calling plotter `p` on dataset `key` draws for `gene`. */
  function Draw(p: Plotter, key: string, df: seq<Row>, gene: string): Option<Chart> {
    match Select(df, gene)
    case None => None
    case Some(rows) =>
      if p.RachelZwick? then
        var ticks := Unique(XValues(rows));
        Some(Line(key, p, rows, ticks, TickLabels(|ticks|)))
      else
        Some(Bar(key, p, rows))
  }

  /** Every plotter draws nothing exactly when the gene is absent, and otherwise a
      figure of the rows `Select` picks (the gene's rows, in dataset order, every
      copy kept), tagged with its dataset and plotter; only `rachel_zwick` draws a
      line plot, whose ticks are labelled sections. */
  lemma DrawSpec(p: Plotter, key: string, df: seq<Row>, gene: string)
    ensures var r := Draw(p, key, df, gene);
      && (r.None? <==> !HasGene(df, gene))
      && (r.Some? ==> Select(df, gene) == Some(r.value.rows))
      && (r.Some? ==> r.value.dataset == key && r.value.plotter == p)
      && (r.Some? ==> r.value.rows != [])
      && (r.Some? ==> forall row :: row in r.value.rows <==> row in df && row.gene == gene)
      && (r.Some? ==> (r.value.Line? <==> p.RachelZwick?))
      && (r.Some? && r.value.Line? ==> LabelledSections(r.value))
  {
    match Select(df, gene)
    case None =>
    case Some(rows) =>
      if p.RachelZwick? {
        var ticks := Unique(XValues(rows));
        SectionLabelsHold(Line(key, p, rows, ticks, TickLabels(|ticks|)));
      }
  }

  /** A section plot has one tick per distinct section of its rows and one label per
      tick, "Duodenum" first and "terminal ileum" last (which wins for one section),
      the others blank. */
  ghost predicate LabelledSections(c: Chart)
    requires c.Line?
  {
    && |c.ticks| >= 1
    && |c.tickLabels| == |c.ticks|
    && (forall i, j :: 0 <= i < j < |c.ticks| ==> c.ticks[i] != c.ticks[j])
    && (forall s :: s in c.ticks <==> exists row :: row in c.rows && row.x == s)
    && c.tickLabels[|c.ticks| - 1] == "terminal ileum"
    && (|c.ticks| >= 2 ==> c.tickLabels[0] == "Duodenum")
    && (forall i :: 0 < i < |c.ticks| - 1 ==> c.tickLabels[i] == "")
  }

  /** The ticks and labels `rachel_zwick` derives from a non-empty selection are
      labelled sections. */
  lemma SectionLabelsHold(c: Chart)
    requires c.Line? && c.rows != []
    requires c.ticks == Unique(XValues(c.rows)) && c.tickLabels == TickLabels(|c.ticks|)
    ensures LabelledSections(c)
  {
    var xs := XValues(c.rows);
    assert xs[0] == c.rows[0].x;
    forall s
      ensures s in c.ticks <==> exists row :: row in c.rows && row.x == s
    {
      if s in c.ticks {
        var i :| 0 <= i < |xs| && xs[i] == s;
        assert c.rows[i] in c.rows;
      }
      if exists row :: row in c.rows && row.x == s {
        var row :| row in c.rows && row.x == s;
        var i :| 0 <= i < |c.rows| && c.rows[i] == row;
        assert xs[i] == s;
      }
    }
  }

  /** One plotter call: select the rows and, for the section plot, build its labels. */
  method Render(p: Plotter, key: string, df: seq<Row>, gene: string) returns (fig: Option<Chart>)
    ensures fig == Draw(p, key, df, gene)
  {
    var selected := Select(df, gene);
    if selected.None? {
      return None;
    }
    var rows := selected.value;
    if p.RachelZwick? {
      var ticks := Unique(XValues(rows));
      assert XValues(rows)[0] == rows[0].x;
      var labels := BuildTickLabels(|ticks|);
      fig := Some(Line(key, p, rows, ticks, labels));
    } else {
      fig := Some(Bar(key, p, rows));
    }
  }

  /** The dispatch table of `make_plots`: the (dataset, plotter) pairs it calls, in
      call order, for an organism and an organ. */
  function Candidates(organism: string, organ: string): (c: seq<(string, Plotter)>)
    ensures |c| <= 5
    ensures forall i, j :: 0 <= i < j < |c| ==> c[i].0 != c[j].0
  {
    if organ == "all tissues" then
      if organism == "human" then [("hpa", Hpa)] else []
    else if organ == "intestine" then
      OwnIntestine(organism)
      + [(organism + "_apicome", Apicome(organism)),
         ("rachel_zwick_" + organism, RachelZwick(organism))]
    else if organ == "pancreas" then
      if organism == "human" then [("ts_pancreas", TabulaSapiens(organ))]
      else if organism == "mouse" then [("tm_pancreas", TabulaMuris(organ))]
      else []
    else if organ == "liver" then
      if organism == "human" then [("ts_liver", TabulaSapiens(organ))]
      else if organism == "mouse" then [("shani_zonation", Shani)]
      else []
    else []
  }

  /** The intestine datasets particular to an organism, called before the two
      that every organism has. */
  function OwnIntestine(organism: string): (c: seq<(string, Plotter)>)
    ensures |c| <= 3
    ensures forall i, j :: 0 <= i < j < |c| ==> c[i].0 != c[j].0
  {
    if organism == "human" then
      [("ts_intestine", TabulaSapiens("intestine")), ("yotams_sc_sigmat", YotamsSc),
       ("yotams_visium_zonation", YotamsVisium)]
    else if organism == "mouse" then [("innas", Inna)]
    else []
  }

  /** Every dataset a dispatch list names is loaded (otherwise `datasets[...]` raises). */
  predicate Loaded(cands: seq<(string, Plotter)>, datasets: Datasets) {
    forall c :: c in cands ==> c.0 in datasets
  }

  /** The plotter results for each candidate, `None` included. */
  function Drafts(cands: seq<(string, Plotter)>, gene: string, datasets: Datasets): seq<Option<Chart>>
    requires Loaded(cands, datasets)
  {
    seq(|cands|, i requires 0 <= i < |cands| => Draw(cands[i].1, cands[i].0, datasets[cands[i].0], gene))
  }

  /** What `make_plots` returns. */
  function Expected(organism: string, organ: string, gene: string, datasets: Datasets): seq<Chart>
    requires Loaded(Candidates(organism, organ), datasets)
  {
    Somes(Drafts(Candidates(organism, organ), gene, datasets))
  }

  /** `make_plots`: call the plotters the organ and organism select, appending each
      result, then drop the `None`s. */
  method MakePlots(organism: string, organ: string, gene: string, datasets: Datasets)
    returns (plots: seq<Chart>)
    requires Loaded(Candidates(organism, organ), datasets)
    ensures plots == Expected(organism, organ, gene, datasets)
  {
    ghost var cands := Candidates(organism, organ);
    ghost var called: seq<(string, Plotter)> := [];
    var drafts: seq<Option<Chart>> := [];
    if organ == "all tissues" {
      if organism == "human" {
        drafts, called := AppendPlot(called, drafts, Hpa, "hpa", gene, datasets);
      } else if organism == "mouse" {
      }
    }
    if organ == "intestine" {
      drafts, called := IntestinePlots(organism, gene, datasets);
    }
    if organ == "pancreas" {
      if organism == "human" {
        drafts, called := AppendPlot(called, drafts, TabulaSapiens(organ), "ts_pancreas", gene, datasets);
      } else if organism == "mouse" {
        drafts, called := AppendPlot(called, drafts, TabulaMuris(organ), "tm_pancreas", gene, datasets);
      }
    }
    if organ == "liver" {
      if organism == "human" {
        drafts, called := AppendPlot(called, drafts, TabulaSapiens(organ), "ts_liver", gene, datasets);
      } else if organism == "mouse" {
        drafts, called := AppendPlot(called, drafts, Shani, "shani_zonation", gene, datasets);
      }
    }
    assert called == cands;
    plots := DropNones(drafts);
  }

  /** The intestine block of `make_plots` (plot.py lines 66-73): the organism's own
      datasets, then its apicome and its section datasets. */
  method IntestinePlots(organism: string, gene: string, datasets: Datasets)
    returns (drafts: seq<Option<Chart>>, ghost called: seq<(string, Plotter)>)
    requires Loaded(Candidates(organism, "intestine"), datasets)
    ensures called == Candidates(organism, "intestine")
    ensures drafts == Drafts(called, gene, datasets)
  {
    ghost var cands := Candidates(organism, "intestine");
    ghost var own := OwnIntestine(organism);
    assert cands == own + [cands[|own|], cands[|own| + 1]];
    drafts, called := OwnIntestinePlots(organism, gene, datasets);
    assert cands[|own|] in cands && cands[|own| + 1] in cands;
    drafts, called := AppendPlot(called, drafts, Apicome(organism), organism + "_apicome", gene, datasets);
    drafts, called := AppendPlot(called, drafts, RachelZwick(organism), "rachel_zwick_" + organism, gene, datasets);
  }

  /** The organism-specific part of the intestine block (plot.py lines 66-70). */
  method OwnIntestinePlots(organism: string, gene: string, datasets: Datasets)
    returns (drafts: seq<Option<Chart>>, ghost called: seq<(string, Plotter)>)
    requires Loaded(OwnIntestine(organism), datasets)
    ensures called == OwnIntestine(organism) && Loaded(called, datasets)
    ensures drafts == Drafts(called, gene, datasets)
  {
    var organ := "intestine";
    called, drafts := [], [];
    if organism == "human" {
      drafts, called := AppendPlot(called, drafts, TabulaSapiens(organ), "ts_intestine", gene, datasets);
      drafts, called := AppendPlot(called, drafts, YotamsSc, "yotams_sc_sigmat", gene, datasets);
      drafts, called := AppendPlot(called, drafts, YotamsVisium, "yotams_visium_zonation", gene, datasets);
    } else if organism == "mouse" {
      drafts, called := AppendPlot(called, drafts, Inna, "innas", gene, datasets);
    }
  }

  /** One `plots.append(plotter(datasets[key], gene, ...))` step of `make_plots`:
      `drafts` holds the results of the calls in `called`, and the step adds the
      result of `p` on dataset `key`. */
  method AppendPlot(ghost called: seq<(string, Plotter)>, drafts: seq<Option<Chart>>, p: Plotter, key: string,
                    gene: string, datasets: Datasets)
    returns (next: seq<Option<Chart>>, ghost called': seq<(string, Plotter)>)
    requires key in datasets
    requires Loaded(called, datasets) && drafts == Drafts(called, gene, datasets)
    ensures called' == called + [(key, p)] && Loaded(called', datasets)
    ensures next == Drafts(called', gene, datasets)
  {
    var fig := Render(p, key, datasets[key], gene);
    next := drafts + [fig];
    called' := called + [(key, p)];
    DraftsAppend(called, (key, p), gene, datasets);
  }

  /** Drafting one more candidate appends its plotter's result. */
  lemma DraftsAppend(called: seq<(string, Plotter)>, c: (string, Plotter), gene: string, datasets: Datasets)
    requires Loaded(called, datasets) && c.0 in datasets
    ensures Loaded(called + [c], datasets)
    ensures Drafts(called + [c], gene, datasets)
      == Drafts(called, gene, datasets) + [Draw(c.1, c.0, datasets[c.0], gene)]
  {
    var a, b := Drafts(called + [c], gene, datasets), Drafts(called, gene, datasets);
    assert forall i :: 0 <= i < |called| ==> a[i] == b[i];
  }

  /** `[plot for plot in plots if plot is not None]` */
  method DropNones(drafts: seq<Option<Chart>>) returns (plots: seq<Chart>)
    ensures plots == Somes(drafts)
  {
    plots := [];
    for i := 0 to |drafts|
      invariant plots == Somes(drafts[..i])
    {
      assert drafts[..i + 1] == drafts[..i] + [drafts[i]];
      SomesSnoc(drafts[..i], drafts[i]);
      if drafts[i].Some? {
        plots := plots + [drafts[i].value];
      }
    }
    assert drafts[..|drafts|] == drafts;
  }
}

module PlotFacts {
  import opened Base
  import opened Plot

  /** The (dataset, plotter) pair each figure was drawn from. */
  function Tags(charts: seq<Chart>): seq<(string, Plotter)> {
    seq(|charts|, i requires 0 <= i < |charts| => (charts[i].dataset, charts[i].plotter))
  }

  /** Each draft is the result of its own candidate's plotter. */
  lemma DraftAt(cands: seq<(string, Plotter)>, gene: string, datasets: Datasets, k: nat)
    requires Loaded(cands, datasets) && k < |cands|
    ensures var d := Drafts(cands, gene, datasets);
      |d| == |cands| && d[k] == Draw(cands[k].1, cands[k].0, datasets[cands[k].0], gene)
  {
  }

  /** A drawn figure carries the dataset and plotter of its candidate. */
  lemma TagsSnoc(kept: seq<Chart>, ch: Chart)
    ensures Tags(kept + [ch]) == Tags(kept) + [(ch.dataset, ch.plotter)]
  {
  }

  /** The figures kept from a dispatch list come from it, in its order. */
  lemma {:induction false} DraftsFollowCandidates(cands: seq<(string, Plotter)>, gene: string, datasets: Datasets)
    requires Loaded(cands, datasets)
    ensures IsSubsequence(Tags(Somes(Drafts(cands, gene, datasets))), cands)
  {
    if cands != [] {
      var init := cands[..|cands| - 1];
      var last := cands[|cands| - 1];
      assert cands == init + [last];
      DraftsAppend(init, last, gene, datasets);
      DraftsFollowCandidates(init, gene, datasets);
      DrawSpec(last.1, last.0, datasets[last.0], gene);
      var d := Drafts(cands, gene, datasets);
      var kept := Somes(Drafts(init, gene, datasets));
      assert d[..|d| - 1] == Drafts(init, gene, datasets);
      if d[|d| - 1].Some? {
        assert Somes(d) == kept + [d[|d| - 1].value];
        TagsSnoc(kept, d[|d| - 1].value);
        SubsequenceExtendBoth(Tags(kept), init, last);
      } else {
        assert Somes(d) == kept;
        SubsequenceAppend(Tags(kept), init, last);
      }
    }
  }

  /** `make_plots` returns at most five figures, no `None`, drawn from the dispatch
      list's datasets in the list's order. */
  lemma PlotsFollowCandidates(organism: string, organ: string, gene: string, datasets: Datasets)
    requires Loaded(Candidates(organism, organ), datasets)
    ensures IsSubsequence(Tags(Expected(organism, organ, gene, datasets)), Candidates(organism, organ))
    ensures |Expected(organism, organ, gene, datasets)| <= 5
  {
    DraftsFollowCandidates(Candidates(organism, organ), gene, datasets);
    SubsequenceBounds(Tags(Expected(organism, organ, gene, datasets)), Candidates(organism, organ));
  }

  /** Every kept figure is its own candidate's drawing: that dataset holds the gene
      and the figure shows only (and some of) the gene's rows. */
  lemma PlotSource(cands: seq<(string, Plotter)>, gene: string, datasets: Datasets, ch: Chart)
    returns (j: nat)
    requires Loaded(cands, datasets) && ch in Somes(Drafts(cands, gene, datasets))
    ensures j < |cands| && Draw(cands[j].1, cands[j].0, datasets[cands[j].0], gene) == Some(ch)
    ensures ch.dataset == cands[j].0 && HasGene(datasets[cands[j].0], gene)
    ensures ch.rows != [] && forall row :: row in ch.rows ==> row.gene == gene
  {
    var d := Drafts(cands, gene, datasets);
    j :| 0 <= j < |d| && d[j] == Some(ch);
    DraftAt(cands, gene, datasets, j);
    DrawSpec(cands[j].1, cands[j].0, datasets[cands[j].0], gene);
  }

  /** In a dispatch list without repeated datasets, a dataset contributes a figure
      exactly when it holds the gene. */
  lemma DraftsPresentIffGenePresent(cands: seq<(string, Plotter)>, gene: string, datasets: Datasets)
    requires Loaded(cands, datasets)
    requires forall i, j :: 0 <= i < j < |cands| ==> cands[i].0 != cands[j].0
    ensures forall c :: c in cands ==>
      ((exists ch :: ch in Somes(Drafts(cands, gene, datasets)) && ch.dataset == c.0)
       <==> HasGene(datasets[c.0], gene))
  {
    var d := Drafts(cands, gene, datasets);
    var plots := Somes(d);
    forall c | c in cands
      ensures (exists ch :: ch in plots && ch.dataset == c.0) <==> HasGene(datasets[c.0], gene)
    {
      var k :| 0 <= k < |cands| && cands[k] == c;
      if exists ch :: ch in plots && ch.dataset == c.0 {
        var ch :| ch in plots && ch.dataset == c.0;
        var j := PlotSource(cands, gene, datasets, ch);
        assert j == k;
      }
      if HasGene(datasets[c.0], gene) {
        DraftAt(cands, gene, datasets, k);
        DrawSpec(c.1, c.0, datasets[c.0], gene);
        assert d[k].value in plots;
      }
    }
  }

  /** Every figure drawn from a dispatch list shows only (and some of) the gene's rows. */
  lemma DraftsShowOnlyGene(cands: seq<(string, Plotter)>, gene: string, datasets: Datasets)
    requires Loaded(cands, datasets)
    ensures forall ch :: ch in Somes(Drafts(cands, gene, datasets)) ==>
      ch.rows != [] && forall row :: row in ch.rows ==> row.gene == gene
  {
    forall ch | ch in Somes(Drafts(cands, gene, datasets))
      ensures ch.rows != [] && forall row :: row in ch.rows ==> row.gene == gene
    {
      var _ := PlotSource(cands, gene, datasets, ch);
    }
  }

  /** For the dispatch table: a listed dataset contributes a figure exactly when it
      holds the gene, and every figure shows only (and some of) that gene's rows. */
  lemma PlotPresentIffGenePresent(organism: string, organ: string, gene: string, datasets: Datasets)
    requires Loaded(Candidates(organism, organ), datasets)
    ensures forall c :: c in Candidates(organism, organ) ==>
      ((exists ch :: ch in Expected(organism, organ, gene, datasets) && ch.dataset == c.0)
       <==> HasGene(datasets[c.0], gene))
    ensures forall ch :: ch in Expected(organism, organ, gene, datasets) ==>
      ch.rows != [] && forall row :: row in ch.rows ==> row.gene == gene
  {
    DraftsPresentIffGenePresent(Candidates(organism, organ), gene, datasets);
    DraftsShowOnlyGene(Candidates(organism, organ), gene, datasets);
  }

  /** For "all tissues" a human gets at most the Human Protein Atlas figure, a mouse
      nothing. */
  lemma AllTissuesPlots(gene: string, datasets: Datasets)
    requires "hpa" in datasets
    ensures Expected("mouse", "all tissues", gene, datasets) == []
    ensures var plots := Expected("human", "all tissues", gene, datasets);
      |plots| <= 1 && (plots != [] <==> HasGene(datasets["hpa"], gene))
      && forall ch :: ch in plots ==> ch.dataset == "hpa" && ch.plotter == Hpa
  {
    var d := Drafts(Candidates("human", "all tissues"), gene, datasets);
    assert d == [Draw(Hpa, "hpa", datasets["hpa"], gene)];
    assert d[..0] == [];
  }

  /** For the intestine the figures follow the order human: Tabula Sapiens, single
      cell, Visium, apicome, sections; mouse: Inna's atlas, apicome, sections. */
  lemma IntestineOrder(gene: string, datasets: Datasets)
    requires Loaded(Candidates("human", "intestine"), datasets)
    requires Loaded(Candidates("mouse", "intestine"), datasets)
    ensures IsSubsequence(Tags(Expected("human", "intestine", gene, datasets)),
      [("ts_intestine", TabulaSapiens("intestine")), ("yotams_sc_sigmat", YotamsSc),
       ("yotams_visium_zonation", YotamsVisium), ("human_apicome", Apicome("human")),
       ("rachel_zwick_human", RachelZwick("human"))])
    ensures IsSubsequence(Tags(Expected("mouse", "intestine", gene, datasets)),
      [("innas", Inna), ("mouse_apicome", Apicome("mouse")),
       ("rachel_zwick_mouse", RachelZwick("mouse"))])
  {
    KeyNames();
    assert Candidates("human", "intestine") ==
      [("ts_intestine", TabulaSapiens("intestine")), ("yotams_sc_sigmat", YotamsSc),
       ("yotams_visium_zonation", YotamsVisium), ("human_apicome", Apicome("human")),
       ("rachel_zwick_human", RachelZwick("human"))];
    assert Candidates("mouse", "intestine") ==
      [("innas", Inna), ("mouse_apicome", Apicome("mouse")),
       ("rachel_zwick_mouse", RachelZwick("mouse"))];
    PlotsFollowCandidates("human", "intestine", gene, datasets);
    PlotsFollowCandidates("mouse", "intestine", gene, datasets);
  }

  /** Pancreas and liver draw from one dataset each; any organ outside the four known
      ones yields no figure. */
  lemma SingleDatasetOrgans(organism: string, organ: string, gene: string, datasets: Datasets)
    requires ImportedKeys <= datasets.Keys
    requires organ != "all tissues" && organ != "intestine"
    ensures var plots := Expected(organism, organ, gene, datasets);
      && |plots| <= 1
      && (organ == "pancreas" && organism == "human" ==> forall ch :: ch in plots ==> ch.dataset == "ts_pancreas")
      && (organ == "pancreas" && organism == "mouse" ==> forall ch :: ch in plots ==> ch.dataset == "tm_pancreas")
      && (organ == "liver" && organism == "human" ==> forall ch :: ch in plots ==> ch.dataset == "ts_liver")
      && (organ == "liver" && organism == "mouse" ==> forall ch :: ch in plots ==> ch.dataset == "shani_zonation")
      && (organ != "pancreas" && organ != "liver" ==> plots == [])
  {
    PlotPresentIffGenePresent(organism, organ, gene, datasets);
    var plots := Expected(organism, organ, gene, datasets);
    forall ch | ch in plots ensures ch.dataset in set c | c in Candidates(organism, organ) :: c.0 {
      var d := Drafts(Candidates(organism, organ), gene, datasets);
      assert Some(ch) in d;
    }
  }

  /** With the datasets `import_datasets` loads, `make_plots` finds every dataset it
      looks up exactly when the organ is not the intestine or the organism is human or
      mouse; for the intestine and any other organism it raises `KeyError`. */
  lemma ImportedDatasetsSuffice(organism: string, organ: string)
    ensures (forall c :: c in Candidates(organism, organ) ==> c.0 in ImportedKeys)
      <==> (organ != "intestine" || organism == "human" || organism == "mouse")
  {
    KeyNames();
    if organ == "intestine" && organism != "human" && organism != "mouse" {
      var name := organism + "_apicome";
      var c := Candidates(organism, organ);
      assert c[0] == (name, Apicome(organism)) && c[0] in c;
      assert name !in ImportedKeys by {
        if name in ImportedKeys {
          ApicomeKeyOrganism(organism);
          assert false;
        }
      }
    }
  }

  /** Only humans and mice have an apicome dataset among the loaded ones. */
  lemma ApicomeKeyOrganism(organism: string)
    requires organism + "_apicome" in ImportedKeys
    ensures organism == "human" || organism == "mouse"
  {
    var name := organism + "_apicome";
    assert name[|organism|] == '_';
    assert name[..|organism|] == organism;
  }

  /** The dataset names `make_plots` builds with f-strings. */
  lemma KeyNames()
    ensures "human" + "_apicome" == "human_apicome"
    ensures "mouse" + "_apicome" == "mouse_apicome"
    ensures "rachel_zwick_" + "human" == "rachel_zwick_human"
    ensures "rachel_zwick_" + "mouse" == "rachel_zwick_mouse"
  {
  }
}
