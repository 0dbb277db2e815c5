# Roy plotter: a verified model of its core

The Roy plotter shows gene-expression plots from a fixed set of biological
datasets. There are two front ends:

- a desktop window (`main.py`, class `App`), which draws every dataset that an
  organism and an organ select (`plot.py`);
- a web page (`streamlit_version.py`), which filters a manifest of datasets and
  shows one bar chart for one gene.

This project models the logic behind both front ends and proves what it
promises:

- `base.dfy` (`Base`) holds the shared building blocks:
  - optional values and error results;
  - order-preserving filtering (a pandas boolean mask or a list comprehension
    with a condition) and the subsequence relation it yields;
  - dropping the `None`s from a list;
  - `list.index`.
- `text.dfy` (`Text`) holds the string handling:
  - `str.upper()`;
  - `str.strip()`;
  - the decimal digits of a plot number in a file name.
- `plot.dfy` (`Plot`, `PlotFacts`) models the dataset side of the desktop
  plotter:
  - the rule every plotter applies: no figure when the gene is absent, otherwise
    the rows of that gene;
  - the section labels of the intestinal-section line plot;
  - `make_plots`, which calls the plotters an (organism, organ) choice selects,
    in order, and drops the empty results;
  - lemmas on the order and size of its output.
- `gui.dfy` (`Gui`) models the desktop window as a class:
  - its fields are the figure list, the names, the index, the shown figure, the
    gene and the remembered folder;
  - widgets are plain fields;
  - every callback keeps the invariant `Valid()`: the index points into the
    figures, the shown figure is the one at the index, and the button states
    agree with the index. The save switch's callback runs just after the switch
    flips and restores the invariant's folder rule.
- `web.dfy` (`Web`) models the web page:
  - the column checks of the two CSV loaders;
  - the manifest filter;
  - the default dataset in the picker;
  - turning a row into (column, value) pairs;
  - case-insensitive gene lookup;
  - the session record, as a class, and its three steps: dataset change,
    submit and first-load default.

Figures are modelled by what they are drawn from: the dataset key, the plotter
and the selected rows. Expression values are carried as opaque text cells.
Files and dialogs are parameters:

- the folder picked in the dialog;
- the table `read_csv` returned;
- whether the Show button was pressed;
- the lists handed back by `make_plots`.

## Model

| member | source | states |
|---|---|---|
| `Base.Somes` | plot.py:80 | keeps exactly the present values of the list, and is never longer |
| `Base.SomesKeepsOrder` | plot.py:80 | the kept values, wrapped back, are the present entries in their original order with every copy kept |
| `Base.IndexOf` | main.py:159 | `list.index`: a position holding the value, with no earlier position holding it |
| `Base.Filter` | streamlit_version.py:45 | boolean-mask filtering: keeps exactly the elements that pass, in their original order (a subsequence) |
| `Base.FilterCounts` | streamlit_version.py:45 | a boolean mask keeps every copy of a passing element and no copy of a failing one |
| `Base.FilterKeepsAll` | streamlit_version.py:43-48 | filtering by a test that every element passes returns the input unchanged |
| `Base.FilterDropsOne` | streamlit_version.py:51 | when exactly one position fails the test, the result is one shorter than the input |
| `Base.SubsequenceReflexive` | streamlit_version.py:43-48 | a list is an order-preserving subsequence of itself (an unfiltered manifest) |
| `Base.SubsequenceTransitive` | streamlit_version.py:44-47 | filtering a filtered list is still an order-preserving subsequence of the original |
| `Text.Upper` | main.py:153 | `str.upper()` keeps the length, capitalises every ASCII lower-case letter and leaves every other character alone |
| `Text.UpperIdempotent` | streamlit_version.py:121 | upper-casing twice gives the same as once |
| `Text.Strip` | main.py:153 | `str.strip()`: a slice of the input, with only whitespace cut at either end and no whitespace left at its ends; empty exactly when the input is all whitespace |
| `Text.StripIdempotent` | streamlit_version.py:135 | stripping twice gives the same as once |
| `Text.NatToString` | main.py:199 | `f"{n}"` is a non-empty string of decimal digits, one digit exactly when `n < 10`, starting with `0` only for 0 (no leading zeros) |
| `Text.DecimalRoundTrip` | main.py:199 | reading the printed digits back gives the number |
| `Text.NatToStringInjective` | main.py:199 | different plot numbers print differently |
| `Plot.Select` | plot.py:85-87 | no selection exactly when the gene is not among the dataset's genes; otherwise a non-empty, order-preserving selection holding exactly the rows of that gene, each as many times as the dataset holds it |
| `Plot.Unique` | plot.py:207 | `Series.unique()`: the same values, each once, as a subsequence of the input |
| `Plot.UniqueFirstAppearance` | plot.py:207 | `Series.unique()` lists the values in the order of their first appearance, which decides the section labelled "Duodenum" |
| `Plot.BuildTickLabels` | plot.py:208-209 | one label per section; the last is "terminal ileum", the first is "Duodenum" when there are at least two, and all others are blank |
| `Plot.DrawSpec` | plot.py:84-216 | each plotter yields no figure exactly when the gene is absent; otherwise a figure tagged with its dataset and plotter whose rows are exactly `Select`'s selection (the gene's rows, in dataset order, every copy); only `rachel_zwick` draws a line plot, with one labelled tick per distinct section |
| `Plot.SectionLabelsHold` | plot.py:206-210 | the ticks of the section plot are the distinct sections of the selected rows; the labels follow the "Duodenum" … "terminal ileum" rule |
| `Plot.Render` | plot.py:201-210 | a plotter call draws exactly what `Draw` specifies (whose properties `Plot.DrawSpec` states) |
| `Plot.Candidates` | plot.py:63-79 | the dispatch table lists at most five datasets, none twice |
| `Plot.OwnIntestine` | plot.py:67-71 | the intestine datasets particular to an organism: at most three, none twice |
| `Plot.MakePlots` | plot.py:60-81 | the appended plotter results, with the `None`s dropped, are exactly the figures for the dispatch table's datasets in table order |
| `Plot.IntestinePlots` | plot.py:66-73 | the intestine block calls exactly the intestine part of the dispatch table, in order, and collects each call's result |
| `Plot.OwnIntestinePlots` | plot.py:67-71 | the organism-specific intestine calls are exactly that organism's own datasets, in order |
| `Plot.AppendPlot` | plot.py:64 | one `plots.append(plotter(datasets[key], gene))`: the list so far gains the result of that plotter on that dataset, and the called datasets stay loaded |
| `Plot.DraftsAppend` | plot.py:62-79 | calling one more plotter appends its result to the results so far |
| `Plot.DropNones` | plot.py:80 | the comprehension keeps exactly the present figures, in order |
| `PlotFacts.DraftsFollowCandidates` | plot.py:62-80 | the figures kept, read as (dataset, plotter) pairs, form a subsequence of the dispatch list |
| `PlotFacts.PlotsFollowCandidates` | plot.py:62-81 | `make_plots` returns at most five figures, as an order-preserving subsequence of the dispatch list |
| `PlotFacts.PlotSource` | plot.py:62-80 | every kept figure is the drawing of one listed dataset, which holds the gene; the figure shows only (and some of) the gene's rows |
| `PlotFacts.DraftsPresentIffGenePresent` | plot.py:62-80 | in a list without repeated datasets, a dataset contributes a figure exactly when it holds the gene |
| `PlotFacts.DraftsShowOnlyGene` | plot.py:62-80 | every figure drawn from a dispatch list shows only (and some of) the gene's rows |
| `PlotFacts.PlotPresentIffGenePresent` | plot.py:60-81 | a listed dataset contributes a figure exactly when it holds the gene; every figure shows only that gene's rows, and at least one |
| `PlotFacts.AllTissuesPlots` | plot.py:63-65 | for "all tissues" a mouse gets nothing; a human gets the Human Protein Atlas figure, exactly when it holds the gene |
| `PlotFacts.IntestineOrder` | plot.py:66-73 | intestine figures come in the order: Tabula Sapiens, single cell, Visium, apicome, sections (human); Inna, apicome, sections (mouse) |
| `PlotFacts.SingleDatasetOrgans` | plot.py:74-81 | pancreas and liver give at most one figure, from `ts_pancreas`/`tm_pancreas`/`ts_liver`/`shani_zonation` by organism; any other organ gives none |
| `PlotFacts.ImportedDatasetsSuffice` | plot.py:8-57 | every dataset looked up is among the 13 loaded ones exactly when the organ is not the intestine or the organism is human or mouse |
| `PlotFacts.ApicomeKeyOrganism` | plot.py:72 | only "human" and "mouse" name a loaded apicome dataset |
| `Gui.SaveFileName` | main.py:197-201 | the saved path lies under the chosen folder and ends in ".png" |
| `Gui.SaveFileNamesDistinct` | main.py:199-200 | two different plot numbers for one gene and folder never write the same file |
| `Gui.App.constructor` | main.py:46-53 | starts with the welcome figure alone at index 0, no names, no gene and no folder; Previous, Next and Save are off |
| `Gui.App.DrawPlot` | main.py:143-150 | Previous is enabled exactly when the index is not 0, Next exactly when it is not the last; a single figure disables both |
| `Gui.App.CreatePlots` | main.py:121-137 | with no figures: "Gene not found" named "plot", gene cleared, saving off; otherwise the figures and names, saving on; either way index 0, the first figure and the first name shown; invariant kept |
| `Gui.App.ShowFirst` | main.py:134-137 | index 0, the first figure and the first name are shown, and the buttons are drawn for them; invariant established |
| `Gui.App.CallbackGenerate` | main.py:152-156 | the gene becomes the upper-cased, stripped entry; when that is empty, figures, names and index are untouched; otherwise `create_plots` runs: with no figures, "Gene not found" under the name "plot" with the gene cleared, else the figures and names; index 0 either way |
| `Gui.App.CallbackOptionsPlots` | main.py:158-161 | picking a name shows the first figure with that name; invariant kept |
| `Gui.App.CallbackNumkeys` | main.py:163-169 | nothing changes unless `1 <= key <= len(plots)`; otherwise the index is `key - 1`; before the first Generate, a key in range raises `TypeError` and leaves the state as it was |
| `Gui.App.CallbackNext` | main.py:171-177 | nothing on the last figure; otherwise the index grows by exactly one and the figure there is shown; invariant kept |
| `Gui.App.CallbackPrevious` | main.py:179-185 | nothing on the first figure; otherwise the index drops by exactly one and the figure there is shown; invariant kept |
| `Gui.App.CallbackSave` | main.py:187-201 | nothing without a gene or a folder; the dialog is consulted only when no folder is remembered; the folder is remembered only while the switch is on; the file written is `{folder}/{organism}_{organ}_{gene}_{index+1}.png` |
| `Gui.App.CallbackSwitchSave` | main.py:204-206 | with the switch off the remembered folder is dropped, otherwise kept; this restores the invariant whichever way the switch was flipped |
| `Gui.App.ToggleSaveSwitch` | main.py:85 | flipping the switch runs its callback; invariant kept |
| `Gui.App.ChooseOrganism` | main.py:62 | the organism menu holds the chosen value; invariant kept |
| `Gui.App.ChooseOrgan` | main.py:66 | the organ menu holds the chosen value; invariant kept |
| `Gui.App.TypeEntry` | main.py:70 | the entry holds the typed text; invariant kept |
| `Web.LoadManifest` | streamlit_version.py:24-32 | fails exactly when a required column is missing, naming the missing set; otherwise one manifest row per table row, each field read from its column |
| `Web.LoadDatasetCsv` | streamlit_version.py:35-40 | fails exactly when there is no `gene` column; otherwise returns the table |
| `Web.FilterManifest` | streamlit_version.py:42-48 | an order-preserving subsequence holding exactly the rows that match each non-empty filter, each as many times as the manifest holds it; with both filters `None` or empty, the input itself |
| `Web.FilterManifestIdempotent` | streamlit_version.py:43-48 | filtering twice with the same choices gives the same as once |
| `Web.BuildExprDf` | streamlit_version.py:50-53 | an order-preserving selection of the row's (column, value) pairs, one fewer than the columns |
| `Web.ExprDfEntries` | streamlit_version.py:50-53 | the expression table holds exactly the (column, value) pairs of every column except `gene` |
| `Web.FirstMatchFrom` | streamlit_version.py:121 | the first row from a position on whose upper-cased gene equals the upper-cased query, or none exactly when no such row exists |
| `Web.FirstMatch` | streamlit_version.py:137 | `match.iloc[0]`: the first row matching the gene ignoring case, or none exactly when no row matches |
| `Web.FirstMatchIgnoresCase` | streamlit_version.py:148 | looking up a gene or its upper-case spelling finds the same row |
| `Web.DefaultIndex` | streamlit_version.py:74-76 | the position of the previously chosen dataset when it is still offered (its first occurrence), else 0 |
| `Web.SelectedRow` | streamlit_version.py:80 | none exactly when the filtered manifest is empty; otherwise the first manifest row with the selected name (`.iloc[0]`) |
| `Web.Session.constructor` | streamlit_version.py:115-119 | a fresh session has no dataset, gene, bar data or warning |
| `Web.Session.OnDatasetChange` | streamlit_version.py:115-131 | a new choice is remembered; with a gene and a dataset the bar data is recomputed from the new dataset, or the warning "'g' not found in name." is set; without either both are cleared; the same choice changes nothing |
| `Web.Session.OnSubmit` | streamlit_version.py:134-143 | on submit with a dataset: the stripped input becomes the current gene, the first case-insensitive match gives the bar data and clears the warning, and no match gives "No data for gene: g" and no bar data |
| `Web.Session.ApplyFirstLoadDefault` | streamlit_version.py:146-155 | only when neither bar data nor warning is pending: tries the current gene or GAPDH, falls back to the first row and makes its gene current, and warns "No data available in this dataset." only for an empty dataset |
| `Web.Session.Rerun` | streamlit_version.py:114-155 | after a rerun the remembered dataset is the selected one and, with a dataset loaded, exactly one of bar data and warning is set |

## Left out

- GUI toolkits and layout are not modelled. This covers the customtkinter widgets, grid placement, key bindings, themes and window geometry (main.py:23-110), and the Streamlit page, columns, form and markdown. Widget state is kept as plain fields, and the Streamlit widgets' answers are method parameters.
- Rendering is not modelled: matplotlib, seaborn and plotly calls, the canvas, `savefig` and the bar chart at streamlit_version.py:157-182. A figure is the data it is drawn from, and `Gui.App.CallbackSave` returns the path it would write.
- Axis labels, titles and colours are not modelled. The organism and organ arguments of the plotters are kept only as part of the `Plotter` value.
- File and dialog I/O are not modelled. This covers `pd.read_csv`, `import_datasets`, `fd.askdirectory`, `messagebox.askokcancel` and `st.cache_data`. The loaded datasets, the table read and the folder picked are inputs; the set of 13 dataset names `import_datasets` loads is kept as a constant.
- The `pd.melt` reshaping in `import_datasets` is not modelled. Datasets come already in long form, one row per gene and x value.
- Expression values are opaque text, not floats. The `sort_values('organ')` in `hpa` only changes the drawing order and is not modelled.
- `astype(str)` in the loaders is not modelled, because every cell is already text.
- `read_csv` is assumed to give distinct column names and rectangular rows. The loaders require this (`Web.WellFormed`).
- `Text.Upper`: upper-cases ASCII letters only, not the full Unicode case mapping Python uses.
- `Text.Strip`: strips ASCII whitespace only, not every Unicode space.
- `plot.py:81` returns one list, but `main.py:122` unpacks it into `(plots, names)`. The model keeps both as written: `Plot.MakePlots` returns one list, and `Gui.App.CreatePlots` and `Gui.App.CallbackGenerate` take the figures and names `main.py` expects as parameters, required to have equal length.
- `plot.ORGANISMS` and `plot.TISSUES` (main.py:62,66) are not defined in `plot.py`. The organism and organ the menus start on are constructor parameters.
- For the intestine with an organism other than human or mouse, `make_plots` raises `KeyError` on the f-string keys (plot.py:72-73). `Plot.MakePlots` excludes this by requiring every looked-up dataset to be loaded; `PlotFacts.ImportedDatasetsSuffice` states exactly which choices meet that.
- The `cur_plot is None` half of `callback_save`'s guard (main.py:188) is not modelled. `cur_plot` always holds a figure, so that test never fires.
- The printed diagnostics, `quit_attempt` and `callback_switch_theme` are left out.
- Building the organism and organ menus of the web page (sorted unique values, streamlit_version.py:65-70) is left out. The selections are inputs to `Web.FilterManifest`.
- A dataset that fails to load shows an error and stops the page (`st.error` and `st.stop()`, streamlit_version.py:107-112) before any session step runs, so no `Web.Session.Rerun` happens for it. In `Rerun`, `df == None` means that no dataset is selected.
