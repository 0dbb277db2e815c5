/** The desktop window (main.py, class `App`): the list of figures for the last gene,
    which one is shown, the Previous/Next/Save buttons and the remembered output
    folder. Widgets are plain fields holding what the user sees: the selected
    organism and organ, the entry text, the state of each button and switch. */
module Gui {
  import opened Base
  import opened Text
  import Plot

  /** A matplotlib figure: one of the two placeholders `create_empty_plot` draws
      (welcome text, or "Gene not found"), or a figure drawn from a dataset. */
  datatype Figure = Welcome | GeneNotFound | Drawn(chart: Plot.Chart)

  /** The path `save_cur_plot` writes: `{directory}/{organism}_{organ}_{gene}_{n}.png`. */
  function SaveFileName(directory: string, organism: string, organ: string, gene: string, n: nat): (path: string)
    ensures |path| > |directory| + 5
    ensures path[..|directory| + 1] == directory + "/"
    ensures path[|path| - 4..] == ".png"
  {
    directory + "/" + organism + "_" + organ + "_" + gene + "_" + NatToString(n) + ".png"
  }

  /** Saving two different plots of one gene to one folder never writes the same file. */
  lemma SaveFileNamesDistinct(directory: string, organism: string, organ: string, gene: string, m: nat, n: nat)
    requires m != n
    ensures SaveFileName(directory, organism, organ, gene, m) != SaveFileName(directory, organism, organ, gene, n)
  {
    var prefix := directory + "/" + organism + "_" + organ + "_" + gene + "_";
    var a, b := SaveFileName(directory, organism, organ, gene, m), SaveFileName(directory, organism, organ, gene, n);
    var dm, dn := NatToString(m), NatToString(n);
    assert a == prefix + dm + ".png";
    assert b == prefix + dn + ".png";
    if a == b {
      assert |dm| == |dn|;
      assert a[|prefix|..|prefix| + |dm|] == dm;
      assert b[|prefix|..|prefix| + |dn|] == dn;
      NatToStringInjective(m, n);
    }
  }

  class App {
    // Navigation state.
    var plots: seq<Figure>
    var names: Option<seq<string>>   // None until the first `create_plots`
    var plotIndex: int
    var curPlot: Figure
    var gene: Option<string>
    var outputDir: Option<string>

    // Widgets, as the values they hold.
    var organism: string             // optionmenu_organism
    var organ: string                // optionmenu_organ
    var entry: string                // entry
    var saveSwitchOn: bool           // switch_save ("Remember output folder")
    var saveEnabled: bool            // button_save
    var previousEnabled: bool        // button_previous
    var nextEnabled: bool            // button_next
    var plotMenuEnabled: bool        // optionmenu_plot
    var plotMenuValues: seq<string>
    var plotMenuChoice: string
    var shown: Figure                // the figure on the canvas

    /** The index points into the figure list and `cur_plot` is the figure there. */
    ghost predicate Placed()
      reads this`plots, this`plotIndex, this`curPlot
    {
      0 <= plotIndex < |plots| && curPlot == plots[plotIndex]
    }

    /** The plot menu lists the names of the figures and shows the current one's;
        before the first Generate it holds the single placeholder "plot". */
    ghost predicate MenuAgrees()
      reads this`plots, this`names, this`plotIndex, this`plotMenuValues, this`plotMenuChoice
    {
      0 <= plotIndex < |plots| &&
      match names
      case None => plots == [Welcome] && plotMenuValues == ["plot"] && plotMenuChoice == "plot"
      case Some(ns) => |ns| == |plots| && plotMenuValues == ns && plotMenuChoice == ns[plotIndex]
    }

    /** Saving is offered only with a gene, together with the plot menu; a folder is
        remembered only while the switch is on. */
    ghost predicate SaveAgrees()
      reads this`plotMenuEnabled, this`saveEnabled, this`gene, this`outputDir, this`saveSwitchOn
    {
      && plotMenuEnabled == saveEnabled
      && (saveEnabled ==> gene.Some?)
      && (outputDir.Some? ==> saveSwitchOn && outputDir.value != "")
    }

    /** Everything the window keeps consistent apart from what `draw_plot` sets. */
    ghost predicate Consistent()
      reads this
    {
      Placed() && MenuAgrees() && SaveAgrees()
    }

    /** The canvas shows `cur_plot` and the Previous/Next buttons agree with the index. */
    ghost predicate Drawn()
      reads this`plots, this`plotIndex, this`curPlot, this`shown, this`previousEnabled, this`nextEnabled
    {
      && shown == curPlot
      && previousEnabled == (plotIndex != 0)
      && nextEnabled == (plotIndex != |plots| - 1)
    }

    /** Everything but the folder rule: what holds between flipping the save switch
        and running its callback. */
    ghost predicate ValidButFolder()
      reads this
    {
      && Placed() && MenuAgrees() && Drawn()
      && plotMenuEnabled == saveEnabled
      && (saveEnabled ==> gene.Some?)
      && (outputDir.Some? ==> outputDir.value != "")
    }

    /** The window's invariant, kept by every callback. */
    ghost predicate Valid()
      reads this
    {
      Consistent() && Drawn()
    }

    /** `__init__`: the welcome figure alone, nothing to save, no folder remembered.
        The organism and organ menus start on the given values. */
    constructor (organism: string, organ: string)
      ensures Valid()
      ensures plots == [Welcome] && names == None && plotIndex == 0 && curPlot == Welcome
      ensures gene == None && outputDir == None
      ensures this.organism == organism && this.organ == organ && entry == "" && !saveSwitchOn
      ensures !saveEnabled && !plotMenuEnabled && !previousEnabled && !nextEnabled
    {
      outputDir := None;
      names := None;
      curPlot := Welcome;
      plots := [Welcome];
      gene := None;
      plotIndex := 0;
      this.organism := organism;
      this.organ := organ;
      entry := "";
      saveSwitchOn := false;
      saveEnabled := false;
      plotMenuEnabled := false;
      plotMenuValues := ["plot"];
      plotMenuChoice := "plot";
      shown := Welcome;
      previousEnabled := false;
      nextEnabled := false;
      new;
      DrawPlot();
    }

    /** `draw_plot`: show `cur_plot`; Previous is enabled unless on the first figure,
        Next unless on the last, so both are off when there is one figure. */
    method DrawPlot()
      requires Placed()
      modifies this`shown, this`previousEnabled, this`nextEnabled
      ensures Drawn()
      ensures shown == curPlot
      ensures previousEnabled <==> plotIndex != 0
      ensures nextEnabled <==> plotIndex != |plots| - 1
      ensures |plots| == 1 ==> !previousEnabled && !nextEnabled
    {
      shown := curPlot;
      if plotIndex == 0 {
        previousEnabled := false;
      } else {
        previousEnabled := true;
      }
      if plotIndex == |plots| - 1 {
        nextEnabled := false;
      } else {
        nextEnabled := true;
      }
    }

    /** `create_plots`, given what `make_plots` handed back for the current organism,
        organ and gene: with no figure, the "Gene not found" figure under the name
        "plot", the gene forgotten and saving off; otherwise the figures and their
        names with saving on. Either way the first figure is shown. */
    method CreatePlots(made: seq<Figure>, madeNames: seq<string>)
      requires Valid() && gene.Some?
      requires |madeNames| == |made|
      modifies this`plots, this`names, this`gene, this`saveEnabled, this`plotMenuEnabled,
        this`plotMenuValues, this`plotIndex, this`curPlot, this`plotMenuChoice, this`shown,
        this`previousEnabled, this`nextEnabled
      ensures Valid()
      ensures made == [] ==> plots == [GeneNotFound] && names == Some(["plot"]) && gene == None && !saveEnabled
      ensures made != [] ==> plots == made && names == Some(madeNames) && gene == old(gene) && saveEnabled
      ensures plotIndex == 0 && curPlot == plots[0] && plotMenuChoice == names.value[0]
    {
      if made == [] {
        saveEnabled := false;
        names := Some(["plot"]);
        plotMenuEnabled, plotMenuValues := false, ["plot"];
        plots := [GeneNotFound];
        gene := None;
      } else {
        plots, names := made, Some(madeNames);
        saveEnabled := true;
        plotMenuEnabled, plotMenuValues := true, madeNames;
      }
      ShowFirst();
    }

    /** The common end of `create_plots`: index 0, its figure and its name shown. */
    method ShowFirst()
      requires plots != [] && names.Some? && |names.value| == |plots| && plotMenuValues == names.value
      requires SaveAgrees()
      modifies this`plotIndex, this`curPlot, this`plotMenuChoice, this`shown,
        this`previousEnabled, this`nextEnabled
      ensures Valid()
      ensures plotIndex == 0 && curPlot == plots[0] && plotMenuChoice == names.value[0]
    {
      plotIndex := 0;
      curPlot := plots[plotIndex];
      plotMenuChoice := names.value[plotIndex];
      DrawPlot();
    }

    /** `callback_generate`: the gene becomes the upper-cased, stripped entry; if
        that is empty nothing else happens, otherwise the figures are rebuilt. */
    method CallbackGenerate(made: seq<Figure>, madeNames: seq<string>)
      requires Valid()
      requires |madeNames| == |made|
      modifies this`plots, this`names, this`gene, this`saveEnabled, this`plotMenuEnabled,
        this`plotMenuValues, this`plotIndex, this`curPlot, this`plotMenuChoice, this`shown,
        this`previousEnabled, this`nextEnabled
      ensures Valid()
      ensures var g := Strip(Upper(entry));
        && (g == "" ==> gene == Some("") && unchanged(this`plots, this`names, this`plotIndex, this`curPlot, this`saveEnabled))
        && (g != "" && made == [] ==> plots == [GeneNotFound] && names == Some(["plot"]) && gene == None && !saveEnabled && plotIndex == 0)
        && (g != "" && made != [] ==> plots == made && names == Some(madeNames) && gene == Some(g) && saveEnabled && plotIndex == 0)
    {
      var g := Strip(Upper(entry));
      gene := Some(g);
      if g == "" {
        return;
      }
      CreatePlots(made, madeNames);
    }

    /** `callback_options_plots`: picking a name in the plot menu shows the first
        figure carrying that name. */
    method CallbackOptionsPlots(value: string)
      requires Valid() && names.Some? && value in names.value
      modifies this`plotIndex, this`curPlot, this`plotMenuChoice, this`shown,
        this`previousEnabled, this`nextEnabled
      ensures Valid()
      ensures plotIndex == IndexOf(names.value, value) && plotMenuChoice == value
    {
      plotMenuChoice := value;
      plotIndex := IndexOf(names.value, value);
      curPlot := plots[plotIndex];
      DrawPlot();
    }

    /** `callback_numkeys`: key `k` shows figure `k` when there is one; otherwise
        nothing changes. Before the first Generate there are no names, and key 1
        raises `TypeError` at `self.names[...]` (reported as `raised`) after moving
        to the figure already shown, so the state is the same. */
    method CallbackNumkeys(key: int) returns (raised: bool)
      requires Valid()
      modifies this`plotIndex, this`curPlot, this`plotMenuChoice, this`shown,
        this`previousEnabled, this`nextEnabled
      ensures Valid()
      ensures !(1 <= key <= |plots|) ==> !raised && unchanged(this)
      ensures 1 <= key <= |plots| ==> plotIndex == key - 1 && curPlot == plots[key - 1]
      ensures raised <==> 1 <= key <= |plots| && names.None?
      ensures raised ==> unchanged(this)
    {
      raised := false;
      if key < 1 || key > |plots| {
        return;
      }
      plotIndex := key - 1;
      curPlot := plots[plotIndex];
      if names.None? {
        raised := true;
        return;
      }
      plotMenuChoice := names.value[plotIndex];
      DrawPlot();
    }

    /** `callback_next`: nothing on the last figure, otherwise one figure on. */
    method CallbackNext()
      requires Valid()
      modifies this`plotIndex, this`curPlot, this`plotMenuChoice, this`shown,
        this`previousEnabled, this`nextEnabled
      ensures Valid()
      ensures old(plotIndex) >= |plots| - 1 ==> unchanged(this)
      ensures old(plotIndex) < |plots| - 1 ==> plotIndex == old(plotIndex) + 1 && curPlot == plots[plotIndex]
    {
      if plotIndex >= |plots| - 1 {
        return;
      }
      plotIndex := plotIndex + 1;
      curPlot := plots[plotIndex];
      plotMenuChoice := names.value[plotIndex];
      DrawPlot();
    }

    /** `callback_previous`: nothing on the first figure, otherwise one figure back. */
    method CallbackPrevious()
      requires Valid()
      modifies this`plotIndex, this`curPlot, this`plotMenuChoice, this`shown,
        this`previousEnabled, this`nextEnabled
      ensures Valid()
      ensures old(plotIndex) <= 0 ==> unchanged(this)
      ensures old(plotIndex) > 0 ==> plotIndex == old(plotIndex) - 1 && curPlot == plots[plotIndex]
    {
      if plotIndex <= 0 {
        return;
      }
      plotIndex := plotIndex - 1;
      curPlot := plots[plotIndex];
      plotMenuChoice := names.value[plotIndex];
      DrawPlot();
    }

    /** `callback_save` with `save_cur_plot`. `picked` is what the folder dialog
        returns ("" when cancelled); the dialog opens only when no folder is
        remembered. Nothing happens without a gene or a folder; the folder is
        remembered only while the switch is on; the path written is returned. */
    method CallbackSave(picked: string) returns (saved: Option<string>)
      requires Valid()
      modifies this`outputDir
      ensures Valid()
      ensures var directory := if old(outputDir).None? then picked else old(outputDir).value;
        && (gene.None? || directory == "" ==> saved == None && outputDir == old(outputDir))
        && (gene.Some? && directory != "" ==>
              saved == Some(SaveFileName(directory, organism, organ, gene.value, plotIndex + 1))
              && outputDir == (if saveSwitchOn then Some(directory) else old(outputDir)))
    {
      if gene.None? {
        return None;
      }
      var directory := if outputDir.None? then picked else outputDir.value;
      if directory == "" {
        return None;
      }
      if saveSwitchOn {
        outputDir := Some(directory);
      }
      saved := Some(SaveFileName(directory, organism, organ, gene.value, plotIndex + 1));
    }

    /** `callback_switch_save`: with the switch off the remembered folder is dropped,
        which restores the invariant whichever way the switch was flipped. */
    method CallbackSwitchSave()
      requires ValidButFolder()
      modifies this`outputDir
      ensures Valid()
      ensures outputDir == if saveSwitchOn then old(outputDir) else None
    {
      if !saveSwitchOn {
        outputDir := None;
      }
    }

    /** Clicking the "Remember output folder" switch flips it and runs its callback. */
    method ToggleSaveSwitch()
      requires Valid()
      modifies this`saveSwitchOn, this`outputDir
      ensures Valid()
      ensures saveSwitchOn == !old(saveSwitchOn)
      ensures outputDir == if saveSwitchOn then old(outputDir) else None
    {
      saveSwitchOn := !saveSwitchOn;
      CallbackSwitchSave();
    }

    /** Choosing an organism in its menu. */
    method ChooseOrganism(value: string)
      requires Valid()
      modifies this`organism
      ensures Valid() && organism == value
    {
      organism := value;
    }

    /** Choosing an organ in its menu. */
    method ChooseOrgan(value: string)
      requires Valid()
      modifies this`organ
      ensures Valid() && organ == value
    {
      organ := value;
    }

    /** Typing in the gene entry. */
    method TypeEntry(text: string)
      requires Valid()
      modifies this`entry
      ensures Valid() && entry == text
    {
      entry := text;
    }
  }
}
