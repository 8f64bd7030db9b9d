/**
 The modal dialog in which the user says which columns of the loaded table
 hold the latitude, the longitude and the title of each record.
 */
module ColumnSelection {
  import opened CsvMap

  /** The text no choice may show for Save to be enabled. */
  const SelectSentinel := "Select"

  /**
   The position of the first item equal to `text` (exact, case-sensitive
   comparison), or -1 when there is none.
   */
  function FindText(items: seq<string>, text: string): (r: int)
    ensures -1 <= r < |items|
    ensures r == -1 <==> text !in items
    ensures r >= 0 ==> items[r] == text && forall j :: 0 <= j < r ==> items[j] != text
  {
    if items == [] then -1
    else if items[0] == text then 0
    else
      var k := FindText(items[1..], text);
      if k == -1 then -1 else k + 1
  }

  /** A drop-down selector: its items and the position of the current one (-1 when empty). */
  datatype Combo = Combo(items: seq<string>, index: int)
  {
    ghost predicate Valid()
    {
      -1 <= index < |items| && (index == -1 <==> items == [])
    }

    /** The text shown: the current item, or the empty string when there is none. */
    function CurrentText(): string
    {
      if 0 <= index < |items| then items[index] else ""
    }

    /** Append an item; the first item added becomes the current one. */
    function AddItem(text: string): (c: Combo)
      requires Valid()
      ensures c.Valid() && c.items == items + [text]
      ensures c.CurrentText() == if items == [] then text else CurrentText()
    {
      Combo(items + [text], if index == -1 then 0 else index)
    }

    /** Make the first item equal to `text` current; without such an item nothing changes. */
    function SetCurrentText(text: string): (c: Combo)
      requires Valid()
      ensures c.Valid() && c.items == items
      ensures text in items ==> c.CurrentText() == text
      ensures text !in items ==> c == this
    {
      var k := FindText(items, text);
      if k == -1 then this else Combo(items, k)
    }
  }

  const EmptyCombo := Combo([], -1)

  /** A selector into which `columns` were added one by one, from empty. */
  function Filled(columns: seq<string>): (c: Combo)
    ensures c.Valid() && c.items == columns && c.CurrentText() == FirstColumn(columns)
  {
    Combo(columns, if columns == [] then -1 else 0)
  }

  /**
   Save may be pressed: no choice is the sentinel and the three choices are
   pairwise different, that is, they are three distinct names none of which
   is the sentinel.
   */
  predicate SaveEnabled(lat: string, lon: string, title: string): (enabled: bool)
    ensures enabled <==> SelectSentinel !in {lat, lon, title} && |{lat, lon, title}| == 3
  {
    if lat != SelectSentinel && lon != SelectSentinel && title != SelectSentinel then
      lat != lon && lat != title && lon != title
    else
      false
  }

  /** The text a selector shows once filled with `columns` and preset to `name`. */
  function Preselected(columns: seq<string>, name: string): string
  {
    if name in columns then name else FirstColumn(columns)
  }

  /** How many of the three preset names the columns lack. */
  function MissingPresets(columns: seq<string>): nat
  {
    (if "Latitude" in columns then 0 else 1)
    + (if "Longitude" in columns then 0 else 1)
    + (if "Title" in columns then 0 else 1)
  }

  /**
   The preselection already satisfies the enable rule: all three preset names
   are columns, or just one is missing and the first column, which stands in
   for it, is neither the sentinel nor one of the other two preset names.
   */
  ghost predicate PreselectionPasses(columns: seq<string>)
  {
    || MissingPresets(columns) == 0
    || (&& MissingPresets(columns) == 1
        && |columns| > 0
        && columns[0] != SelectSentinel
        && columns[0] !in {"Latitude", "Longitude", "Title"})
  }

  /**
   Exactly when the three preselected choices satisfy the enable rule. Save
   starts enabled whatever the columns, so for every other table a fresh
   dialog accepts choices that the rule refuses.
   */
  lemma PreselectionRule(columns: seq<string>)
    ensures var lat, lon, title :=
      Preselected(columns, "Latitude"), Preselected(columns, "Longitude"), Preselected(columns, "Title");
      SaveEnabled(lat, lon, title) <==> PreselectionPasses(columns)
  {
  }

  /** Which of the three selectors the user changes. */
  datatype Selector = LatitudeSelector | LongitudeSelector | TitleSelector

  class ColumnSelectionDialog {
    const parent: MainWindow
    const df: Table
    var latitudeCombo: Combo
    var longitudeCombo: Combo
    var titleCombo: Combo
    var saveEnabled: bool
    var accepted: bool

    /** Every selector offers exactly the table's columns, in column order. */
    ghost predicate Valid()
      reads this
    {
      && latitudeCombo.Valid() && longitudeCombo.Valid() && titleCombo.Valid()
      && latitudeCombo.items == df.columns
      && longitudeCombo.items == df.columns
      && titleCombo.items == df.columns
    }

    function LatitudeText(): string
      reads this
    {
      latitudeCombo.CurrentText()
    }

    function LongitudeText(): string
      reads this
    {
      longitudeCombo.CurrentText()
    }

    function TitleText(): string
      reads this
    {
      titleCombo.CurrentText()
    }

    /**
     Fill the three selectors with the columns, preselect the columns named
     exactly Latitude, Longitude and Title where they exist, and leave Save
     enabled without checking the preselection.
     */
    constructor (parent: MainWindow, df: Table)
      ensures Valid()
      ensures this.parent == parent && this.df == df
      ensures LatitudeText() == Preselected(df.columns, "Latitude")
      ensures LongitudeText() == Preselected(df.columns, "Longitude")
      ensures TitleText() == Preselected(df.columns, "Title")
      ensures saveEnabled && !accepted
    {
      var columns := df.columns;
      var lat, lon, title := EmptyCombo, EmptyCombo, EmptyCombo;
      for i := 0 to |columns|
        invariant lat == lon == title == Filled(columns[..i])
      {
        assert columns[..i + 1] == columns[..i] + [columns[i]];
        lat := lat.AddItem(columns[i]);
        lon := lon.AddItem(columns[i]);
        title := title.AddItem(columns[i]);
      }
      assert columns[..|columns|] == columns;
      if "Latitude" in columns {
        lat := lat.SetCurrentText("Latitude");
      }
      if "Longitude" in columns {
        lon := lon.SetCurrentText("Longitude");
      }
      if "Title" in columns {
        title := title.SetCurrentText("Title");
      }
      this.parent := parent;
      this.df := df;
      latitudeCombo, longitudeCombo, titleCombo := lat, lon, title;
      saveEnabled, accepted := true, false;
    }

    /** Recompute whether Save may be pressed from the three current choices. */
    method CheckSaveButton()
      modifies this`saveEnabled
      ensures saveEnabled == SaveEnabled(LatitudeText(), LongitudeText(), TitleText())
    {
      var lat, lon, title := LatitudeText(), LongitudeText(), TitleText();
      if lat != SelectSentinel && lon != SelectSentinel && title != SelectSentinel {
        if lat != lon && lat != title && lon != title {
          saveEnabled := true;
        } else {
          saveEnabled := false;
        }
      } else {
        saveEnabled := false;
      }
    }

    /**
     The user picks item `i` of one selector. Only a change of the current
     item triggers the Save check; picking the current item again changes nothing.
     */
    method Choose(which: Selector, i: int)
      requires Valid() && !accepted
      requires 0 <= i < |df.columns|
      modifies this`latitudeCombo, this`longitudeCombo, this`titleCombo, this`saveEnabled
      ensures Valid()
      ensures LatitudeText() == if which.LatitudeSelector? then df.columns[i] else old(LatitudeText())
      ensures LongitudeText() == if which.LongitudeSelector? then df.columns[i] else old(LongitudeText())
      ensures TitleText() == if which.TitleSelector? then df.columns[i] else old(TitleText())
      ensures old(Current(which)) == i ==> saveEnabled == old(saveEnabled)
      ensures old(Current(which)) != i ==> saveEnabled == SaveEnabled(LatitudeText(), LongitudeText(), TitleText())
    {
      var changed := false;
      match which {
        case LatitudeSelector =>
          if latitudeCombo.index != i {
            latitudeCombo := Combo(latitudeCombo.items, i);
            changed := true;
          }
        case LongitudeSelector =>
          if longitudeCombo.index != i {
            longitudeCombo := Combo(longitudeCombo.items, i);
            changed := true;
          }
        case TitleSelector =>
          if titleCombo.index != i {
            titleCombo := Combo(titleCombo.items, i);
            changed := true;
          }
      }
      if changed {
        CheckSaveButton();
      }
    }

    /** The position of the current item of one selector. */
    function Current(which: Selector): int
      reads this
    {
      match which
      case LatitudeSelector => latitudeCombo.index
      case LongitudeSelector => longitudeCombo.index
      case TitleSelector => titleCombo.index
    }

    /**
     Save was pressed (possible only while it is enabled): hand the three
     current names, latitude first, to the window's extraction, and close the
     dialog if that completed. While the dialog runs, the window's table is
     the dialog's, so every choice is a column and no lookup can fail.
     */
    method SaveAndClose() returns (outcome: Outcome)
      requires Valid() && saveEnabled && !accepted
      requires parent.Valid() && parent.df == Some(df)
      modifies this`accepted, parent
      ensures parent.Valid()
      ensures outcome == Done || outcome == NonNumeric
      ensures parent.Saved(old(LatitudeText()), old(LongitudeText()), old(TitleText()), outcome)
      ensures accepted == (old(accepted) || outcome == Done)
    {
      var lat, lon, title := LatitudeText(), LongitudeText(), TitleText();
      assert Extractable(df, lat, lon, title);
      outcome := parent.SaveData(lat, lon, title);
      if outcome == Done {
        accepted := true;
      }
    }
  }

  /**
   The window opens the dialog on its own table: every selector shows its
   preselected column, Save starts enabled, and the enable rule agrees with
   that exactly when the preselection passes it.
   */
  method ShowDialog(parent: MainWindow) returns (d: ColumnSelectionDialog)
    requires parent.df.Some?
    ensures fresh(d) && d.Valid() && d.parent == parent && parent.df == Some(d.df) && !d.accepted
    ensures d.LatitudeText() == Preselected(d.df.columns, "Latitude")
    ensures d.LongitudeText() == Preselected(d.df.columns, "Longitude")
    ensures d.TitleText() == Preselected(d.df.columns, "Title")
    ensures d.saveEnabled
    ensures SaveEnabled(d.LatitudeText(), d.LongitudeText(), d.TitleText()) <==> PreselectionPasses(d.df.columns)
  {
    d := new ColumnSelectionDialog(parent, parent.df.value);
    PreselectionRule(d.df.columns);
  }

  /** The text a freshly filled selector shows: its first item, or nothing. */
  function FirstColumn(columns: seq<string>): string
  {
    if columns == [] then "" else columns[0]
  }
}
