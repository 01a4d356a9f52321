/**
 * The help listing: one item per option with its usage fragment, split
 * into required and optional lists, printed as tab-separated lines padded
 * to a common width.
 */
module HelpText {
  import opened Descriptors

  /** `HelpItem`: an `@CLI` record with the usage and help text built from it once. */
  datatype HelpItem = HelpItem(cli: CLI) {

    /** `-name`, then `, -alias` when there is one, a space, and `<argument>` unless a flag. */
    function Usage(): (usage: string)
      ensures |usage| >= 2 && usage[0] == '-'
    {
      "-" + cli.name + (if cli.alias != "" then ", -" + cli.alias else "") + " " + (if cli.flag then "" else "<argument>")
    }

    /** The text printed after the usage: the description. */
    function Help(): (help: string)
      ensures help == cli.description
    {
      cli.description
    }
  }

  predicate EndsWithArgument(s: string) {
    |s| >= 10 && s[|s| - 10..] == "<argument>"
  }

  /**
   * The usage fragment's layout: the dashed name, `, -alias` exactly when
   * the option has an alias, a space, and `<argument>` exactly when the
   * option takes a value.
   */
  lemma UsageShape(item: HelpItem)
    ensures var usage := item.Usage(); var name := item.cli.name; var alias := item.cli.alias;
      && |usage| == 2 + |name| + (if alias != "" then 3 + |alias| else 0) + (if item.cli.flag then 0 else 10)
      && usage[..1 + |name|] == "-" + name
      && (alias != "" <==> usage[1 + |name|] == ',')
      && (alias != "" ==> usage[1 + |name|..4 + |name| + |alias|] == ", -" + alias)
      && usage[1 + |name| + (if alias != "" then 3 + |alias| else 0)] == ' '
      && (!item.cli.flag <==> EndsWithArgument(usage))
      && (item.cli.flag ==> usage[|usage| - 1] == ' ')
  {
    var cli := item.cli;
    var dashed := "-" + cli.name;
    var names := dashed + (if cli.alias != "" then ", -" + cli.alias else "");
    var usage := names + " " + (if cli.flag then "" else "<argument>");
    assert usage == item.Usage();
    assert usage[..|dashed|] == dashed;
    assert usage[..|names|] == names;
    if cli.alias != "" {
      assert names[|dashed|..] == ", -" + cli.alias;
    }
    if !cli.flag {
      assert usage[|usage| - 10..] == "<argument>";
    }
  }

  function Spaces(n: nat): (r: string)
    ensures |r| == n && forall i :: 0 <= i < n ==> r[i] == ' '
  {
    if n == 0 then "" else Spaces(n - 1) + " "
  }

  /**
   * `padRight(s, n)`, i.e. `String.format("%1$-" + n + "s", s)`: `s` left
   * justified in a field of `n`. The format string is malformed for n <= 0
   * (a '-' flag without width), so n must be positive.
   */
  function PadRight(s: string, n: int): (r: string)
    requires n >= 1
    ensures |r| == if n > |s| then n else |s|
    ensures r[..|s|] == s
    ensures forall i :: |s| <= i < |r| ==> r[i] == ' '
  {
    if n > |s| then s + Spaces(n - |s|) else s
  }

  /** The longest usage among `items`, 0 for none. */
  function Width(items: seq<HelpItem>): (w: nat)
    ensures items == [] ==> w == 0
    ensures items != [] ==> w >= 2
  {
    if items == [] then 0
    else
      var rest := Width(items[..|items| - 1]);
      var last := |items[|items| - 1].Usage()|;
      if last > rest then last else rest
  }

  /** Extending a listing by one item: the width grows to that item's usage if it is longer. */
  lemma WidthStep(items: seq<HelpItem>, i: nat)
    requires i < |items|
    ensures var w := Width(items[..i]); var u := |items[i].Usage()|;
      Width(items[..i + 1]) == if u > w then u else w
  {
    assert items[..i + 1][..i] == items[..i];
  }

  /** The same step for a listing that follows a complete one. */
  lemma WidthStepAfter(front: seq<HelpItem>, back: seq<HelpItem>, i: nat)
    requires i < |back|
    ensures var w := Width(front + back[..i]); var u := |back[i].Usage()|;
      Width(front + back[..i + 1]) == if u > w then u else w
  {
    var items := front + back[..i + 1];
    assert items[..|items| - 1] == front + back[..i];
    assert items[|items| - 1] == back[i];
  }

  /** No usage in `items` is longer than their width. */
  lemma {:induction false} WidthBound(items: seq<HelpItem>, i: nat)
    requires i < |items|
    ensures |items[i].Usage()| <= Width(items)
  {
    if i < |items| - 1 {
      var front := items[..|items| - 1];
      WidthBound(front, i);
      assert items[i] == front[i];
    }
  }

  /** The width of a non-empty listing is the length of one of its usages. */
  lemma {:induction false} WidthAttained(items: seq<HelpItem>) returns (k: nat)
    requires items != []
    ensures k < |items| && |items[k].Usage()| == Width(items)
  {
    var front := items[..|items| - 1];
    if front == [] || |items[|items| - 1].Usage()| > Width(front) {
      k := |items| - 1;
    } else {
      k := WidthAttained(front);
      assert items[k] == front[k];
    }
  }

  /** One printed item: tab, usage padded to `width`, tab, help. */
  function ItemLine(item: HelpItem, width: int): string
    requires width >= 1
  {
    "\t" + PadRight(item.Usage(), width) + "\t" + item.Help()
  }

  /**
   * With a width at least as long as the usage, an item's line is the tab,
   * the usage, spaces up to the width, the tab and the help text: every help
   * text of a listing starts in the same column.
   */
  lemma ItemLineLayout(item: HelpItem, width: int)
    requires width >= 1 && width >= |item.Usage()|
    ensures var line := ItemLine(item, width); var usage := item.Usage();
      && |line| == width + 2 + |item.Help()|
      && line[0] == '\t' && line[width + 1] == '\t'
      && line[1..1 + |usage|] == usage
      && (forall k :: 1 + |usage| <= k < 1 + width ==> line[k] == ' ')
      && line[width + 2..] == item.Help()
  {
    var usage := item.Usage();
    var pad := PadRight(usage, width);
    var line := ItemLine(item, width);
    var front := "\t" + pad;
    assert line == front + "\t" + item.Help();
    assert |front| == width + 1;
    assert line[..width + 1] == front;
    assert front[1..] == pad;
    assert line[1..1 + width] == pad;
    assert line[1..1 + |usage|] == pad[..|usage|];
  }

  /** The lines of `items`, in order. */
  function ItemLines(items: seq<HelpItem>, width: int): (lines: seq<string>)
    requires width >= 1
    ensures |lines| == |items|
  {
    if items == [] then [] else ItemLines(items[..|items| - 1], width) + [ItemLine(items[|items| - 1], width)]
  }

  /** Extending a listing by one item appends that item's line. */
  lemma ItemLinesStep(items: seq<HelpItem>, width: int, i: nat)
    requires width >= 1 && i < |items|
    ensures ItemLines(items[..i + 1], width) == ItemLines(items[..i], width) + [ItemLine(items[i], width)]
  {
    assert items[..i + 1][..i] == items[..i];
  }

  /** A listing: its header and one line per item, or nothing when it has no items. */
  function Section(header: string, items: seq<HelpItem>, width: int): (lines: seq<string>)
    requires items == [] || width >= 1
  {
    if items == [] then [] else [header] + ItemLines(items, width)
  }

  /** Line `i` of a listing's items is item `i`'s line. */
  lemma {:induction false} ItemLinesAt(items: seq<HelpItem>, width: int, i: nat)
    requires width >= 1 && i < |items|
    ensures ItemLines(items, width)[i] == ItemLine(items[i], width)
  {
    if i < |items| - 1 {
      var front := items[..|items| - 1];
      ItemLinesAt(front, width, i);
      assert items[i] == front[i];
    }
  }

  /**
   * A non-empty listing prints its header first and then, on line 1 + i,
   * item i; an empty one prints nothing, not even its header.
   */
  lemma SectionLines(header: string, items: seq<HelpItem>, width: int)
    requires items == [] || width >= 1
    ensures items == [] ==> Section(header, items, width) == []
    ensures items != [] ==> |Section(header, items, width)| == 1 + |items| && Section(header, items, width)[0] == header
    ensures items != [] ==> forall i :: 0 <= i < |items| ==> Section(header, items, width)[1 + i] == ItemLine(items[i], width)
  {
    if items != [] {
      forall i | 0 <= i < |items| ensures Section(header, items, width)[1 + i] == ItemLine(items[i], width) {
        ItemLinesAt(items, width, i);
      }
    }
  }

  /**
   * In the printed help every item line lays its usage out in a field as
   * wide as the longest usage of both listings, so all help texts line up.
   */
  lemma PrintedItemsAligned(required: seq<HelpItem>, optional: seq<HelpItem>, i: nat)
    requires i < |required + optional|
    ensures var all := required + optional; var w := Width(all);
      w >= 1 && w >= |all[i].Usage()| &&
      var line := ItemLine(all[i], w);
      line[0] == '\t' && line[1..1 + |all[i].Usage()|] == all[i].Usage() && line[w + 2..] == all[i].Help()
  {
    var all := required + optional;
    WidthBound(all, i);
    ItemLineLayout(all[i], Width(all));
  }

  lemma AppendAssociates<T>(a: seq<T>, b: seq<T>, c: seq<T>)
    ensures a + b + c == a + (b + c)
  {
  }

  class Help {
    var required: seq<HelpItem>
    var optional: seq<HelpItem>

    /** Each list holds only items of its own kind. */
    ghost predicate Valid()
      reads this
    {
      && (forall i :: 0 <= i < |required| ==> required[i].cli.required)
      && (forall i :: 0 <= i < |optional| ==> !optional[i].cli.required)
    }

    constructor ()
      ensures Valid() && required == [] && optional == []
    {
      required := [];
      optional := [];
    }

    /** `add`: append to the list the item's `required` flag selects, leaving the other alone. */
    method Add(helpItem: HelpItem)
      requires Valid()
      modifies this
      ensures Valid()
      ensures helpItem.cli.required ==> required == old(required) + [helpItem] && optional == old(optional)
      ensures !helpItem.cli.required ==> optional == old(optional) + [helpItem] && required == old(required)
    {
      if helpItem.cli.required {
        required := required + [helpItem];
      } else {
        optional := optional + [helpItem];
      }
    }

    /** `getMaxKeyLength`: the longest usage across both lists, 0 when both are empty. */
    method GetMaxKeyLength() returns (maxLength: nat)
      ensures maxLength == Width(required + optional)
    {
      maxLength := 0;
      for i := 0 to |required|
        invariant maxLength == Width(required[..i])
      {
        WidthStep(required, i);
        var keyLength := |required[i].Usage()|;
        if keyLength > maxLength {
          maxLength := keyLength;
        }
      }
      assert required + optional[..0] == required[..|required|];
      for i := 0 to |optional|
        invariant maxLength == Width(required + optional[..i])
      {
        WidthStepAfter(required, optional, i);
        var keyLength := |optional[i].Usage()|;
        if keyLength > maxLength {
          maxLength := keyLength;
        }
      }
      assert optional[..|optional|] == optional;
    }

    /**
     * `printHelpText`, as the lines it prints: a "Usage: " header and the
     * required items when there are any, then an "Optional: " header and the
     * optional items when there are any, each item padded to the width of
     * the longest usage in either list.
     */
    method PrintHelpText() returns (lines: seq<string>)
      requires Valid()
      ensures var width := Width(required + optional);
        lines == Section("Usage: ", required, width) + Section("Optional: ", optional, width)
    {
      var maxLength := GetMaxKeyLength();
      var requiredOptions := required;
      assert forall i :: 0 <= i < |requiredOptions| ==> requiredOptions[i].cli.required;
      lines := [];
      if requiredOptions != [] {
        lines := lines + ["Usage: "];
        for i := 0 to |requiredOptions|
          invariant lines == ["Usage: "] + ItemLines(requiredOptions[..i], maxLength)
        {
          var helpItem := requiredOptions[i];
          ItemLinesStep(requiredOptions, maxLength, i);
          AppendAssociates(["Usage: "], ItemLines(requiredOptions[..i], maxLength), [ItemLine(helpItem, maxLength)]);
          if helpItem.cli.required {
            lines := lines + [ItemLine(helpItem, maxLength)];
          }
        }
        assert requiredOptions[..|requiredOptions|] == requiredOptions;
      }
      ghost var head := lines;
      assert head == Section("Usage: ", requiredOptions, maxLength);
      var optionalOptions := optional;
      assert forall i :: 0 <= i < |optionalOptions| ==> !optionalOptions[i].cli.required;
      if optionalOptions != [] {
        lines := lines + ["Optional: "];
        ghost var front := lines;
        for i := 0 to |optionalOptions|
          invariant lines == front + ItemLines(optionalOptions[..i], maxLength)
        {
          var helpItem := optionalOptions[i];
          ItemLinesStep(optionalOptions, maxLength, i);
          AppendAssociates(front, ItemLines(optionalOptions[..i], maxLength), [ItemLine(helpItem, maxLength)]);
          if !helpItem.cli.required {
            lines := lines + [ItemLine(helpItem, maxLength)];
          }
        }
        assert optionalOptions[..|optionalOptions|] == optionalOptions;
        AppendAssociates(head, ["Optional: "], ItemLines(optionalOptions, maxLength));
      } else {
        assert lines == head + [];
      }
    }
  }
}
