/** Help list formatting (ui/HelpFormatter.kt): one padded line per entry,
    the lines joined by newlines. */
module HelpFormat {
  import opened Strings

  /** `"  ${name.padEnd(20)} $desc"`. */
  function CommandLine(name: string, desc: string): string
  {
    "  " + PadEnd(name, 20) + " " + desc
  }

  function CommandLines(commands: seq<(string, string)>): (r: seq<string>)
    ensures |r| == |commands|
    ensures forall k :: 0 <= k < |r| ==> r[k] == CommandLine(commands[k].0, commands[k].1)
  {
    seq(|commands|, k requires 0 <= k < |commands| => CommandLine(commands[k].0, commands[k].1))
  }

  /** `formatCommandList`: the entries' lines joined by newlines. */
  function FormatCommandList(commands: seq<(string, string)>): string
  {
    Join("\n", CommandLines(commands))
  }

  /** `"-$short, --$long"`. */
  function Flags(short: string, long: string): string
  {
    "-" + short + ", --" + long
  }

  /** `"  ${flags.padEnd(25)} $desc"`. */
  function OptionLine(short: string, long: string, desc: string): string
  {
    "  " + PadEnd(Flags(short, long), 25) + " " + desc
  }

  function OptionLines(options: seq<(string, string, string)>): (r: seq<string>)
    ensures |r| == |options|
    ensures forall k :: 0 <= k < |r| ==> r[k] == OptionLine(options[k].0, options[k].1, options[k].2)
  {
    seq(|options|, k requires 0 <= k < |options| => OptionLine(options[k].0, options[k].1, options[k].2))
  }

  /** `formatOptionsList`: the options' lines joined by newlines. */
  function FormatOptionsList(options: seq<(string, string, string)>): string
  {
    Join("\n", OptionLines(options))
  }

  // ---------------------------------------------------------------------
  // Properties

  /** A command line is two spaces, the name intact, spaces up to column
      22 at least, one space of separation and the description. */
  lemma CommandLineLayout(name: string, desc: string)
    ensures var line := CommandLine(name, desc);
      var w := if |name| < 20 then 20 else |name|;
      && |line| == 2 + w + 1 + |desc|
      && line[..2] == "  "
      && line[2..2 + |name|] == name
      && (forall k :: 2 + |name| <= k <= 2 + w ==> line[k] == ' ')
      && line[3 + w..] == desc
  {
    var line := CommandLine(name, desc);
    var p := PadEnd(name, 20);
    assert line == "  " + p + " " + desc;
    assert line[2..2 + |p|] == p;
    assert p[..|name|] == name;
    assert line[2..2 + |name|] == p[..|name|];
  }

  /** An option line is two spaces, the flags padded to 25 columns, one
      space of separation and the description. */
  lemma OptionLineLayout(short: string, long: string, desc: string)
    ensures var line := OptionLine(short, long, desc);
      var f := Flags(short, long);
      var w := if |f| < 25 then 25 else |f|;
      && |line| == 2 + w + 1 + |desc|
      && line[..2] == "  "
      && line[2..2 + |f|] == f
      && (forall k :: 2 + |f| <= k <= 2 + w ==> line[k] == ' ')
      && line[3 + w..] == desc
  {
    var line := OptionLine(short, long, desc);
    var f := Flags(short, long);
    var p := PadEnd(f, 25);
    assert line == "  " + p + " " + desc;
    assert line[2..2 + |p|] == p;
    assert p[..|f|] == f;
    assert line[2..2 + |f|] == p[..|f|];
  }

  /** The empty list formats as the empty string; a single entry as its line. */
  lemma FormatCommandListSmall(commands: seq<(string, string)>)
    ensures commands == [] ==> FormatCommandList(commands) == ""
    ensures |commands| == 1 ==> FormatCommandList(commands) == CommandLine(commands[0].0, commands[0].1)
  {
  }

  /** Entries come out in input order, one line each, separated by one
      newline: formatting two lists one after the other is formatting their
      concatenation. */
  lemma FormatCommandListAppend(a: seq<(string, string)>, b: seq<(string, string)>)
    requires a != [] && b != []
    ensures FormatCommandList(a + b) == FormatCommandList(a) + "\n" + FormatCommandList(b)
  {
    assert CommandLines(a + b) == CommandLines(a) + CommandLines(b);
    JoinAppend("\n", CommandLines(a), CommandLines(b));
  }

  /** Every command name, however long, appears intact in the list. */
  lemma NamesAppearIntact(commands: seq<(string, string)>, k: nat)
    requires k < |commands|
    ensures Occurs(commands[k].0, FormatCommandList(commands))
  {
    var lines := CommandLines(commands);
    var name := commands[k].0;
    var line := lines[k];
    CommandLineLayout(name, commands[k].1);
    assert OccursAt(name, line, 2);
    OccursInJoin("\n", lines, k);
    OccursTrans(name, line, FormatCommandList(commands));
  }

  /** The empty option list formats as the empty string; a single option as
      its line. */
  lemma FormatOptionsListSmall(options: seq<(string, string, string)>)
    ensures options == [] ==> FormatOptionsList(options) == ""
    ensures |options| == 1 ==> FormatOptionsList(options) == OptionLine(options[0].0, options[0].1, options[0].2)
  {
  }

  /** Options come out in input order, one line each. */
  lemma FormatOptionsListAppend(a: seq<(string, string, string)>, b: seq<(string, string, string)>)
    requires a != [] && b != []
    ensures FormatOptionsList(a + b) == FormatOptionsList(a) + "\n" + FormatOptionsList(b)
  {
    assert OptionLines(a + b) == OptionLines(a) + OptionLines(b);
    JoinAppend("\n", OptionLines(a), OptionLines(b));
  }

  /** Both spellings of every option appear in the list, as `-short, --long`. */
  lemma FlagsAppearIntact(options: seq<(string, string, string)>, k: nat)
    requires k < |options|
    ensures Occurs(Flags(options[k].0, options[k].1), FormatOptionsList(options))
  {
    var lines := OptionLines(options);
    var f := Flags(options[k].0, options[k].1);
    OptionLineLayout(options[k].0, options[k].1, options[k].2);
    assert OccursAt(f, lines[k], 2);
    OccursInJoin("\n", lines, k);
    OccursTrans(f, lines[k], FormatOptionsList(options));
  }
}
