/** subcommands.py: the module-level listing of subcommands and their descriptions, which
    the command modules extend at start-up and the `help` subcommand prints. */
module Subcommands {
  import opened Strings

  const HelpDescription: string := "list available subcommands"

  /** What the first `print` of `list_subcommands` writes, before its own newline. */
  const ListingHeader: string := "\nThe following subcommands are available:\n"

  /** `"{0} ({1})".format(description, ",".join(aliases))`. */
  function Described(description: string, aliases: seq<string>): (r: string)
    ensures |r| == |description| + |Join(aliases, ",")| + 3
    ensures r[..|description|] == description && r[|description|..|description| + 2] == " ("
    ensures r[|r| - 1] == ')'
  {
    description + " (" + Join(aliases, ",") + ")"
  }

  /** With no aliases the parentheses are empty; a single alias appears alone. */
  lemma DescribedAliases(description: string, alias: string)
    ensures Described(description, []) == description + " ()"
    ensures Described(description, [alias]) == description + " (" + alias + ")"
  {
  }

  /** The aliases can be read back from an entry: what lies between " (" and the closing
      parenthesis splits on "," into the aliases, when there is at least one and none of
      them holds a comma. */
  lemma DescribedAliasesReadBack(description: string, aliases: seq<string>)
    requires aliases != [] && forall i :: 0 <= i < |aliases| ==> ',' !in aliases[i]
    ensures var r := Described(description, aliases);
      Split(r[|description| + 2..|r| - 1], ',', |aliases|) == aliases
  {
    var r := Described(description, aliases);
    assert r[|description| + 2..|r| - 1] == Join(aliases, ",");
    SplitJoin(aliases, ',', |aliases|);
  }

  /** `"    {0}: {1}".format(subcommand, description)`. */
  function EntryLine(subcommand: string, description: string): string
  {
    "    " + subcommand + ": " + description
  }

  /** The `subcommands` dictionary. */
  class Registry {
    var descriptions: map<string, string>

    /** The listing as the module defines it: `help` alone. */
    constructor ()
      ensures descriptions == map["help" := HelpDescription]
    {
      descriptions := map["help" := HelpDescription];
    }

    /** `add_subcommand_description`: set (or overwrite) one entry, leave the others alone. */
    method AddSubcommandDescription(subcommand: string, aliases: seq<string>, description: string)
      modifies this
      ensures descriptions == old(descriptions)[subcommand := Described(description, aliases)]
      ensures subcommand in descriptions && descriptions[subcommand] == Described(description, aliases)
      ensures forall k :: k != subcommand ==>
        (k in descriptions <==> k in old(descriptions))
        && (k in descriptions ==> descriptions[k] == old(descriptions)[k])
    {
      descriptions := descriptions[subcommand := Described(description, aliases)];
    }

    /** `list_subcommands`: the header, then one line per subcommand, each once and in
        ascending order of name. */
    method ListSubcommands() returns (lines: seq<string>)
      ensures var keys := SortedSet(descriptions.Keys);
        && |lines| == |descriptions| + 1
        && lines[0] == ListingHeader
        && (forall i :: 0 <= i < |keys| ==> lines[i + 1] == EntryLine(keys[i], descriptions[keys[i]]))
    {
      var entries := descriptions;
      var keys := SortedSet(entries.Keys);
      lines := [ListingHeader];
      for i := 0 to |keys|
        invariant |lines| == i + 1 && lines[0] == ListingHeader
        invariant forall j :: 0 <= j < i ==> lines[j + 1] == EntryLine(keys[j], entries[keys[j]])
      {
        var line := EntryLine(keys[i], entries[keys[i]]);
        lines := lines + [line];
        assert lines[i + 1] == line;
      }
    }
  }

  /** Before any module registers itself, the listing is the header and the `help` line. */
  lemma InitialListing()
    ensures SortedSet(map["help" := HelpDescription].Keys) == ["help"]
  {
    var keys := SortedSet(map["help" := HelpDescription].Keys);
    assert "help" in keys;
  }
}
