/**
 * The render-all-templates script: it rewrites the template-import line of
 * a scene file once per template name, renders each rewritten copy and
 * counts the renders that succeed and fail. Reading and writing files and
 * running the renderer are left to the caller; what is kept is the line
 * rewrite, the output name and the count.
 */
module Tooling {
  import opened PyStr

  /** The template names the script renders with, in order. */
  const Templates: seq<string> := [
    "beamer_blue", "beamer_green", "blue_ice", "dark_energy",
    "default_template", "green_mint", "quantum_dusk", "red_autumn"
  ]

  /** The text that marks the template-import line. */
  const Marker: string := "import_string_cosmo_template"

  /** The line a marker line becomes: the call with the quoted name. */
  function ImportLine(name: string): string
  {
    Marker + "(\"" + name + "\")"
  }

  /** The rewrite of one line. */
  function RewriteLine(line: string, name: string): string
  {
    if Contains(line, Marker) then ImportLine(name) else line
  }

  /** The rewrite of every line, in order. */
  function RewriteLines(lines: seq<string>, name: string): (r: seq<string>)
    ensures |r| == |lines|
    ensures forall i :: 0 <= i < |lines| ==> r[i] == RewriteLine(lines[i], name)
  {
    if lines == [] then [] else [RewriteLine(lines[0], name)] + RewriteLines(lines[1..], name)
  }

  /** What `modify_template_import(content, name)` returns. */
  function ModifiedContent(content: string, name: string): string
  {
    Join(RewriteLines(Split(content, '\n'), name), '\n')
  }

  /** `modify_template_import`: split into lines, rewrite each, join. */
  method ModifyTemplateImport(content: string, name: string) returns (r: string)
    ensures r == ModifiedContent(content, name)
  {
    var lines := Split(content, '\n');
    var modified: seq<string> := [];
    var i := 0;
    while i < |lines|
      invariant 0 <= i <= |lines|
      invariant |modified| == i
      invariant forall j :: 0 <= j < i ==> modified[j] == RewriteLine(lines[j], name)
    {
      if Contains(lines[i], Marker) {
        modified := modified + [ImportLine(name)];
      } else {
        modified := modified + [lines[i]];
      }
      i := i + 1;
    }
    assert modified == RewriteLines(lines, name);
    r := Join(modified, '\n');
  }

  /** The import line holds the marker. */
  lemma ImportLineIsMarked(name: string)
    ensures Contains(ImportLine(name), Marker)
  {
    ContainsPrefix(ImportLine(name), Marker);
  }

  /** The import line is a single line when the name is. */
  lemma ImportLineIsOneLine(name: string)
    requires '\n' !in name
    ensures '\n' !in ImportLine(name)
  {
    var l := ImportLine(name);
    assert l == Marker + "(\"" + name + "\")";
    forall i | 0 <= i < |l| ensures l[i] != '\n' {
      if i < |Marker| + 2 {
        assert l[i] == (Marker + "(\"")[i];
      } else if i < |Marker| + 2 + |name| {
        assert l[i] == name[i - |Marker| - 2];
      } else {
        assert l[i] == "\")"[i - |Marker| - 2 - |name|];
      }
    }
  }

  /** Rewritten lines hold no newline when the name holds none. */
  lemma RewrittenAreLines(lines: seq<string>, name: string)
    requires '\n' !in name
    requires forall i :: 0 <= i < |lines| ==> '\n' !in lines[i]
    ensures forall i :: 0 <= i < |lines| ==> '\n' !in RewriteLines(lines, name)[i]
  {
    ImportLineIsOneLine(name);
  }

  /** The lines of the result, for a name on one line: a marker line is
      replaced by the import line alone (its indentation and other text
      dropped), every other line is kept, in order, and no line is added or
      lost. */
  lemma ModifiedLines(content: string, name: string)
    requires '\n' !in name
    ensures var lines := Split(content, '\n');
            var out := Split(ModifiedContent(content, name), '\n');
            |out| == |lines| &&
            forall i :: 0 <= i < |lines| ==>
              out[i] == (if Contains(lines[i], Marker) then ImportLine(name) else lines[i])
  {
    var lines := Split(content, '\n');
    RewrittenAreLines(lines, name);
    SplitJoin(RewriteLines(lines, name), '\n');
  }

  /** Without a marker line the content comes back unchanged. */
  lemma {:induction false} UnmarkedUnchanged(content: string, name: string)
    requires forall i :: 0 <= i < |Split(content, '\n')| ==> !Contains(Split(content, '\n')[i], Marker)
    ensures ModifiedContent(content, name) == content
  {
    var lines := Split(content, '\n');
    assert RewriteLines(lines, name) == lines;
    JoinSplit(content, '\n');
  }

  /** Rewriting twice with the same name changes nothing more. */
  lemma Idempotent(content: string, name: string)
    requires '\n' !in name
    ensures ModifiedContent(ModifiedContent(content, name), name) == ModifiedContent(content, name)
  {
    LastWins(content, name, name);
  }

  /** A second rewrite with another name replaces the first one: the result
      is as if only the second had been made. */
  lemma LastWins(content: string, first: string, second: string)
    requires '\n' !in first
    ensures ModifiedContent(ModifiedContent(content, first), second) == ModifiedContent(content, second)
  {
    var lines := Split(content, '\n');
    var mid := RewriteLines(lines, first);
    RewrittenAreLines(lines, first);
    SplitJoin(mid, '\n');
    ImportLineIsMarked(first);
    assert RewriteLines(mid, second) == RewriteLines(lines, second);
  }

  /** The render output name `<scene>_<template>`. */
  function OutputName(scene: string, template: string): string
  {
    scene + "_" + template
  }

  /** Renders of one scene with different templates never share an output
      name. */
  lemma OutputNamesDistinct(scene: string, t1: string, t2: string)
    requires t1 != t2
    ensures OutputName(scene, t1) != OutputName(scene, t2)
  {
    var p := scene + "_";
    assert OutputName(scene, t1)[|p|..] == t1;
    assert OutputName(scene, t2)[|p|..] == t2;
  }

  /** The number of `true` outcomes. */
  function Successes(outcomes: seq<bool>): (n: nat)
    ensures n <= |outcomes|
  {
    if outcomes == [] then 0 else (if outcomes[0] then 1 else 0) + Successes(outcomes[1..])
  }

  /** The counting loop of `main`: one outcome per template tried, in order. */
  method CountOutcomes(outcomes: seq<bool>) returns (success: nat, fail: nat)
    ensures success == Successes(outcomes)
    ensures success + fail == |outcomes|
  {
    success, fail := 0, 0;
    var i := 0;
    while i < |outcomes|
      invariant 0 <= i <= |outcomes|
      invariant success + Successes(outcomes[i..]) == Successes(outcomes)
      invariant success + fail == i
    {
      assert outcomes[i..][1..] == outcomes[i + 1..];
      if outcomes[i] {
        success := success + 1;
      } else {
        fail := fail + 1;
      }
      i := i + 1;
    }
  }

  /** The script tries eight distinct templates, so a full run reports eight
      outcomes, and every output name is its own. */
  lemma TemplatesTriedOnce()
    ensures |Templates| == 8
    ensures forall i, j :: 0 <= i < j < |Templates| ==> Templates[i] != Templates[j]
  {
  }
}
