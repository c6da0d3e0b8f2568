/** The template printer's error handling: the `CollectUndefined` collector
    of missing variable names, the `MissingVariablesError` message, and the
    way `print_template` picks its destination and maps rendering failures
    to exit codes. Rendering itself is a lookup outcome handed in. */
module Jinja {
  import opened Common

  /** The error raised with every collected name. */
  datatype MissingVariablesError = MissingVariablesError(missing: seq<string>)

  /** A collector of undefined variable names. */
  class CollectUndefined {
    var missing: seq<string>

    constructor()
      ensures missing == []
    {
      missing := [];
    }

    /** One undefined lookup: its name is appended, and the undefined
        value handed back carries that name. */
    method Call(name: string) returns (undefined: string)
      modifies this
      ensures missing == old(missing) + [name]
      ensures undefined == name
    {
      missing := missing + [name];
      undefined := name;
    }

    /** Fails exactly when some name was collected, carrying all of them. */
    method AssertNoMissing() returns (r: Outcome<MissingVariablesError>)
      ensures r.Pass? <==> |missing| == 0
      ensures r.Fail? ==> r.error.missing == missing
    {
      if |missing| > 0 {
        r := Fail(MissingVariablesError(missing));
      } else {
        r := Pass;
      }
    }
  }

  /** A fresh collector that sees the undefined lookups `names`, in order,
      ends up holding exactly those names, duplicates included, and its
      check fails precisely when there was at least one. */
  method CollectAll(names: seq<string>) returns (r: Outcome<MissingVariablesError>)
    ensures r.Pass? <==> names == []
    ensures r.Fail? ==> r.error.missing == names
  {
    var collector := new CollectUndefined();
    for k := 0 to |names|
      invariant collector.missing == names[..k]
    {
      var _ := collector.Call(names[k]);
      assert names[..k + 1] == names[..k] + [names[k]];
    }
    assert names[..|names|] == names;
    r := collector.AssertNoMissing();
  }

  /** Python's `repr` of a list of strings, each in single quotes (the
      escaping of quotes and backslashes inside names is not modelled). */
  function ListRepr(items: seq<string>): (s: string)
    ensures |s| >= 2 && s[0] == '[' && s[|s| - 1] == ']'
  {
    "[" + Join(", ", Quoted(items)) + "]"
  }

  function Quoted(items: seq<string>): (r: seq<string>)
    ensures |r| == |items|
    ensures forall i :: 0 <= i < |items| ==> r[i] == "'" + items[i] + "'"
  {
    if items == [] then [] else ["'" + items[0] + "'"] + Quoted(items[1..])
  }

  const MessagePrefix := "Missing variables: "

  /** `str(MissingVariablesError)`. */
  function Message(e: MissingVariablesError): (s: string)
    ensures |s| >= |MessagePrefix| + 2 && s[..|MessagePrefix|] == MessagePrefix
  {
    MessagePrefix + ListRepr(e.missing)
  }

  lemma {:induction false} JoinLength(sep: string, items: seq<string>)
    requires items != []
    ensures |Join(sep, items)| == (|items| - 1) * |sep| + SumLengths(items)
  {
    if |items| > 1 {
      JoinLength(sep, items[1..]);
    }
  }

  function SumLengths(items: seq<string>): nat
  {
    if items == [] then 0 else |items[0]| + SumLengths(items[1..])
  }

  lemma {:induction false} QuotedLengths(items: seq<string>)
    ensures SumLengths(Quoted(items)) == SumLengths(items) + 2 * |items|
  {
    if items != [] {
      QuotedLengths(items[1..]);
      assert Quoted(items)[1..] == Quoted(items[1..]);
    }
  }

  /** The message names every collected variable: it is the prefix and
      the list, "[]" for no names, "['x']" for one, and each further name
      adds its length plus four characters (two quotes and ", "). */
  lemma MessageSpec(e: MissingVariablesError)
    ensures e.missing == [] ==> Message(e) == "Missing variables: []"
    ensures |e.missing| == 1 ==> Message(e) == "Missing variables: ['" + e.missing[0] + "']"
    ensures e.missing != [] ==>
              |Message(e)| == |MessagePrefix| + 2 + SumLengths(e.missing) + 4 * |e.missing| - 2
  {
    if e.missing != [] {
      JoinLength(", ", Quoted(e.missing));
      QuotedLengths(e.missing);
    }
  }

  // -------------------------------------------------------------------
  // print_template

  datatype Destination = Stdout | FileAt(path: string)

  /** `os.path.join(directory, name)` for one component: an absolute name
      replaces the directory; otherwise a '/' is inserted unless the
      directory is empty or already ends with one. */
  function PathJoin(directory: string, name: string): (p: string)
    ensures |name| > 0 && name[0] == '/' ==> p == name
    ensures |p| >= |name|
    ensures !(|name| > 0 && name[0] == '/') ==> p[|p| - |name|..] == name
  {
    if |name| > 0 && name[0] == '/' then name
    else if directory == [] || directory[|directory| - 1] == '/' then directory + name
    else directory + "/" + name
  }

  /** Where the rendered template goes: standard output without an output
      directory, otherwise the file named `new_name`, or the template's own
      name when no new name is given, inside that directory. */
  function OutputDestination(outputDirectory: Option<string>, template: string, newName: Option<string>): (d: Destination)
    ensures outputDirectory.None? <==> d == Stdout
  {
    match outputDirectory
    case None => Stdout
    case Some(dir) => FileAt(PathJoin(dir, if newName.None? then template else newName.value))
  }

  lemma OutputDestinationSpec(outputDirectory: Option<string>, template: string, newName: Option<string>)
    requires outputDirectory.Some?
    ensures var name := if newName.Some? then newName.value else template;
            OutputDestination(outputDirectory, template, newName) == FileAt(PathJoin(outputDirectory.value, name))
    ensures newName.None? && |template| > 0 && template[0] != '/' ==>
              var p := OutputDestination(outputDirectory, template, newName).path;
              p[|p| - |template|..] == template
  {
  }

  /** What loading and rendering the template came to. */
  datatype Rendering = Rendered(text: string) | TemplateNotFound | UndefinedVariable(name: string)

  /** The observable result of `print_template` once the destination is
      open: what was printed to it, the exit status if the process was
      ended, and, when the destination is a file, what that file holds
      afterwards. */
  datatype Printed = Printed(destination: Destination, written: Option<string>, exitCode: Option<int>,
                             fileContent: Option<string>)

  /** Opening the output file failed; the error propagates before any
      rendering is attempted. */
  datatype OpenError = CannotOpen(path: string)

  /** `print_template`. `canOpen` says whether opening the output file for
      writing succeeds. The file is opened with mode 'w' before rendering,
      so it is created or emptied even when rendering then fails. */
  function PrintTemplate(outputDirectory: Option<string>, template: string, newName: Option<string>,
                         canOpen: bool, rendering: Rendering): (r: Result<Printed, OpenError>)
    ensures r.Err? <==> outputDirectory.Some? && !canOpen
    ensures r.Err? ==> r.error == CannotOpen(OutputDestination(outputDirectory, template, newName).path)
    ensures r.Ok? ==> var p := r.value;
              && p.destination == OutputDestination(outputDirectory, template, newName)
              && (p.exitCode.None? <==> rendering.Rendered?)
              && (p.written.Some? <==> rendering.Rendered?)
              && (rendering.Rendered? ==> p.written.value == rendering.text + "\n")
              && (p.fileContent.Some? <==> outputDirectory.Some?)
              && (outputDirectory.Some? && rendering.Rendered? ==> p.fileContent.value == rendering.text + "\n")
              && (outputDirectory.Some? && !rendering.Rendered? ==> p.fileContent.value == "")
  {
    var destination := OutputDestination(outputDirectory, template, newName);
    if outputDirectory.Some? && !canOpen then Err(CannotOpen(destination.path))
    else
      var emptied := if outputDirectory.Some? then Some("") else None;
      match rendering
      case Rendered(text) =>
        Ok(Printed(destination, Some(text + "\n"), None, if outputDirectory.Some? then Some(text + "\n") else None))
      case TemplateNotFound => Ok(Printed(destination, None, Some(41), emptied))
      case UndefinedVariable(_) => Ok(Printed(destination, None, Some(43), emptied))
  }

  /** A missing template ends the process with 41 and a missing variable
      with 43, so the two failures are told apart by their exit status;
      either way an output file is left empty. */
  lemma ExitCodes(outputDirectory: Option<string>, template: string, newName: Option<string>, rendering: Rendering)
    ensures var r := PrintTemplate(outputDirectory, template, newName, true, rendering);
            && r.Ok?
            && (rendering.TemplateNotFound? <==> r.value.exitCode == Some(41))
            && (rendering.UndefinedVariable? <==> r.value.exitCode == Some(43))
            && (r.value.exitCode.Some? && outputDirectory.Some? ==> r.value.fileContent == Some(""))
  {
  }
}
