/**
 * ProgramSignatureParser: validates the command records of already loaded
 * program signature documents, merges them into one command table, prints
 * the program help, and builds the invocation of a command's entry point.
 */
module Program {
  import opened Wrappers
  import opened Strings

  /** A YAML value kept as it was loaded (a command's image or flags). */
  datatype Node = Scalar(s: string) | List(items: seq<Node>) | Dict(entries: map<string, Node>)

  /** A command record as loaded: each field may be missing. */
  datatype CommandRecord = CommandRecord(name: Option<string>, entryPoint: Option<string>,
                                         description: Option<string>, image: Option<Node>,
                                         flags: Option<Node>)

  /** A loaded program signature document. */
  datatype Document = Document(commands: Option<seq<CommandRecord>>, description: Option<string>, image: Option<Node>)

  /** A validated command, its image inherited from its document when it had none. */
  datatype Command = Command(name: string, entryPoint: string, description: string, image: Node, flags: Option<Node>)

  datatype ProgramError =
    | MissingField(field: string)        // a document lacks "commands" or "description"
    | MissingCommandField(field: string) // a command lacks "name", "entry-point" or "description"
    | MissingImage                       // exit(1): neither the command nor its document has an image
    | UnknownCommand(command: string)    // exit(1): the command is not in the table

  /**
   * A command record checked field by field ("name", "entry-point",
   * "description"), then given its document's image when it has none.
   */
  function Validate(rec: CommandRecord, docImage: Option<Node>): (r: Result<Command, ProgramError>)
    ensures r.Ok? <==> rec.name.Some? && rec.entryPoint.Some? && rec.description.Some? &&
                       (rec.image.Some? || docImage.Some?)
    ensures r.Ok? ==> r.value.name == rec.name.value && r.value.entryPoint == rec.entryPoint.value &&
                      r.value.description == rec.description.value && r.value.flags == rec.flags &&
                      r.value.image == (if rec.image.Some? then rec.image.value else docImage.value)
    ensures rec.name.None? ==> r == Err(MissingCommandField("name"))
    ensures rec.name.Some? && rec.entryPoint.None? ==> r == Err(MissingCommandField("entry-point"))
    ensures rec.name.Some? && rec.entryPoint.Some? && rec.description.None? ==> r == Err(MissingCommandField("description"))
    ensures rec.name.Some? && rec.entryPoint.Some? && rec.description.Some? && rec.image.None? && docImage.None? ==>
              r == Err(MissingImage)
  {
    if rec.name.None? then Err(MissingCommandField("name"))
    else if rec.entryPoint.None? then Err(MissingCommandField("entry-point"))
    else if rec.description.None? then Err(MissingCommandField("description"))
    else if rec.image.None? && docImage.None? then Err(MissingImage)
    else
      Ok(Command(rec.name.value, rec.entryPoint.value, rec.description.value,
                 if rec.image.Some? then rec.image.value else docImage.value, rec.flags))
  }

  /** The command table after some records, and the error that stopped the loop, if any. */
  datatype RecordsProgress = RecordsProgress(commands: map<string, Command>, failure: Option<ProgramError>)

  /** The loop over one document's records: each valid record replaces the entry of its name. */
  function Records(m: map<string, Command>, docImage: Option<Node>, recs: seq<CommandRecord>): RecordsProgress
    decreases |recs|
  {
    if recs == [] then RecordsProgress(m, None)
    else
      match Validate(recs[0], docImage)
      case Err(e) => RecordsProgress(m, Some(e))
      case Ok(c) => Records(m[c.name := c], docImage, recs[1..])
  }

  /** The parser's table and description. */
  datatype St = St(commands: map<string, Command>, description: string)

  datatype Progress = Progress(st: St, failure: Option<ProgramError>)

  /** One document: its two fields checked, the description taken when none is set yet, then its records. */
  function DocStep(st: St, doc: Document): (r: Progress)
    ensures doc.commands.None? ==> r == Progress(st, Some(MissingField("commands")))
    ensures doc.commands.Some? && doc.description.None? ==> r == Progress(st, Some(MissingField("description")))
    ensures r.failure.None? <==> DocValid(doc)
    ensures DocValid(doc) ==> r.st.description == (if st.description == "" then doc.description.value else st.description)
  {
    if doc.commands.None? then Progress(st, Some(MissingField("commands")))
    else if doc.description.None? then Progress(st, Some(MissingField("description")))
    else
      var description := if st.description == "" then doc.description.value else st.description;
      var p := Records(st.commands, doc.image, doc.commands.value);
      RecordsVerdict(st.commands, doc.image, doc.commands.value);
      Progress(St(p.commands, description), p.failure)
  }

  /** The loop over the documents; the first error ends it. */
  function Docs(st: St, docs: seq<Document>): Progress
    decreases |docs|
  {
    if docs == [] then Progress(st, None)
    else
      var p := DocStep(st, docs[0]);
      if p.failure.Some? then p else Docs(p.st, docs[1..])
  }

  /** Every record of a document passes validation. */
  predicate RecordsValid(recs: seq<CommandRecord>, docImage: Option<Node>)
  {
    forall i :: 0 <= i < |recs| ==> Validate(recs[i], docImage).Ok?
  }

  /** A document the parser accepts. */
  predicate DocValid(doc: Document)
  {
    doc.commands.Some? && doc.description.Some? && RecordsValid(doc.commands.value, doc.image)
  }

  /** The record loop succeeds exactly when every record is valid; it fails with the first invalid record's error. */
  lemma {:induction false} RecordsVerdict(m: map<string, Command>, docImage: Option<Node>, recs: seq<CommandRecord>)
    ensures Records(m, docImage, recs).failure.None? <==> RecordsValid(recs, docImage)
    ensures Records(m, docImage, recs).failure.Some? ==>
              exists i :: 0 <= i < |recs| && Validate(recs[i], docImage).Err? &&
                (forall j :: 0 <= j < i ==> Validate(recs[j], docImage).Ok?) &&
                Records(m, docImage, recs).failure.value == Validate(recs[i], docImage).error
    decreases |recs|
  {
    if recs != [] {
      var r := Validate(recs[0], docImage);
      if r.Ok? {
        RecordsVerdict(m[r.value.name := r.value], docImage, recs[1..]);
        if Records(m, docImage, recs).failure.Some? {
          var i :| 0 <= i < |recs[1..]| && Validate(recs[1..][i], docImage).Err? &&
                   (forall j :: 0 <= j < i ==> Validate(recs[1..][j], docImage).Ok?) &&
                   Records(m, docImage, recs).failure.value == Validate(recs[1..][i], docImage).error;
          assert forall j :: 0 < j <= i ==> recs[j] == recs[1..][j - 1];
        }
        assert RecordsValid(recs, docImage) <==> RecordsValid(recs[1..], docImage) by {
          assert forall j :: 0 < j < |recs| ==> recs[j] == recs[1..][j - 1];
        }
      } else {
        assert Validate(recs[0], docImage).Err?;
      }
    }
  }

  /** Parsing succeeds exactly when every document is valid. */
  lemma {:induction false} DocsVerdict(st: St, docs: seq<Document>)
    ensures Docs(st, docs).failure.None? <==> forall i :: 0 <= i < |docs| ==> DocValid(docs[i])
    decreases |docs|
  {
    if docs != [] {
      var d := docs[0];
      if d.commands.Some? && d.description.Some? {
        RecordsVerdict(st.commands, d.image, d.commands.value);
      }
      var p := DocStep(st, d);
      if p.failure.None? {
        DocsVerdict(p.st, docs[1..]);
        assert forall i :: 0 < i < |docs| ==> docs[i] == docs[1..][i - 1];
      }
    }
  }

  /** A record of `recs` carries the name `n`. */
  predicate Names(recs: seq<CommandRecord>, n: string)
  {
    exists i :: 0 <= i < |recs| && recs[i].name == Some(n)
  }

  /**
   * After a successful record loop the table holds the earlier names and the
   * records' names; the entry of a name is the validated LAST record with that
   * name, and an entry no record names is left as it was.
   */
  lemma {:induction false} RecordsTable(m: map<string, Command>, docImage: Option<Node>, recs: seq<CommandRecord>)
    requires Records(m, docImage, recs).failure.None?
    ensures var after := Records(m, docImage, recs).commands;
            && (forall n :: n in after <==> n in m || Names(recs, n))
            && (forall n :: n in m && !Names(recs, n) ==> after[n] == m[n])
            && (forall i :: 0 <= i < |recs| && (forall j :: i < j < |recs| ==> recs[j].name != recs[i].name) ==>
                  Validate(recs[i], docImage).Ok? && after[recs[i].name.value] == Validate(recs[i], docImage).value)
    decreases |recs|
  {
    if recs != [] {
      var c := Validate(recs[0], docImage).value;
      var rest := recs[1..];
      RecordsTable(m[c.name := c], docImage, rest);
      var after := Records(m, docImage, recs).commands;
      assert forall j :: 0 < j < |recs| ==> recs[j] == rest[j - 1];
      forall n ensures Names(recs, n) <==> recs[0].name == Some(n) || Names(rest, n) {
        if Names(rest, n) {
          var j :| 0 <= j < |rest| && rest[j].name == Some(n);
          assert recs[j + 1].name == Some(n);
        }
      }
      forall i | 0 <= i < |recs| && (forall j :: i < j < |recs| ==> recs[j].name != recs[i].name)
        ensures Validate(recs[i], docImage).Ok? && after[recs[i].name.value] == Validate(recs[i], docImage).value
      {
        RecordsVerdict(m, docImage, recs);
        if i != 0 {
          assert recs[i] == rest[i - 1];
          assert forall j :: i - 1 < j < |rest| ==> rest[j].name != rest[i - 1].name by {
            assert forall j :: i - 1 < j < |rest| ==> rest[j] == recs[j + 1];
          }
        }
      }
    }
  }

  /** Some document's record carries the name `n`. */
  predicate DocsName(docs: seq<Document>, n: string)
  {
    exists i :: 0 <= i < |docs| && docs[i].commands.Some? && Names(docs[i].commands.value, n)
  }

  /** Record `j` of document `i` is the last record named as it is, in its document and in every later one. */
  predicate LastNamed(docs: seq<Document>, i: int, j: int)
  {
    && 0 <= i < |docs| && docs[i].commands.Some?
    && 0 <= j < |docs[i].commands.value| && docs[i].commands.value[j].name.Some?
    && (forall k :: j < k < |docs[i].commands.value| ==> docs[i].commands.value[k].name != docs[i].commands.value[j].name)
    && !DocsName(docs[i + 1..], docs[i].commands.value[j].name.value)
  }

  /**
   * After a successful parse the table holds exactly the names the documents'
   * records carry (besides those it started with); a later record with the
   * same name replaces an earlier one, so each entry is the validated last
   * record of its name.
   */
  lemma {:induction false} DocsTable(st: St, docs: seq<Document>)
    requires Docs(st, docs).failure.None?
    ensures var after := Docs(st, docs).st.commands;
            && (forall n :: n in after <==> n in st.commands || DocsName(docs, n))
            && (forall n :: n in st.commands && !DocsName(docs, n) ==> after[n] == st.commands[n])
            && (forall i, j :: LastNamed(docs, i, j) ==>
                  var rec := docs[i].commands.value[j];
                  Validate(rec, docs[i].image).Ok? && after[rec.name.value] == Validate(rec, docs[i].image).value)
    decreases |docs|
  {
    if docs != [] {
      var d := docs[0];
      var recs := d.commands.value;
      var p := DocStep(st, d);
      var rest := docs[1..];
      RecordsTable(st.commands, d.image, recs);
      DocsTable(p.st, rest);
      var after := Docs(st, docs).st.commands;
      assert after == Docs(p.st, rest).st.commands;
      assert forall i :: 0 < i < |docs| ==> docs[i] == rest[i - 1];
      forall n ensures DocsName(docs, n) <==> Names(recs, n) || DocsName(rest, n) {
        if DocsName(rest, n) {
          var i :| 0 <= i < |rest| && rest[i].commands.Some? && Names(rest[i].commands.value, n);
          assert docs[i + 1] == rest[i];
        }
      }
      forall i, j | LastNamed(docs, i, j)
        ensures var rec := docs[i].commands.value[j];
                Validate(rec, docs[i].image).Ok? && after[rec.name.value] == Validate(rec, docs[i].image).value
      {
        if i == 0 {
          assert docs[1..] == rest;
        } else {
          assert docs[i + 1..] == rest[i..];
          assert LastNamed(rest, i - 1, j);
        }
      }
    }
  }

  /** The first non-empty description among `ds`, or "" when all are empty. */
  function FirstNonEmpty(ds: seq<string>): (r: string)
    ensures r == "" <==> forall i :: 0 <= i < |ds| ==> ds[i] == ""
    ensures r != "" ==> exists i :: 0 <= i < |ds| && ds[i] == r && forall j :: 0 <= j < i ==> ds[j] == ""
    decreases |ds|
  {
    if ds == [] then ""
    else if ds[0] != "" then ds[0]
    else
      var r := FirstNonEmpty(ds[1..]);
      assert forall j :: 0 < j < |ds| ==> ds[j] == ds[1..][j - 1];
      r
  }

  /** The descriptions of valid documents. */
  function Descriptions(docs: seq<Document>): seq<string>
    requires forall i :: 0 <= i < |docs| ==> DocValid(docs[i])
  {
    seq(|docs|, i requires 0 <= i < |docs| && DocValid(docs[i]) => docs[i].description.value)
  }

  /**
   * A preset description is kept; otherwise the description is the first
   * non-empty one among the documents (each is read only while the
   * description is still empty).
   */
  lemma {:induction false} DocsDescription(st: St, docs: seq<Document>)
    requires forall i :: 0 <= i < |docs| ==> DocValid(docs[i])
    ensures Docs(st, docs).st.description == FirstNonEmpty([st.description] + Descriptions(docs))
    decreases |docs|
  {
    if docs != [] {
      DocsVerdict(st, docs);
      RecordsVerdict(st.commands, docs[0].image, docs[0].commands.value);
      var p := DocStep(st, docs[0]);
      assert forall i :: 0 <= i < |docs[1..]| ==> docs[1..][i] == docs[i + 1];
      DocsDescription(p.st, docs[1..]);
      var ds := Descriptions(docs);
      assert ds == [docs[0].description.value] + Descriptions(docs[1..]);
      assert ([st.description] + ds)[1..] == ds;
      assert ([p.st.description] + Descriptions(docs[1..]))[1..] == Descriptions(docs[1..]);
      assert ds[1..] == Descriptions(docs[1..]);
    }
  }

  /** The help column: four, or the longest command name when longer. */
  ghost predicate IsHelpWidth(names: set<string>, w: int)
  {
    && w >= 4
    && (forall n :: n in names ==> |n| <= w)
    && (w == 4 || exists n :: n in names && |n| == w)
  }

  /** The help line of one command: its name, padding to column w + 4, its description. */
  function CommandLine(name: string, description: string, w: nat): string
    requires |name| <= w
  {
    "\t" + name + Spaces(w - |name| + 3) + description
  }

  function HelpLine(w: nat): string
    requires w >= 1
  {
    "\thelp" + Spaces(w - 1) + "Prints this help"
  }

  /** The synopsis, the description when there is one, and the help line. */
  function Header(program: string, description: string, w: nat): seq<string>
    requires w >= 1
  {
    ["Synopsis: " + program + " COMMAND [OPTIONS]", ""]
      + (if description != "" then [" " + description, ""] else [])
      + [HelpLine(w)]
  }

  /** The command lines, in the order of `names`. */
  function CommandLines(commands: map<string, Command>, names: seq<string>, w: nat): seq<string>
    requires forall i :: 0 <= i < |names| ==> names[i] in commands && |names[i]| <= w
  {
    seq(|names|, i requires 0 <= i < |names| => CommandLine(names[i], commands[names[i]].description, w))
  }

  /**
   * The help text is aligned: the help line and every command line hold
   * their text from column w + 4 on, after a tab, the name and blanks.
   */
  lemma HelpAligned(commands: map<string, Command>, names: seq<string>, w: nat)
    requires w >= 1
    requires forall i :: 0 <= i < |names| ==> names[i] in commands && |names[i]| <= w
    ensures |HelpLine(w)| >= w + 4 && HelpLine(w)[w + 4..] == "Prints this help"
    ensures forall i :: 0 <= i < |names| ==>
              var line := CommandLines(commands, names, w)[i];
              && |line| >= w + 4
              && line[..|names[i]| + 1] == "\t" + names[i]
              && (forall j :: |names[i]| + 1 <= j < w + 4 ==> line[j] == ' ')
              && line[w + 4..] == commands[names[i]].description
  {
  }

  /** What parse ends with: the table is ready, the help was shown, or an error was raised. */
  datatype ParseResult = Parsed | HelpShown(lines: seq<string>) | Failed(error: ProgramError)

  /** Empty arguments, or a first argument asking for help. */
  predicate HelpArgv(argv: seq<string>)
  {
    |argv| == 0 || argv[0] in ["-h", "--help", "help"]
  }

  /** The file-system queries the entry-point lookup makes. */
  datatype FileSystem = FileSystem(isLink: string -> bool, readLink: string -> string, baseName: string -> string)

  /** The entry point, under the command root when one is set. */
  function EntryPath(cmdRoot: string, entryPoint: string): (r: string)
    ensures cmdRoot == "" ==> r == entryPoint
    ensures cmdRoot != "" ==> |r| == |cmdRoot| + 1 + |entryPoint| && r[..|cmdRoot| + 1] == cmdRoot + "/" && r[|cmdRoot| + 1..] == entryPoint
  {
    if cmdRoot != "" then cmdRoot + "/" + entryPoint else entryPoint
  }

  /** The file name that decides the interpreter: that of the link's target when the entry point is a link. */
  function EntryFile(fs: FileSystem, path: string): string
  {
    if fs.isLink(path) then fs.baseName(fs.readLink(path)) else fs.baseName(path)
  }

  /** "python" for a ".py" file, "bash" for a ".sh" file, nothing otherwise. */
  function InterpreterFor(file: string): (r: string)
    ensures r == "python" <==> EndsWith(file, ".py")
    ensures r == "bash" <==> EndsWith(file, ".sh")
    ensures r == "" <==> !EndsWith(file, ".py") && !EndsWith(file, ".sh")
  {
    if EndsWith(file, ".py") then "python"
    else if EndsWith(file, ".sh") then "bash"
    else ""
  }

  function Quoted(quote: string -> string, args: seq<string>): seq<string>
  {
    seq(|args|, i requires 0 <= i < |args| => quote(args[i]))
  }

  class ProgramSignatureParser {
    var commands: map<string, Command>
    var description: string
    const program: string
    const cmdRoot: string
    var argv: seq<string>

    constructor(program: string, cmdRoot: string, description: string)
      ensures this.program == program && this.cmdRoot == cmdRoot && this.description == description
      ensures commands == map[] && argv == []
    {
      this.program := program;
      this.cmdRoot := cmdRoot;
      this.description := description;
      commands := map[];
      argv := [];
    }

    /**
     * Rebuilds the command table from the documents, in order; then shows
     * the help for empty arguments or a help request, and otherwise keeps the
     * arguments for `Signature`.
     */
    method Parse(docs: seq<Document>, argv: seq<string>)
        returns (outcome: ParseResult, ghost names: seq<string>, ghost width: int)
      modifies this
      ensures var p := Docs(St(map[], old(description)), docs);
              && commands == p.st.commands && description == p.st.description
              && (p.failure.Some? ==> outcome == Failed(p.failure.value) && this.argv == old(this.argv))
              && (p.failure.None? && HelpArgv(argv) ==>
                    && this.argv == old(this.argv)
                    && SortedDistinct(names) && (forall n :: n in names <==> n in commands)
                    && IsHelpWidth(commands.Keys, width)
                    && outcome == HelpShown(Header(program, description, width) + CommandLines(commands, names, width)))
              && (p.failure.None? && !HelpArgv(argv) ==> outcome == Parsed && this.argv == argv)
    {
      commands := map[];
      names, width := [], 4;
      for i := 0 to |docs|
        invariant Docs(St(map[], old(description)), docs) == Docs(St(commands, description), docs[i..])
        invariant this.argv == old(this.argv)
      {
        var doc := docs[i];
        assert docs[i..][1..] == docs[i + 1..];
        if doc.commands.None? {
          return Failed(MissingField("commands")), names, width;
        }
        if doc.description.None? {
          return Failed(MissingField("description")), names, width;
        }
        if description == "" {
          description := doc.description.value;
        }
        var recs := doc.commands.value;
        ghost var before := commands;
        ghost var docDescription := description;
        for j := 0 to |recs|
          invariant Records(before, doc.image, recs) == Records(commands, doc.image, recs[j..])
          invariant description == docDescription && this.argv == old(this.argv)
        {
          var rec := recs[j];
          assert recs[j..][1..] == recs[j + 1..];
          if rec.name.None? {
            return Failed(MissingCommandField("name")), names, width;
          }
          if rec.entryPoint.None? {
            return Failed(MissingCommandField("entry-point")), names, width;
          }
          if rec.description.None? {
            return Failed(MissingCommandField("description")), names, width;
          }
          var image;
          if rec.image.Some? {
            image := rec.image.value;
          } else if doc.image.Some? {
            image := doc.image.value;
          } else {
            return Failed(MissingImage), names, width;
          }
          var c := Command(rec.name.value, rec.entryPoint.value, rec.description.value, image, rec.flags);
          assert Validate(rec, doc.image) == Ok(c);
          commands := commands[c.name := c];
        }
        assert Records(before, doc.image, recs) == RecordsProgress(commands, None);
      }
      if |argv| == 0 || argv[0] in ["-h", "--help", "help"] {
        var lines;
        lines, names, width := Help();
        return HelpShown(lines), names, width;
      }
      this.argv := argv;
      outcome := Parsed;
    }

    /** The help text: the command lines in sorted name order, aligned on the width of the longest name. */
    method Help() returns (lines: seq<string>, ghost names: seq<string>, ghost width: int)
      ensures SortedDistinct(names) && (forall n :: n in names <==> n in commands)
      ensures IsHelpWidth(commands.Keys, width)
      ensures lines == Header(program, description, width) + CommandLines(commands, names, width)
    {
      var w := HelpWidth(commands.Keys);
      width := w;
      var sorted := Sorted(commands.Keys);
      names := sorted;
      lines := ["Synopsis: " + program + " COMMAND [OPTIONS]", ""];
      if description != "" {
        lines := lines + [" " + description, ""];
      }
      lines := lines + ["\thelp" + Spaces(w - 1) + "Prints this help"];
      var commandLines := RenderCommandLines(commands, sorted, w);
      lines := lines + commandLines;
    }

    /** The command's flags, or an empty list when the command or the field is missing. */
    function GetCommandFlags(command: string): (r: Node)
      reads this
      ensures command in commands && commands[command].flags.Some? ==> r == commands[command].flags.value
      ensures command !in commands || commands[command].flags.None? ==> r == List([])
    {
      if command in commands && commands[command].flags.Some? then commands[command].flags.value else List([])
    }

    /** The command's image, or an empty mapping when the command is missing. */
    function GetCommandImage(command: string): (r: Node)
      reads this
      ensures command in commands ==> r == commands[command].image
      ensures command !in commands ==> r == Dict(map[])
    {
      if command in commands then commands[command].image else Dict(map[])
    }

    /**
     * The invocation: "<program> help" without arguments or for the help
     * command; an error for an unknown command; otherwise the interpreter
     * chosen by the entry file's extension, the entry point and the quoted
     * remaining arguments.
     */
    function Signature(fs: FileSystem, quote: string -> string): (r: Result<string, ProgramError>)
      reads this
      ensures |argv| == 0 || argv[0] == "help" ==> r == Ok(program + " help")
      ensures r.Err? <==> |argv| > 0 && argv[0] != "help" && argv[0] !in commands
      ensures r.Err? ==> r.error == UnknownCommand(argv[0])
      ensures |argv| > 0 && argv[0] != "help" && argv[0] in commands ==>
                var path := EntryPath(cmdRoot, commands[argv[0]].entryPoint);
                r == Ok(InterpreterFor(EntryFile(fs, path)) + " " + path + " " + Join(Quoted(quote, argv[1..]), " "))
    {
      if |argv| == 0 then Ok(program + " help")
      else
        var command := argv[0];
        var args := argv[1..];
        if command == "help" then Ok(program + " help")
        else if command !in commands then Err(UnknownCommand(command))
        else
          var entryPoint := EntryPath(cmdRoot, commands[command].entryPoint);
          var interpret := InterpreterFor(EntryFile(fs, entryPoint));
          Ok(interpret + " " + entryPoint + " " + Join(Quoted(quote, args), " "))
    }
  }

  /** The help column: the loop over the command names, starting from four. */
  method HelpWidth(names: set<string>) returns (w: int)
    ensures IsHelpWidth(names, w)
  {
    w := 4;
    var rest := names;
    while rest != {}
      invariant rest <= names
      invariant IsHelpWidth(names - rest, w)
      decreases rest
    {
      var n :| n in rest;
      if |n| > w {
        w := |n|;
      }
      rest := rest - {n};
    }
    assert names - rest == names;
  }

  /** The loop printing one help line per command, in the order of `names`. */
  method RenderCommandLines(commands: map<string, Command>, names: seq<string>, w: nat) returns (lines: seq<string>)
    requires forall i :: 0 <= i < |names| ==> names[i] in commands && |names[i]| <= w
    ensures lines == CommandLines(commands, names, w)
  {
    lines := [];
    for i := 0 to |names|
      invariant lines == CommandLines(commands, names[..i], w)
    {
      var n := names[i];
      lines := lines + ["\t" + n + Spaces(w - |n| + 3) + commands[n].description];
    }
    assert names[..|names|] == names;
  }
}
