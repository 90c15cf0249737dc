// datagrowth/resources/shell/generic.py: ShellResource, a resource whose data
// comes from running a command. The model covers how the command is built
// from the template, the positional arguments and the flags, how a stored
// command is validated, how results are taken in, and what counts as success;
// the Kaldi subclasses' overrides (kaldi/nl.py, kaldi/aspire.py) dispatch on
// the resource kind. Running the process, the database cache and the pause
// between runs are not part of this model.

module ShellResources {
  import opened Wrappers
  import opened Exceptions
  import opened Text
  import opened Json
  import opened IoPaths
  import opened Kaldi
  import opened InputSchemas

  /** A part of `CMD_TEMPLATE`: literal text, or text with one "{}" field. */
  datatype TemplatePart = Literal(text: string) | Field(prefix: string, suffix: string)

  datatype ResourceKind = Plain | KaldiNLResource | KaldiAspireResource

  /** The class attributes of a shell resource. */
  datatype ShellClass = ShellClass(
    kind: ResourceKind,
    template: seq<TemplatePart>,
    flagsTable: map<string, string>,
    argsSchema: Schema,
    kwargsSchema: Schema,
    contentType: string)

  /** The command dictionary: "args", "kwargs" (in order), "cmd", "flags". */
  datatype Command = Command(args: seq<string>, kwargs: seq<(string, string)>, cmd: seq<string>, flags: string)

  /** The dict `VARIABLES`: a class attribute, shared by every instance of
      the class, whose values are strings or None. */
  class ClassVariables {
    var entries: map<string, Option<string>>

    constructor (entries: map<string, Option<string>>)
      ensures this.entries == entries
    {
      this.entries := entries;
    }
  }

  // ------------------------------------------------------ command template

  /** The number of fields among the template parts. */
  function FieldCount(template: seq<TemplatePart>): (n: nat)
    ensures n <= |template|
  {
    if template == [] then 0 else FieldCount(template[..|template| - 1]) + if template[|template| - 1].Field? then 1 else 0
  }

  lemma FieldCountPrefix(template: seq<TemplatePart>, i: nat, j: nat)
    requires i <= j <= |template|
    ensures FieldCount(template[..i]) <= FieldCount(template[..j])
    decreases j - i
  {
    if i < j {
      assert template[..j][..j - 1] == template[..j - 1];
      FieldCountPrefix(template, i, j - 1);
    }
  }

  /** A template part with the next positional argument put in its field. */
  function Render(part: TemplatePart, args: seq<string>, next: nat): string
    requires part.Field? ==> next < |args|
  {
    match part
    case Literal(text) => text
    case Field(prefix, suffix) => prefix + args[next] + suffix
  }

  /** Every field takes the positional argument after the ones the earlier
      fields took. */
  predicate FormattedFrom(template: seq<TemplatePart>, args: seq<string>, cmd: seq<string>)
  {
    |cmd| == |template|
    && forall k :: 0 <= k < |template| ==>
      (template[k].Field? ==> FieldCount(template[..k]) < |args|)
      && cmd[k] == Render(template[k], args, FieldCount(template[..k]))
  }

  /** The template loop of `_create_command`: `next(arguments)` for every
      field, which stops the iteration when the arguments run out. Surplus
      arguments are left unused. */
  method FormatTemplate(template: seq<TemplatePart>, args: seq<string>) returns (r: Result<seq<string>, Exception>)
    ensures r.Ok? <==> FieldCount(template) <= |args|
    ensures r.Err? ==> r.error == StopIteration
    ensures r.Ok? ==> FormattedFrom(template, args, r.value)
  {
    var cmd: seq<string> := [];
    var next := 0;
    for i := 0 to |template|
      invariant next == FieldCount(template[..i]) <= |args|
      invariant FormattedFrom(template[..i], args, cmd)
    {
      assert template[..i + 1][..i] == template[..i];
      var part := template[i];
      if part.Field? {
        if next >= |args| {
          FieldCountPrefix(template, i + 1, |template|);
          assert template[..|template|] == template;
          return Err(StopIteration);
        }
        FormattedSnoc(template, args, cmd, i);
        cmd := cmd + [part.prefix + args[next] + part.suffix];
        next := next + 1;
      } else {
        FormattedSnoc(template, args, cmd, i);
        cmd := cmd + [part.text];
      }
    }
    assert template[..|template|] == template;
    r := Ok(cmd);
  }

  /** One more template part rendered with the next argument. */
  lemma FormattedSnoc(template: seq<TemplatePart>, args: seq<string>, cmd: seq<string>, i: nat)
    requires i < |template| && FormattedFrom(template[..i], args, cmd)
    requires template[i].Field? ==> FieldCount(template[..i]) < |args|
    ensures FormattedFrom(template[..i + 1], args, cmd + [Render(template[i], args, FieldCount(template[..i]))])
  {
    var t := template[..i + 1];
    var x := Render(template[i], args, FieldCount(template[..i]));
    var c := cmd + [x];
    forall k | 0 <= k < |t|
      ensures (t[k].Field? ==> FieldCount(t[..k]) < |args|) && c[k] == Render(t[k], args, FieldCount(t[..k]))
    {
      assert t[k] == template[k] && t[..k] == template[..k];
      if k < i {
        var u := template[..i];
        assert u[k] == template[k] && u[..k] == template[..k];
        assert c[k] == cmd[k];
      }
    }
  }

  // ----------------------------------------------------------------- flags

  /** The flag texts of the known keyword arguments, in order. */
  function FlagPieces(flagsTable: map<string, string>, kwargs: seq<(string, string)>): (r: seq<string>)
    ensures |r| <= |kwargs|
  {
    if kwargs == [] then []
    else
      var last := kwargs[|kwargs| - 1];
      FlagPieces(flagsTable, kwargs[..|kwargs| - 1]) + if last.0 in flagsTable then [flagsTable[last.0] + last.1] else []
  }

  /** `piece` is the flag text of one of the keyword arguments. */
  predicate FlagOf(flagsTable: map<string, string>, kwargs: seq<(string, string)>, piece: string)
  {
    exists j :: 0 <= j < |kwargs| && kwargs[j].0 in flagsTable && piece == flagsTable[kwargs[j].0] + kwargs[j].1
  }

  /** Every flag text comes from a keyword argument that `FLAGS` knows:
      unknown keyword arguments are ignored. */
  lemma {:induction false} FlagPiecesKnown(flagsTable: map<string, string>, kwargs: seq<(string, string)>)
    ensures forall k :: 0 <= k < |FlagPieces(flagsTable, kwargs)| ==> FlagOf(flagsTable, kwargs, FlagPieces(flagsTable, kwargs)[k])
  {
    if kwargs != [] {
      var init := kwargs[..|kwargs| - 1];
      var last := kwargs[|kwargs| - 1];
      FlagPiecesKnown(flagsTable, init);
      assert kwargs == init + [last];
      FlagPiecesPush(flagsTable, init, last.0, last.1);
      var front := FlagPieces(flagsTable, init);
      var pieces := FlagPieces(flagsTable, kwargs);
      forall k | 0 <= k < |pieces|
        ensures FlagOf(flagsTable, kwargs, pieces[k])
      {
        if k < |front| {
          assert FlagOf(flagsTable, init, front[k]);
          var j :| 0 <= j < |init| && init[j].0 in flagsTable && front[k] == flagsTable[init[j].0] + init[j].1;
          assert kwargs[j] == init[j];
        } else {
          assert kwargs[|kwargs| - 1].0 in flagsTable && pieces[k] == flagsTable[kwargs[|kwargs| - 1].0] + kwargs[|kwargs| - 1].1;
        }
      }
    }
  }

  /** A known keyword argument adds its flag text after those before it. */
  lemma FlagPiecesPush(flagsTable: map<string, string>, kwargs: seq<(string, string)>, key: string, value: string)
    ensures key in flagsTable ==> FlagPieces(flagsTable, kwargs + [(key, value)]) == FlagPieces(flagsTable, kwargs) + [flagsTable[key] + value]
    ensures key !in flagsTable ==> FlagPieces(flagsTable, kwargs + [(key, value)]) == FlagPieces(flagsTable, kwargs)
  {
    assert (kwargs + [(key, value)])[..|kwargs|] == kwargs;
  }

  /** `flags` before the final strip: a blank before every flag text. */
  function SpacedPieces(pieces: seq<string>): string
  {
    if pieces == [] then "" else SpacedPieces(pieces[..|pieces| - 1]) + " " + pieces[|pieces| - 1]
  }

  lemma SpacedPiecesPush(pieces: seq<string>, x: string)
    ensures SpacedPieces(pieces + [x]) == SpacedPieces(pieces) + " " + x
  {
    assert (pieces + [x])[..|pieces|] == pieces;
  }

  /** The flags loop of `_create_command`. */
  method BuildFlags(flagsTable: map<string, string>, kwargs: seq<(string, string)>) returns (flags: string)
    ensures flags == LStrip(SpacedPieces(FlagPieces(flagsTable, kwargs)))
  {
    flags := "";
    for i := 0 to |kwargs|
      invariant flags == SpacedPieces(FlagPieces(flagsTable, kwargs[..i]))
    {
      assert kwargs[..i + 1][..i] == kwargs[..i];
      var (key, value) := kwargs[i];
      assert FlagPieces(flagsTable, kwargs[..i + 1])
        == FlagPieces(flagsTable, kwargs[..i]) + if key in flagsTable then [flagsTable[key] + value] else [];
      if key in flagsTable {
        SpacedPiecesPush(FlagPieces(flagsTable, kwargs[..i]), flagsTable[key] + value);
        flags := flags + " " + (flagsTable[key] + value);
        assert flags == SpacedPieces(FlagPieces(flagsTable, kwargs[..i + 1]));
      } else {
        assert FlagPieces(flagsTable, kwargs[..i + 1]) == FlagPieces(flagsTable, kwargs[..i]);
      }
    }
    assert kwargs[..|kwargs|] == kwargs;
    flags := LStrip(flags);
  }

  lemma {:induction false} SpacedPiecesJoin(pieces: seq<string>)
    requires |pieces| > 0
    ensures SpacedPieces(pieces) == " " + Join(pieces, " ")
    decreases |pieces|
  {
    if |pieces| > 1 {
      var init := pieces[..|pieces| - 1];
      assert pieces == init + [pieces[|pieces| - 1]];
      SpacedPiecesJoin(init);
      JoinSnoc(init, pieces[|pieces| - 1], " ");
    }
  }

  /** The flags are the flag texts of the known keyword arguments joined by
      blanks, when the first of them does not start with whitespace, and
      empty when no keyword argument is known. */
  lemma FlagsJoined(flagsTable: map<string, string>, kwargs: seq<(string, string)>)
    ensures FlagPieces(flagsTable, kwargs) == [] ==> LStrip(SpacedPieces(FlagPieces(flagsTable, kwargs))) == ""
    ensures var pieces := FlagPieces(flagsTable, kwargs);
      pieces != [] && |pieces[0]| > 0 && !IsSpace(pieces[0][0]) ==> LStrip(SpacedPieces(pieces)) == Join(pieces, " ")
  {
    var pieces := FlagPieces(flagsTable, kwargs);
    if pieces != [] && |pieces[0]| > 0 && !IsSpace(pieces[0][0]) {
      SpacedPiecesJoin(pieces);
      var joined := Join(pieces, " ");
      assert joined[0] == pieces[0][0] by { JoinHead(pieces, " "); }
      assert (" " + joined)[1..] == joined;
    }
  }

  lemma JoinHead(parts: seq<string>, sep: string)
    requires |parts| > 0 && |parts[0]| > 0
    ensures |Join(parts, sep)| > 0 && Join(parts, sep)[0] == parts[0][0]
  {
  }

  /** The position of the first "CMD_FLAGS" part, if any. */
  function FlagsIndex(cmd: seq<string>): (r: Option<nat>)
    ensures r.None? <==> "CMD_FLAGS" !in cmd
    ensures r.Some? ==> r.value < |cmd| && cmd[r.value] == "CMD_FLAGS" && "CMD_FLAGS" !in cmd[..r.value]
  {
    if cmd == [] then None
    else if cmd[0] == "CMD_FLAGS" then Some(0)
    else
      var r := FlagsIndex(cmd[1..]);
      assert cmd == [cmd[0]] + cmd[1..];
      if r.None? then None
      else
        assert cmd[..r.value + 1] == [cmd[0]] + cmd[1..][..r.value];
        Some(r.value + 1)
  }

  /** The template of the grep resource the tests use: the two arguments
      fill its two fields, in order. */
  lemma GrepTemplateExample()
    ensures FormattedFrom([Literal("grep"), Literal("-R"), Literal("CMD_FLAGS"), Field("", ""), Field("", "")],
                          ["test", "."], ["grep", "-R", "CMD_FLAGS", "test", "."])
  {
    var template := [Literal("grep"), Literal("-R"), Literal("CMD_FLAGS"), Field("", ""), Field("", "")];
    assert template[..1][..0] == template[..0];
    assert template[..2][..1] == template[..1];
    assert template[..3][..2] == template[..2];
    assert template[..4][..3] == template[..3];
    assert FieldCount(template[..1]) == 0;
    assert FieldCount(template[..2]) == 0;
    assert FieldCount(template[..3]) == 0;
    assert FieldCount(template[..4]) == 1;
  }

  /** The flag texts of the grep resource's keyword arguments: the known
      "context" flag is kept and an unknown keyword argument is dropped. */
  lemma GrepFlagPiecesExample()
    ensures FlagPieces(map["context" := "--context="], [("context", "5"), ("unknown", "1")]) == ["--context=5"]
  {
    var table := map["context" := "--context="];
    FlagPiecesPush(table, [], "context", "5");
    FlagPiecesPush(table, [("context", "5")], "unknown", "1");
    assert [] + [("context", "5")] == [("context", "5")];
    assert [("context", "5")] + [("unknown", "1")] == [("context", "5"), ("unknown", "1")];
    assert FlagPieces(table, []) == [];
    assert "--context=" + "5" == "--context=5";
    assert "unknown" !in table;
    assert FlagPieces(table, [("context", "5")]) == ["--context=5"];
  }

  /** One flag text that starts with no blank is the whole flags string. */
  lemma SingleFlag(piece: string)
    requires |piece| > 0 && !IsSpace(piece[0])
    ensures LStrip(SpacedPieces([piece])) == piece
  {
    SpacedPiecesPush([], piece);
    assert [] + [piece] == [piece];
    var spaced := " " + piece;
    assert spaced[1..] == piece;
  }

  /** The flags of the grep resource. */
  lemma GrepFlagsExample()
    ensures LStrip(SpacedPieces(FlagPieces(map["context" := "--context="], [("context", "5"), ("unknown", "1")]))) == "--context=5"
  {
    GrepFlagPiecesExample();
    SingleFlag("--context=5");
  }

  /** "CMD_FLAGS" is the third part of the grep resource's template. */
  lemma GrepFlagsIndexExample()
    ensures FlagsIndex(["grep", "-R", "CMD_FLAGS", "test", "."]) == Some(2)
  {
    var cmd := ["grep", "-R", "CMD_FLAGS", "test", "."];
    assert cmd[0] != "CMD_FLAGS" by { assert cmd[0][0] != "CMD_FLAGS"[0]; }
    assert cmd[1..][0] != "CMD_FLAGS" by { assert |cmd[1..][0]| != |"CMD_FLAGS"|; }
    assert cmd[1..][1..][0] == "CMD_FLAGS";
  }

  // --------------------------------------------------------------- the URI

  /** `uri_from_cmd`: the program first, the other parts sorted, joined by
      blanks; an empty command has no first part to pop. */
  function UriFromCmd(cmd: seq<string>): (r: Result<string, Exception>)
    ensures cmd == [] <==> r.Err?
    ensures r.Err? ==> r.error == IndexError
    ensures r.Ok? ==> r.value == Join([cmd[0]] + Sort(cmd[1..]), " ")
  {
    if cmd == [] then Err(IndexError) else Ok(Join([cmd[0]] + Sort(cmd[1..]), " "))
  }

  /** Commands that differ only in the order of their arguments and flags
      share a URI. */
  lemma UriOrderInsensitive(a: seq<string>, b: seq<string>)
    requires |a| > 0 && |b| > 0 && a[0] == b[0] && multiset(a[1..]) == multiset(b[1..])
    ensures UriFromCmd(a) == UriFromCmd(b)
  {
    SortPermutationInvariant(a[1..], b[1..]);
  }

  /** The URI starts with the program. */
  lemma UriStartsWithProgram(cmd: seq<string>)
    requires |cmd| > 0
    ensures StartsWith(UriFromCmd(cmd).value, cmd[0])
  {
    var parts := [cmd[0]] + Sort(cmd[1..]);
    if |parts| > 1 {
      assert Join(parts, " ") == cmd[0] + " " + Join(parts[1..], " ");
    }
  }

  /** The URI is the program followed by any sorted arrangement of the
      other parts. */
  lemma UriOfSorted(cmd: seq<string>, sorted: seq<string>)
    requires |cmd| > 0 && Sorted(sorted) && multiset(cmd[1..]) == multiset(sorted)
    ensures UriFromCmd(cmd) == Ok(Join([cmd[0]] + sorted, " "))
  {
    SortedUnique(Sort(cmd[1..]), sorted);
  }

  // ---------------------------------------------------------- the resource

  class ShellResource {
    const cls: ShellClass
    const variables: ClassVariables
    var command: Option<Command>
    var status: Option<int>
    var stdout: Option<string>
    var stderr: Option<string>
    /** When the stored data expires, if ever. */
    var purgeAt: Option<int>

    constructor (cls: ShellClass, variables: ClassVariables)
      ensures this.cls == cls && this.variables == variables
      ensures command == None && status == None && stdout == None && stderr == None && purgeAt == None
    {
      this.cls := cls;
      this.variables := variables;
      command := None;
      status := None;
      stdout := None;
      stderr := None;
      purgeAt := None;
    }

    /** `success`: exit code 0 and some output. */
    predicate Success()
      reads this
    {
      status == Some(0) && stdout.Some? && stdout.value != ""
    }

    /** `handle_errors`: a DGShellError for every unsuccessful run. */
    function HandleErrors(): (r: Result<bool, Exception>)
      reads this
      ensures r.Err? <==> !Success()
      ensures r.Err? ==> r.error == ShellError
    {
      if Success() then Ok(true) else Err(ShellError)
    }

    /** `content`: (None, None) unless the run succeeded; otherwise the
        content type and the output put through the class's `transform`. */
    method Content() returns (contentType: Option<string>, data: Option<string>)
      ensures !Success() ==> contentType == None && data == None
      ensures Success() ==> contentType == Some(cls.contentType)
      ensures Success() && cls.kind == Plain ==> data == stdout
      ensures Success() && cls.kind == KaldiNLResource ==> data == Some(TranscriptNL(stdout.value))
      ensures Success() && cls.kind == KaldiAspireResource ==> data == Some(TranscriptAspire(stdout.value))
    {
      if !Success() {
        return None, None;
      }
      contentType := Some(cls.contentType);
      match cls.kind
      case Plain =>
        data := stdout;
      case KaldiNLResource =>
        data := TransformNL(stdout.value);
      case KaldiAspireResource =>
        data := TransformAspire(stdout.value);
    }

    /** `variables(*args)["input"]`: the arguments, or else those of the
        stored command. */
    function Input(args: seq<string>): seq<string>
      reads this
    {
      if args != [] then args else if command.Some? then command.value.args else []
    }

    /** `environment`: None for empty `VARIABLES`, otherwise `VARIABLES`
        itself. Kaldi NL writes the output path, "output" joined with the
        SHA-1 hex digest of the blank-joined input, into that same class
        dict, so every instance sees it; with an empty dict that write would
        be on None. The digest function is a parameter. */
    method Environment(args: seq<string>, sha1: string -> string) returns (r: Result<Option<map<string, Option<string>>>, Exception>)
      modifies variables
      ensures cls.kind != KaldiNLResource ==> variables.entries == old(variables.entries)
      ensures cls.kind != KaldiNLResource ==> r == Ok(if old(variables.entries) == map[] then None else Some(old(variables.entries)))
      ensures cls.kind == KaldiNLResource && old(variables.entries) == map[] ==> r == Err(TypeError) && variables.entries == map[]
      ensures cls.kind == KaldiNLResource && old(variables.entries) != map[] ==>
        variables.entries == old(variables.entries)["OUTPUT_PATH" := Some(Join2("output", sha1(Join(Input(args), " "))))]
        && r == Ok(Some(variables.entries))
    {
      if variables.entries == map[] {
        if cls.kind == KaldiNLResource {
          return Err(TypeError);
        }
        return Ok(None);
      }
      if cls.kind == KaldiNLResource {
        var digest := sha1(Join(Input(args), " "));
        variables.entries := variables.entries["OUTPUT_PATH" := Some(Join2("output", digest))];
      }
      r := Ok(Some(variables.entries));
    }

    /** `_create_command`: the input checked, the template filled, the
        first "CMD_FLAGS" part replaced by the flags, and the command
        checked for expiry at time `now`. */
    method CreateCommand(args: seq<string>, kwargs: seq<(string, string)>, now: int) returns (r: Result<Command, Exception>)
      ensures ValidateInput(cls.argsSchema, cls.kwargsSchema, |args|, |kwargs|).Err? ==> r == Err(ValidationError)
      ensures ValidateInput(cls.argsSchema, cls.kwargsSchema, |args|, |kwargs|).Ok? && FieldCount(cls.template) > |args| ==> r == Err(StopIteration)
      ensures r.Ok? ==> (ValidateInput(cls.argsSchema, cls.kwargsSchema, |args|, |kwargs|).Ok? && FieldCount(cls.template) <= |args|
                         && !(purgeAt.Some? && purgeAt.value <= now))
      ensures r.Ok? ==> r.value.args == args && r.value.kwargs == kwargs
      ensures r.Ok? ==> exists cmd :: (FormattedFrom(cls.template, args, cmd)
        && (FlagsIndex(cmd).None? ==> r.value.flags == "" && r.value.cmd == cmd)
        && (FlagsIndex(cmd).Some? ==> (r.value.flags == LStrip(SpacedPieces(FlagPieces(cls.flagsTable, kwargs)))
                                       && r.value.cmd == cmd[FlagsIndex(cmd).value := r.value.flags])))
    {
      var valid := ValidateInput(cls.argsSchema, cls.kwargsSchema, |args|, |kwargs|);
      if valid.Err? {
        return Err(valid.error);
      }
      var formatted := FormatTemplate(cls.template, args);
      if formatted.Err? {
        return Err(formatted.error);
      }
      var cmd := formatted.value;
      var flags := "";
      var index := FlagsIndex(cmd);
      var full := cmd;
      if index.Some? {
        flags := BuildFlags(cls.flagsTable, kwargs);
        full := cmd[index.value := flags];
      }
      if purgeAt.Some? && purgeAt.value <= now {
        return Err(ValidationError);
      }
      r := Ok(Command(args, kwargs, full, flags));
    }

    /** The checks `validate_command` makes on a command dict: it has to be
        a dict whose "cmd" is a list, and with `validateInput` its "args"
        and "kwargs" go through `_validate_input`. The arguments are unpacked
        with `*`, so a string counts its characters and a dict its keys; the
        keyword arguments with `**`, which only takes a dict. */
    function CheckCommand(command: Json, validateInput: bool): (r: Result<Json, Exception>)
      reads this
      ensures r.Ok? ==> r.value == command && command.Dict? && "cmd" in command.fields && command.fields["cmd"].List?
      ensures !command.Dict? ==> r == Err(AssertionError)
      ensures command.Dict? && "cmd" !in command.fields ==> r == Err(KeyError)
      ensures command.Dict? && "cmd" in command.fields && !command.fields["cmd"].List? ==> r == Err(AssertionError)
      ensures !validateInput ==> (r.Ok? <==> command.Dict? && "cmd" in command.fields && command.fields["cmd"].List?)
      ensures r.Err? ==> r.error in {AssertionError, KeyError, TypeError, ValidationError}
    {
      if !command.Dict? then Err(AssertionError)
      else if "cmd" !in command.fields then Err(KeyError)
      else if !command.fields["cmd"].List? then Err(AssertionError)
      else if !validateInput then Ok(command)
      else
        var args := if "args" in command.fields then command.fields["args"] else List([]);
        var kwargs := if "kwargs" in command.fields then command.fields["kwargs"] else Dict(map[]);
        var argCount := StarCount(args);
        if argCount.None? || !kwargs.Dict? then Err(TypeError)
        else
          var checked := ValidateInput(cls.argsSchema, cls.kwargsSchema, argCount.value, |kwargs.fields|);
          if checked.Err? then Err(checked.error) else Ok(command)
    }

    /** `validate_command` at time `now`: data past its purge time is
        refused first; a command stored as JSON text is parsed with `parse`
        (whose failure, a JSONDecodeError, is a ValueError) before the
        checks. */
    function ValidateCommand(command: Json, validateInput: bool, now: int, parse: string -> Option<Json>): (r: Result<Json, Exception>)
      reads this
      ensures purgeAt.Some? && purgeAt.value <= now ==> r == Err(ValidationError)
      ensures r.Ok? ==> !(purgeAt.Some? && purgeAt.value <= now)
      ensures r.Ok? ==> r.value.Dict? && "cmd" in r.value.fields && r.value.fields["cmd"].List?
      ensures r.Ok? ==> r.value == command || (command.Str? && parse(command.s) == Some(r.value))
      ensures !(purgeAt.Some? && purgeAt.value <= now) && command.Str? && parse(command.s).None? ==> r == Err(ValueError)
      ensures !(purgeAt.Some? && purgeAt.value <= now) && !command.Str? ==> r == CheckCommand(command, validateInput)
    {
      if purgeAt.Some? && purgeAt.value <= now then Err(ValidationError)
      else if command.Str? then
        match parse(command.s)
        case None => Err(ValueError)
        case Some(parsed) => CheckCommand(parsed, validateInput)
      else CheckCommand(command, validateInput)
    }

    /** `clean_stdout` of the class: the base class drops NUL characters
        (the UTF-8 decoding is not modelled) and Kaldi NL also drops its
        progress segments. */
    function CleanStdout(raw: string): string
      reads this
    {
      if cls.kind == KaldiNLResource then CleanStdoutNL(Without(raw, '\0')) else Without(raw, '\0')
    }

    /** `_update_from_results`: the exit code and the cleaned output are
        stored; for Kaldi Aspire a run with exit code 0 has its transcript on
        stderr, which then becomes stdout, stderr becoming empty. */
    method UpdateFromResults(returncode: int, rawStdout: string, rawStderr: string)
      modifies this
      ensures status == Some(returncode) && command == old(command) && purgeAt == old(purgeAt)
      ensures cls.kind == KaldiAspireResource && returncode == 0 ==>
        stdout == Some(Without(rawStderr, '\0')) && stderr == Some("")
      ensures !(cls.kind == KaldiAspireResource && returncode == 0) ==>
        stdout == Some(CleanStdout(rawStdout)) && stderr == Some(Without(rawStderr, '\0'))
    {
      status := Some(returncode);
      stdout := Some(CleanStdout(rawStdout));
      stderr := Some(Without(rawStderr, '\0'));
      if cls.kind == KaldiAspireResource && status == Some(0) {
        stdout := stderr;
        stderr := Some("");
      }
    }
  }

  /** `environment` of the base class: None exactly for empty `VARIABLES`,
      which otherwise come back unchanged. */
  function BaseEnvironment(variables: map<string, Option<string>>): (r: Option<map<string, Option<string>>>)
    ensures r.None? <==> variables == map[]
    ensures r.Some? ==> r.value == variables
  {
    if variables == map[] then None else Some(variables)
  }
}
