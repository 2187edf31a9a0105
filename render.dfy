/** The stub renderer of main.py: `MayaCommand.as_stub`, which writes one
    `def` signature with its docstring for a documented command, and
    `ExternalCommand.as_stub`, the catch-all stub of an undocumented one. */
module Render {
  import opened Wrappers
  import opened PyStrings
  import opened TypeTables
  import opened Flags

  /** One documented flag of a command. */
  datatype Argument = Argument(
    longName: string,
    shortName: string,
    typeToken: string,
    properties: Option<Properties>,
    description: string)

  /** A documented command, as the page parser fills it in. */
  datatype MayaCommand = MayaCommand(
    name: string,
    description: string,
    categories: seq<string>,
    arguments: seq<Argument>,
    undoable: bool,
    queryable: bool,
    editable: bool)

  /** How stubs are written: the module switches `long_args` and `short_args`,
      and whether a bool argument is kept out of widening (`false` is the
      comparison as main.py writes it, which never exempts anything). */
  datatype Options = Options(longArgs: bool, shortArgs: bool, boolExempt: bool)

  /** The two collaborators of the renderer: the type table
      (`args_to_typehints`) and `str()` of the type it returns. */
  datatype Typing = Typing(lookup: string -> Option<PyType>, show: PyType -> string)

  /** The `ValueError` raised for an argument whose type token has no entry. */
  datatype StubError = UnknownArgumentFormat(command: string, token: string)

  /** The text of that error: it names the command and ends with the token. */
  function FailureMessage(e: StubError): (r: string)
    ensures StartsWith(r, "Failed at " + e.command)
    ensures EndsWith(r, " with argument format: " + e.token)
  {
    var head, tail := "Failed at " + e.command, " with argument format: " + e.token;
    Affixes(head, "", tail);
    assert head + "" + tail == head + tail;
    head + tail
  }

  // ------------------------------------------------------------ type lookup

  /** Every argument's type token has an entry in the type table. */
  predicate Resolved(args: seq<Argument>, typing: Typing) {
    forall k :: 0 <= k < |args| ==> typing.lookup(args[k].typeToken).Some?
  }

  /** The type token of the first argument, scanning from the left, that has no entry. */
  function FirstUnresolved(args: seq<Argument>, typing: Typing): (r: Option<string>)
    ensures r.None? <==> Resolved(args, typing)
    ensures r.Some? ==> exists i :: 0 <= i < |args| && args[i].typeToken == r.value
                          && typing.lookup(r.value).None? && Resolved(args[..i], typing)
  {
    if args == [] then None
    else if typing.lookup(args[0].typeToken).None? then Some(args[0].typeToken)
    else
      var r := FirstUnresolved(args[1..], typing);
      assert forall k :: 1 <= k < |args| ==> args[k] == args[1..][k - 1];
      if r.Some? then
        var i :| 0 <= i < |args[1..]| && args[1..][i].typeToken == r.value
                 && typing.lookup(r.value).None? && Resolved(args[1..][..i], typing);
        assert args[..i + 1] == [args[0]] + args[1..][..i];
        r
      else r
  }

  /** The type of an argument whose token resolves. */
  function TypeOf(arg: Argument, typing: Typing): PyType
    requires typing.lookup(arg.typeToken).Some?
  {
    typing.lookup(arg.typeToken).value
  }

  // ------------------------------------------------------------- signature

  /** Whether the argument's annotation is widened to `Optional[Union[T, bool]]`:
      its flag set exists and allows create or query, and `t` is not a bool
      that the options exempt. */
  predicate Widens(arg: Argument, t: PyType, opts: Options) {
    && arg.properties.Some?
    && (arg.properties.value.create || arg.properties.value.query)
    && !(opts.boolExempt && t == TBool)
  }

  /** The annotation text of an argument of type `t`, where `typing.show` is `str()`
      of the looked-up type. */
  function TypeText(arg: Argument, t: PyType, opts: Options, typing: Typing): (r: string)
    ensures Widens(arg, t, opts) ==> r == "Optional[Union[" + typing.show(t) + ", bool]]"
    ensures Widens(arg, t, opts) ==> StartsWith(r, "Optional[Union[") && EndsWith(r, ", bool]]")
    ensures !Widens(arg, t, opts) ==> r == typing.show(t)
  {
    var r := "Optional[Union[" + typing.show(t) + ", bool]]";
    assert r[..|"Optional[Union["|] == "Optional[Union[";
    assert r[|r| - |", bool]]"|..] == ", bool]]";
    if Widens(arg, t, opts) then r else typing.show(t)
  }

  /** The names an argument is bound under in the signature: one name when
      both styles are on and its two names agree; otherwise its long name
      if long style is on and it has one, then its short name likewise. */
  function BoundNames(arg: Argument, opts: Options): (r: seq<string>)
    ensures forall i, j :: 0 <= i < j < |r| ==> r[i] != r[j]
    ensures opts.longArgs && opts.shortArgs && arg.longName == arg.shortName ==> |r| == 1
    ensures opts.longArgs && arg.longName != "" ==> arg.longName in r
    ensures opts.shortArgs && arg.shortName != "" ==> arg.shortName in r
    ensures forall n :: n in r ==> (opts.longArgs && n == arg.longName) || (opts.shortArgs && n == arg.shortName)
    ensures forall n :: n in r && n == "" ==> opts.longArgs && opts.shortArgs && arg.longName == arg.shortName
    ensures |r| <= 2 && (|r| == 2 ==> r == [arg.longName, arg.shortName])
  {
    if opts.longArgs && opts.shortArgs && arg.longName == arg.shortName then [arg.longName]
    else
      (if opts.longArgs && arg.longName != "" then [arg.longName] else [])
      + (if opts.shortArgs && arg.shortName != "" then [arg.shortName] else [])
  }

  /** One keyword binding with the placeholder default. */
  function Binding(name: string, annotation: string): string {
    name + ": " + annotation + " = ..."
  }

  /** The bindings of one argument. An argument whose token has no entry
      has none; `Stub` fails before it would be rendered. */
  function ArgBindings(arg: Argument, opts: Options, typing: Typing): (r: seq<string>)
    ensures typing.lookup(arg.typeToken).Some? ==> |r| == |BoundNames(arg, opts)|
    ensures typing.lookup(arg.typeToken).Some? ==>
              forall i :: 0 <= i < |r| ==> r[i] == Binding(BoundNames(arg, opts)[i], TypeText(arg, TypeOf(arg, typing), opts, typing))
    ensures typing.lookup(arg.typeToken).None? ==> r == []
  {
    match typing.lookup(arg.typeToken)
    case None => []
    case Some(t) =>
      var names := BoundNames(arg, opts);
      var ty := TypeText(arg, t, opts, typing);
      seq(|names|, i requires 0 <= i < |names| => Binding(names[i], ty))
  }

  /** The bindings of all arguments, in argument order. */
  function Params(args: seq<Argument>, opts: Options, typing: Typing): seq<string> {
    if args == [] then []
    else
      var n := |args| - 1;
      Params(args[..n], opts, typing) + ArgBindings(args[n], opts, typing)
  }

  /** The mode switches that close the parameter list: `edit` for an
      editable command, then `query` for a queryable one. */
  function ModeBindings(cmd: MayaCommand): seq<string> {
    (if cmd.editable then ["edit: bool = ..."] else [])
    + (if cmd.queryable then ["query: bool = ..."] else [])
  }

  /** The items of the parameter list: `*args`, the argument bindings, the mode bindings. */
  function Items(cmd: MayaCommand, opts: Options, typing: Typing): seq<string> {
    ["*args"] + Params(cmd.arguments, opts, typing) + ModeBindings(cmd)
  }

  /** The signature line: `*args`, the argument bindings, the mode bindings,
      separated by ", ", with no comma before the closing parenthesis. */
  function Signature(cmd: MayaCommand, opts: Options, typing: Typing): string {
    "def " + cmd.name + "(" + Join(Items(cmd, opts, typing), ", ") + ") -> Any:\n"
  }

  // ------------------------------------------------------------- docstring

  /** The name a docstring line gives an argument: the long name when long
      names are written, followed by `" | "` and the short name when both are
      and there is one; the short name alone when only short names are. */
  function ArgName(arg: Argument, opts: Options): (r: string)
    ensures opts.longArgs ==> StartsWith(r, arg.longName)
    ensures opts.shortArgs ==> EndsWith(r, arg.shortName)
    ensures opts.longArgs && opts.shortArgs && arg.shortName != "" ==>
              |r| == |arg.longName| + 3 + |arg.shortName| && r[|arg.longName|..|arg.longName| + 3] == " | "
    ensures opts.longArgs && (!opts.shortArgs || arg.shortName == "") ==> r == arg.longName
    ensures !opts.longArgs ==> r == if opts.shortArgs then arg.shortName else ""
  {
    if opts.longArgs && opts.shortArgs then
      arg.longName + (if arg.shortName != "" then " | " + arg.shortName else "")
    else if opts.longArgs then arg.longName
    else if opts.shortArgs then arg.shortName
    else ""
  }

  /** `str(argument.properties)`: never more than one line. */
  function PropsText(props: Option<Properties>): (r: string)
    ensures NoLineBreak(r)
  {
    match props
    case None => "None"
    case Some(p) => ReprOneLine(p); Repr(p)
  }

  /** `" ".join(text.splitlines())` */
  function OneLine(text: string): (r: string)
    ensures NoLineBreak(r)
    ensures NoLineBreak(text) ==> r == text
  {
    SplitLinesSingle(text);
    JoinNoLineBreak(SplitLines(text), " ");
    Join(SplitLines(text), " ")
  }

  /** The docstring line of one argument. */
  function ArgLine(arg: Argument, opts: Options): string {
    ArgText(arg, opts) + "\n"
  }

  /** The docstring line of one argument without its line end. */
  function ArgText(arg: Argument, opts: Options): string {
    "        " + ArgName(arg, opts) + ": (" + PropsText(arg.properties) + ") - " + OneLine(arg.description)
  }

  function ArgLines(args: seq<Argument>, opts: Options): (r: seq<string>)
    ensures |r| == |args|
  {
    seq(|args|, i requires 0 <= i < |args| => ArgLine(args[i], opts))
  }

  /** The stripped command description with every line after the first indented. */
  function DescriptionBlock(description: string): string {
    "    " + Join(SplitLinesKeep(Strip(description)), "    ") + "\n"
  }

  /** The docstring and the `...` body that follow the signature. */
  function Docstring(cmd: MayaCommand, opts: Options): string {
    "    r\"\"\"\n" + DescriptionBlock(cmd.description) + "\n" + "    Args:\n"
    + Concat(ArgLines(cmd.arguments, opts)) + "    \"\"\"\n" + "    ...\n\n"
  }

  /** `MayaCommand.as_stub()`: the error of the first argument whose type
      token has no entry, otherwise the signature followed by the docstring. */
  function Stub(cmd: MayaCommand, opts: Options, typing: Typing): Result<string, StubError> {
    match FirstUnresolved(cmd.arguments, typing)
    case Some(token) => Failure(UnknownArgumentFormat(cmd.name, token))
    case None => Success(Signature(cmd, opts, typing) + Docstring(cmd, opts))
  }

  // ------------------------------------------------------------ the method

  /** `MayaCommand.as_stub()` as main.py writes it: the signature part, then
      the docstring part, appended to one string. */
  method AsStub(cmd: MayaCommand, opts: Options, typing: Typing) returns (r: Result<string, StubError>)
    ensures r == Stub(cmd, opts, typing)
  {
    var signature := SignatureText(cmd, opts, typing);
    if signature.Failure? {
      return Failure(signature.error);
    }
    var docstring := DocstringText(cmd, opts);
    return Success(signature.value + docstring);
  }

  /** The signature part of `as_stub()`: each argument's bindings are
      appended with a trailing comma, the mode switches likewise, and the
      last comma is cut; an argument whose token has no entry stops it. */
  method SignatureText(cmd: MayaCommand, opts: Options, typing: Typing) returns (r: Result<string, StubError>)
    ensures FirstUnresolved(cmd.arguments, typing).Some? ==>
              r == Failure(UnknownArgumentFormat(cmd.name, FirstUnresolved(cmd.arguments, typing).value))
    ensures FirstUnresolved(cmd.arguments, typing).None? ==> r == Success(Signature(cmd, opts, typing))
  {
    var args := cmd.arguments;
    var fn := "";
    fn := fn + ("def " + cmd.name + "(");
    ghost var head := fn;
    assert head == "def " + cmd.name + "(";
    fn := fn + "*args,";
    ghost var open := fn;
    var i := 0;
    while i < |args|
      invariant 0 <= i <= |args|
      invariant Resolved(args[..i], typing)
      invariant fn == open + Terminated(Params(args[..i], opts, typing))
    {
      var arg := args[i];
      var argTypehint := typing.lookup(arg.typeToken);
      if argTypehint.None? {
        FirstUnresolvedAt(args, i, typing);
        return Failure(UnknownArgumentFormat(cmd.name, arg.typeToken));
      }
      var t := argTypehint.value;
      var ty := typing.show(t);
      if arg.properties.Some? {
        if arg.properties.value.create || arg.properties.value.query {
          if !(opts.boolExempt && t == TBool) {
            ty := "Optional[Union[" + ty + ", bool]]";
          }
        }
      }
      assert ty == TypeText(arg, TypeOf(arg, typing), opts, typing);
      ghost var before := fn;
      if opts.longArgs && opts.shortArgs && arg.longName == arg.shortName {
        fn := fn + (" " + arg.longName + ": " + ty + " = ...,");
      } else {
        if opts.longArgs && arg.longName != "" {
          fn := fn + (" " + arg.longName + ": " + ty + " = ...,");
        }
        if opts.shortArgs && arg.shortName != "" {
          fn := fn + (" " + arg.shortName + ": " + ty + " = ...,");
        }
      }
      BindingsText(before, fn, arg, opts, typing);
      ParamsSnoc(args, i, opts, typing);
      ResolvedSnoc(args, i, typing);
      TerminatedAppend(Params(args[..i], opts, typing), ArgBindings(arg, opts, typing));
      Regroup(open, Terminated(Params(args[..i], opts, typing)), before, Terminated(ArgBindings(arg, opts, typing)), fn);
      i := i + 1;
    }
    assert args[..i] == args;
    ghost var params := Params(args, opts, typing);
    ghost var bound := fn;
    if cmd.editable {
      fn := fn + " edit: bool = ...,";
    }
    if cmd.queryable {
      fn := fn + " query: bool = ...,";
    }
    ModesText(bound, fn, cmd);
    TerminatedAppend(params, ModeBindings(cmd));
    Regroup(open, Terminated(params), bound, Terminated(ModeBindings(cmd)), fn);
    CutLastComma(head, params, ModeBindings(cmd), fn);
    if EndsWith(fn, ",") {
      fn := fn[..|fn| - 1];
    }
    ghost var list := fn;
    fn := fn + ") -> Any:";
    fn := fn + "\n";
    CloseSignature(list, fn, cmd, opts, typing);
    return Success(fn);
  }

  /** The docstring part of `as_stub()`: the description block, then one
      line per argument, then the closing quotes and the `...` body. */
  method DocstringText(cmd: MayaCommand, opts: Options) returns (fn: string)
    ensures fn == Docstring(cmd, opts)
  {
    var args := cmd.arguments;
    fn := "    r\"\"\"\n";
    var desc := SplitLinesKeep(Strip(cmd.description));
    fn := fn + ("    " + Join(desc, "    ") + "\n");
    fn := fn + "\n";
    fn := fn + "    Args:\n";
    ghost var top := fn;
    var j := 0;
    while j < |args|
      invariant 0 <= j <= |args|
      invariant fn == top + Concat(ArgLines(args[..j], opts))
    {
      var line := ArgumentLine(args[j], opts);
      ghost var before := fn;
      fn := fn + line;
      LinesSnoc(args, j, opts);
      ConcatSnoc(ArgLines(args[..j], opts), line);
      Regroup(top, Concat(ArgLines(args[..j], opts)), before, line, fn);
      j := j + 1;
    }
    assert args[..j] == args;
    ghost var body := fn;
    fn := fn + "    \"\"\"\n";
    fn := fn + "    ...\n\n";
    CloseDocstring(cmd, opts, top, body, fn);
  }

  /** One argument's docstring line: its name as the options ask for it,
      its flags and its description on one line. */
  method ArgumentLine(arg: Argument, opts: Options) returns (line: string)
    ensures line == ArgLine(arg, opts)
  {
    var argumentName := "";
    if opts.longArgs && opts.shortArgs {
      argumentName := arg.longName;
      if arg.shortName != "" {
        argumentName := argumentName + (" | " + arg.shortName);
      }
    } else if opts.longArgs {
      argumentName := arg.longName;
    } else if opts.shortArgs {
      argumentName := arg.shortName;
    }
    var description := SplitLines(arg.description);
    var oneLine := Join(description, " ");
    line := "        " + argumentName + ": (" + PropsText(arg.properties) + ") - " + oneLine + "\n";
  }

  // ------------------------------------------------- steps of the method

  /** Text appended after text already appended. */
  lemma Regroup(a: string, b: string, ab: string, c: string, abc: string)
    requires ab == a + b && abc == ab + c
    ensures abc == a + (b + c)
  {
  }

  /** When every argument before position `i` resolves and the one at `i`
      does not, its token is the first unresolved one. */
  lemma {:induction false} FirstUnresolvedAt(args: seq<Argument>, i: nat, typing: Typing)
    requires i < |args| && Resolved(args[..i], typing) && typing.lookup(args[i].typeToken).None?
    ensures FirstUnresolved(args, typing) == Some(args[i].typeToken)
  {
    if i > 0 {
      assert typing.lookup(args[..i][0].typeToken).Some?;
      assert args[1..][..i - 1] == args[1..i];
      assert forall k :: 0 <= k < i - 1 ==> args[1..i][k] == args[..i][k + 1];
      FirstUnresolvedAt(args[1..], i - 1, typing);
    }
  }

  lemma ParamsSnoc(args: seq<Argument>, i: nat, opts: Options, typing: Typing)
    requires i < |args|
    ensures Params(args[..i + 1], opts, typing) == Params(args[..i], opts, typing) + ArgBindings(args[i], opts, typing)
  {
    assert args[..i + 1][..i] == args[..i];
  }

  lemma ResolvedSnoc(args: seq<Argument>, i: nat, typing: Typing)
    requires i < |args| && Resolved(args[..i], typing) && typing.lookup(args[i].typeToken).Some?
    ensures Resolved(args[..i + 1], typing)
  {
    assert args[..i + 1] == args[..i] + [args[i]];
  }

  /** One binding appended as " name: annotation = ...,". */
  lemma BindingStep(before: string, name: string, ty: string)
    ensures before + (" " + name + ": " + ty + " = ...,") == before + Terminated([Binding(name, ty)])
  {
    assert [Binding(name, ty)][..0] == [];
    assert " = ...," == " = ..." + ",";
  }

  /** The text the loop body appends for one argument is its bindings, each
      preceded by a space and followed by a comma. */
  lemma BindingsText(before: string, fn: string, arg: Argument, opts: Options, typing: Typing)
    requires typing.lookup(arg.typeToken).Some?
    requires var ty := TypeText(arg, TypeOf(arg, typing), opts, typing);
      fn == if opts.longArgs && opts.shortArgs && arg.longName == arg.shortName then
              before + (" " + arg.longName + ": " + ty + " = ...,")
            else
              var mid := if opts.longArgs && arg.longName != "" then before + (" " + arg.longName + ": " + ty + " = ...,") else before;
              if opts.shortArgs && arg.shortName != "" then mid + (" " + arg.shortName + ": " + ty + " = ...,") else mid
    ensures fn == before + Terminated(ArgBindings(arg, opts, typing))
  {
    var ty := TypeText(arg, TypeOf(arg, typing), opts, typing);
    var bs := ArgBindings(arg, opts, typing);
    if opts.longArgs && opts.shortArgs && arg.longName == arg.shortName {
      assert bs == [Binding(arg.longName, ty)];
      BindingStep(before, arg.longName, ty);
    } else {
      var l := opts.longArgs && arg.longName != "";
      var sh := opts.shortArgs && arg.shortName != "";
      var mid := if l then before + (" " + arg.longName + ": " + ty + " = ...,") else before;
      if l {
        BindingStep(before, arg.longName, ty);
      }
      if l && sh {
        assert bs == [Binding(arg.longName, ty)] + [Binding(arg.shortName, ty)];
        BindingStep(mid, arg.shortName, ty);
        TerminatedAppend([Binding(arg.longName, ty)], [Binding(arg.shortName, ty)]);
      } else if l {
        assert bs == [Binding(arg.longName, ty)];
      } else if sh {
        assert bs == [Binding(arg.shortName, ty)];
        BindingStep(before, arg.shortName, ty);
      } else {
        assert bs == [];
      }
    }
  }

  /** The mode switches are appended like bindings. */
  lemma ModesText(before: string, fn: string, cmd: MayaCommand)
    requires var mid := if cmd.editable then before + " edit: bool = ...," else before;
      fn == if cmd.queryable then mid + " query: bool = ...," else mid
    ensures fn == before + Terminated(ModeBindings(cmd))
  {
    var e, q := "edit: bool = ...", "query: bool = ...";
    TerminatedSingle(e, " edit: bool = ...,");
    TerminatedSingle(q, " query: bool = ...,");
    if cmd.editable && cmd.queryable {
      TerminatedAppend([e], [q]);
      assert ModeBindings(cmd) == [e] + [q];
      AppendAssociates(before, " edit: bool = ...,", " query: bool = ...,");
    } else if cmd.editable {
      assert ModeBindings(cmd) == [e];
    } else if cmd.queryable {
      assert ModeBindings(cmd) == [q];
    } else {
      assert ModeBindings(cmd) == [];
    }
  }

  /** A single item is written with its leading space and trailing comma. */
  lemma TerminatedSingle(x: string, text: string)
    requires text == " " + x + ","
    ensures Terminated([x]) == text
  {
    assert [x][..0] == [];
  }

  /** Cutting the last comma of "head*args, b1, ..., bn," closes the list. */
  lemma CutLastComma(head: string, params: seq<string>, modes: seq<string>, fn: string)
    requires fn == head + "*args," + Terminated(params + modes)
    ensures EndsWith(fn, ",")
    ensures fn[..|fn| - 1] == head + Join(["*args"] + params + modes, ", ")
  {
    var bindings := params + modes;
    assert ["*args"] + bindings == ["*args"] + params + modes;
    var joined := Join(["*args"] + bindings, ", ");
    TerminatedJoin("*args", bindings);
    assert "*args," + Terminated(bindings) == "*args" + "," + Terminated(bindings);
    Regroup(head, "*args,", head + "*args,", Terminated(bindings), fn);
    Regroup(head, joined, head + joined, ",", head + joined + ",");
    assert fn == head + joined + ",";
    assert fn[..|fn| - 1] == head + joined;
  }

  lemma LinesSnoc(args: seq<Argument>, j: nat, opts: Options)
    requires j < |args|
    ensures ArgLines(args[..j + 1], opts) == ArgLines(args[..j], opts) + [ArgLine(args[j], opts)]
  {
  }

  /** The head, the argument lines and the closing quotes make the docstring. */
  lemma CloseDocstring(cmd: MayaCommand, opts: Options, top: string, body: string, fn: string)
    requires top == "    r\"\"\"\n" + DescriptionBlock(cmd.description) + "\n" + "    Args:\n"
    requires body == top + Concat(ArgLines(cmd.arguments, opts))
    requires fn == body + "    \"\"\"\n" + "    ...\n\n"
    ensures fn == Docstring(cmd, opts)
  {
  }

  /** The closing parenthesis and return annotation complete the signature. */
  lemma CloseSignature(list: string, fn: string, cmd: MayaCommand, opts: Options, typing: Typing)
    requires Resolved(cmd.arguments, typing)
    requires list == "def " + cmd.name + "(" + Join(["*args"] + Params(cmd.arguments, opts, typing) + ModeBindings(cmd), ", ")
    requires fn == list + ") -> Any:" + "\n"
    ensures fn == Signature(cmd, opts, typing)
  {
    assert ") -> Any:" + "\n" == ") -> Any:\n";
  }

  // ------------------------------------------------------------ properties

  /** `as_stub()` fails exactly when some argument's token has no entry,
      naming the first such token; it never returns part of a stub. */
  lemma StubFailsIffUnresolved(cmd: MayaCommand, opts: Options, typing: Typing)
    ensures Stub(cmd, opts, typing).Failure? <==>
              exists k :: 0 <= k < |cmd.arguments| && typing.lookup(cmd.arguments[k].typeToken).None?
    ensures Stub(cmd, opts, typing).Failure? ==>
              exists i :: 0 <= i < |cmd.arguments|
                && Stub(cmd, opts, typing).error == UnknownArgumentFormat(cmd.name, cmd.arguments[i].typeToken)
                && typing.lookup(cmd.arguments[i].typeToken).None?
                && Resolved(cmd.arguments[..i], typing)
  {
  }

  /** The bindings of two runs of arguments are those of each run in turn. */
  lemma {:induction false} ParamsAppend(a: seq<Argument>, b: seq<Argument>, opts: Options, typing: Typing)
    ensures Params(a + b, opts, typing) == Params(a, opts, typing) + Params(b, opts, typing)
    decreases |b|
  {
    if b == [] {
      assert a + b == a;
    } else {
      var n := |b| - 1;
      ParamsAppend(a, b[..n], opts, typing);
      SnocOfAppend(a, b);
      AppendAssociates(Params(a, opts, typing), Params(b[..n], opts, typing), ArgBindings(b[n], opts, typing));
    }
  }

  /** Every name an argument is bound under appears among the signature's
      bindings, annotated with that argument's type text. */
  lemma ArgumentsBound(args: seq<Argument>, k: nat, opts: Options, typing: Typing)
    requires Resolved(args, typing) && k < |args|
    ensures forall n :: n in BoundNames(args[k], opts) ==>
              Binding(n, TypeText(args[k], TypeOf(args[k], typing), opts, typing)) in Params(args, opts, typing)
  {
    var pre, post := args[..k + 1], args[k + 1..];
    assert args == pre + post;
    assert Resolved(pre, typing) && Resolved(post, typing);
    ParamsAppend(pre, post, opts, typing);
    ParamsSnoc(args, k, opts, typing);
    var bs := ArgBindings(args[k], opts, typing);
    forall n | n in BoundNames(args[k], opts)
      ensures Binding(n, TypeText(args[k], TypeOf(args[k], typing), opts, typing)) in Params(args, opts, typing)
    {
      var names := BoundNames(args[k], opts);
      var i :| 0 <= i < |names| && names[i] == n;
      assert bs[i] in Params(pre, opts, typing);
    }
  }

  /** `b` binds a name of one of `args`, annotated with that argument's type text. */
  ghost predicate BindsArgument(b: string, args: seq<Argument>, opts: Options, typing: Typing)
    requires Resolved(args, typing)
  {
    exists k, n :: 0 <= k < |args| && n in BoundNames(args[k], opts)
      && b == Binding(n, TypeText(args[k], TypeOf(args[k], typing), opts, typing))
  }

  /** Conversely, every binding in the signature binds a name of some
      argument, annotated with that argument's type text. */
  lemma {:induction false} OnlyArgumentsBound(args: seq<Argument>, opts: Options, typing: Typing)
    requires Resolved(args, typing)
    ensures forall b :: b in Params(args, opts, typing) ==> BindsArgument(b, args, opts, typing)
    decreases |args|
  {
    if args != [] {
      var m := |args| - 1;
      var init := args[..m];
      assert Resolved(init, typing);
      OnlyArgumentsBound(init, opts, typing);
      forall b | b in Params(args, opts, typing)
        ensures BindsArgument(b, args, opts, typing)
      {
        if b in Params(init, opts, typing) {
          BindsInPrefix(b, args, m, opts, typing);
        } else {
          BindsLast(b, args, opts, typing);
        }
      }
    }
  }

  /** A binding of an argument of a prefix binds an argument of the whole. */
  lemma BindsInPrefix(b: string, args: seq<Argument>, m: nat, opts: Options, typing: Typing)
    requires Resolved(args, typing) && m <= |args| && Resolved(args[..m], typing)
    requires BindsArgument(b, args[..m], opts, typing)
    ensures BindsArgument(b, args, opts, typing)
  {
    var init := args[..m];
    var k, n :| 0 <= k < |init| && n in BoundNames(init[k], opts)
      && b == Binding(n, TypeText(init[k], TypeOf(init[k], typing), opts, typing));
    assert init[k] == args[k];
  }

  /** A binding of the last argument binds an argument of the whole. */
  lemma BindsLast(b: string, args: seq<Argument>, opts: Options, typing: Typing)
    requires Resolved(args, typing) && args != []
    requires b in ArgBindings(args[|args| - 1], opts, typing)
    ensures BindsArgument(b, args, opts, typing)
  {
    var m := |args| - 1;
    var bs := ArgBindings(args[m], opts, typing);
    var i :| 0 <= i < |bs| && bs[i] == b;
    assert BoundNames(args[m], opts)[i] in BoundNames(args[m], opts);
  }

  /** The signature opens with `def <name>(*args`. */
  lemma SignatureOpens(cmd: MayaCommand, opts: Options, typing: Typing)
    ensures StartsWith(Signature(cmd, opts, typing), "def " + cmd.name + "(*args")
  {
    var items := Items(cmd, opts, typing);
    var list := Join(items, ", ");
    JoinStartsWithFirst(items, ", ");
    var open := "def " + cmd.name + "(";
    var s := Signature(cmd, opts, typing);
    assert s == open + (list + ") -> Any:\n");
    assert (list + ") -> Any:\n")[..5] == "*args";
    assert open + "*args" == "def " + cmd.name + "(*args";
  }

  /** No comma stands before the closing parenthesis: the last item of the
      list is `*args` or a binding ending in `...`. */
  lemma SignatureCloses(cmd: MayaCommand, opts: Options, typing: Typing)
    requires Resolved(cmd.arguments, typing)
    ensures EndsWith(Signature(cmd, opts, typing), ") -> Any:\n")
    ensures var s := Signature(cmd, opts, typing); s[|s| - |") -> Any:\n"| - 1] != ','
  {
    var items := Items(cmd, opts, typing);
    var last := items[|items| - 1];
    JoinEndsWithLast(items, ", ");
    ItemEndsClean(cmd, opts, typing, last);
    ClosedAfter("def " + cmd.name + "(", Join(items, ", "), last);
  }

  /** No item of the parameter list ends with a comma. */
  lemma ItemEndsClean(cmd: MayaCommand, opts: Options, typing: Typing, x: string)
    requires Resolved(cmd.arguments, typing)
    requires x in Items(cmd, opts, typing)
    ensures x != [] && x[|x| - 1] != ','
  {
    if x in Params(cmd.arguments, opts, typing) {
      OnlyArgumentsBound(cmd.arguments, opts, typing);
      assert BindsArgument(x, cmd.arguments, opts, typing);
      var k, n :| 0 <= k < |cmd.arguments| && n in BoundNames(cmd.arguments[k], opts)
        && x == Binding(n, TypeText(cmd.arguments[k], TypeOf(cmd.arguments[k], typing), opts, typing));
      BindingEnds(n, TypeText(cmd.arguments[k], TypeOf(cmd.arguments[k], typing), opts, typing));
    }
  }

  /** A binding ends with the ellipsis of its default. */
  lemma BindingEnds(name: string, annotation: string)
    ensures var b := Binding(name, annotation); b != [] && b[|b| - 1] == '.'
  {
  }

  /** Closing a list whose last item does not end in a comma. */
  lemma ClosedAfter(head: string, list: string, last: string)
    requires EndsWith(list, last) && last != [] && last[|last| - 1] != ','
    ensures EndsWith(head + list + ") -> Any:\n", ") -> Any:\n")
    ensures var s := head + list + ") -> Any:\n"; s[|s| - |") -> Any:\n"| - 1] != ','
  {
    var s := head + list + ") -> Any:\n";
    assert list[|list| - 1] == last[|last| - 1];
    assert s[|s| - 11] == list[|list| - 1];
  }

  /** A description shown on one line stays the same when shown again. */
  /** A description of several lines is joined line by line with a space. */
  lemma OneLineJoinsLines(a: string, b: string)
    requires NoLineBreak(a) && b != []
    ensures OneLine(a + "\n" + b) == a + " " + OneLine(b)
  {
    SplitLinesAfterLine(a, b);
    JoinCons(a, SplitLines(b), " ");
  }

  /** The name part of a docstring line is one line when the names are. */
  lemma ArgNameOneLine(arg: Argument, opts: Options)
    requires NoLineBreak(arg.longName) && NoLineBreak(arg.shortName)
    ensures NoLineBreak(ArgName(arg, opts))
  {
    if opts.longArgs && opts.shortArgs && arg.shortName != "" {
      NoLineBreakAppend(" | ", arg.shortName);
      NoLineBreakAppend(arg.longName, " | " + arg.shortName);
    }
  }

  /** A docstring line ends with its only line break when the argument's
      names hold none: the description is folded onto it. */
  lemma ArgLineOneLine(arg: Argument, opts: Options)
    requires NoLineBreak(arg.longName) && NoLineBreak(arg.shortName)
    ensures NoLineBreak(ArgText(arg, opts))
    ensures var line := ArgLine(arg, opts);
              |line| > 0 && line[|line| - 1] == '\n' && NoLineBreak(line[..|line| - 1])
  {
    var name, props, desc := ArgName(arg, opts), PropsText(arg.properties), OneLine(arg.description);
    ArgNameOneLine(arg, opts);
    NoLineBreakAppend("        ", name);
    NoLineBreakAppend("        " + name, ": (");
    NoLineBreakAppend("        " + name + ": (", props);
    NoLineBreakAppend("        " + name + ": (" + props, ") - ");
    NoLineBreakAppend("        " + name + ": (" + props + ") - ", desc);
    var text := ArgText(arg, opts);
    assert (text + "\n")[..|text|] == text;
  }

  /** The argument block of a docstring splits back into exactly one line per
      argument, in order, when no name holds a line break. */
  lemma ArgLinesSplit(args: seq<Argument>, opts: Options)
    requires forall k :: 0 <= k < |args| ==> NoLineBreak(args[k].longName) && NoLineBreak(args[k].shortName)
    ensures SplitLinesKeep(Concat(ArgLines(args, opts))) == ArgLines(args, opts)
  {
    var lines := ArgLines(args, opts);
    forall i | 0 <= i < |lines|
      ensures |lines[i]| > 0 && lines[i][|lines[i]| - 1] == '\n' && NoLineBreak(lines[i][..|lines[i]| - 1])
    {
      ArgLineOneLine(args[i], opts);
    }
    SplitLinesKeepConcat(lines);
  }

  // ------------------------------------------------------- the two typings

  /** `str()` of the looked-up type, which the f-strings of main.py print. */
  const StrTyping := Typing(ArgsToTypehints, Rendered)

  /** The same types passed through `typing_and_natives_to_str` first. */
  const CleanTyping := Typing(ArgsToTypehints, t => TypingAndNativesToStr(Rendered(t), TypeName(t)))

  /** As written, a plain float argument is annotated with the class text. */
  lemma NativeClassTextAsWritten(arg: Argument, opts: Options)
    requires !Widens(arg, TFloat, opts)
    ensures TypeText(arg, TFloat, opts, StrTyping) == "<class 'float'>"
  {
    assert Rendered(TFloat) == "<class '" + "float" + "'>";
  }

  /** Through `typing_and_natives_to_str`, every annotation is the bare
      typing form that the stub module's imports name. */
  lemma CleanAnnotations(arg: Argument, t: PyType, opts: Options)
    ensures !Widens(arg, t, opts) ==> TypeText(arg, t, opts, CleanTyping) == Annotation(t)
    ensures Widens(arg, t, opts) ==> TypeText(arg, t, opts, CleanTyping) == "Optional[Union[" + Annotation(t) + ", bool]]"
  {
    DocstringForm(t);
  }

  /** As written, the guard of main.py:205 never fires: a create or query
      argument of type bool is widened like any other. */
  lemma BoolWidenedAsWritten(arg: Argument, opts: Options, typing: Typing)
    requires !opts.boolExempt
    requires arg.properties.Some? && (arg.properties.value.create || arg.properties.value.query)
    ensures TypeText(arg, TBool, opts, typing) == "Optional[Union[" + typing.show(TBool) + ", bool]]"
  {
  }

  /** With the exemption, a bool argument keeps its type and every other
      create or query argument is still widened. */
  lemma BoolKeptWhenExempt(arg: Argument, t: PyType, opts: Options, typing: Typing)
    requires opts.boolExempt
    ensures TypeText(arg, TBool, opts, typing) == typing.show(TBool)
    ensures t != TBool && arg.properties.Some? && (arg.properties.value.create || arg.properties.value.query) ==>
              TypeText(arg, t, opts, typing) == "Optional[Union[" + typing.show(t) + ", bool]]"
  {
  }

  // ------------------------------------------------------ external command

  /** The part of an external stub after its name. */
  const ExternalTail := "(*args, **kwargs) -> Any: ...\n"

  /** `ExternalCommand.as_stub()`: a catch-all signature for the name. */
  function ExternalStub(name: string): (r: string)
    ensures StartsWith(r, "def " + name)
    ensures EndsWith(r, ExternalTail)
    ensures |r| == |"def "| + |name| + |ExternalTail|
  {
    var r := "def " + name + "(" + "*args, **kwargs" + ") -> Any: ...\n";
    assert "(" + "*args, **kwargs" + ") -> Any: ...\n" == ExternalTail;
    assert r == "def " + name + ExternalTail;
    assert r[..|"def " + name|] == "def " + name;
    r
  }

  /** The name an external stub was written for. */
  function ExternalName(stub: string): string
    requires |stub| >= |"def "| + |ExternalTail|
  {
    stub[|"def "|..|stub| - |ExternalTail|]
  }

  /** The name can be read back from its external stub. */
  lemma ExternalRoundTrip(name: string)
    ensures ExternalName(ExternalStub(name)) == name
  {
    var r := ExternalStub(name);
    assert r[..|"def " + name|] == "def " + name;
    assert r[|"def "|..|"def " + name|] == ("def " + name)[|"def "|..];
  }
}
