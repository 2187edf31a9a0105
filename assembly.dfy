/** The data part of `write_command_stubs` in main.py: the primary category
    of each command, the list of those categories without repeats, and the
    text each category's module receives (a header, then the stub of every
    command of that category, in input order). */
module Assembly {
  import opened Wrappers
  import opened PyStrings
  import opened Render

  /** The first line of every category module. */
  const Header := "from typing import Union, Optional, List, Tuple, Any\n\n"

  /** Why writing stops: a command without categories (the `IndexError` of
      `command.categories[0]`), or a stub that raises. */
  datatype WriteError = Uncategorised(command: string) | StubFailed(error: StubError)

  /** What `write_command_stubs` leaves behind: the category list, the text
      of `__init__.py`, the text of each category module, and the error that
      stopped it, if any. */
  datatype Outcome = Outcome(
    categories: seq<string>,
    init: string,
    sections: map<string, string>,
    error: Option<WriteError>)

  // ------------------------------------------------------------ categories

  predicate Categorised(cmds: seq<MayaCommand>) {
    forall k :: 0 <= k < |cmds| ==> cmds[k].categories != []
  }

  /** How many commands, from the front, have a category. */
  function CategorisedPrefix(cmds: seq<MayaCommand>): (n: nat)
    ensures n <= |cmds|
    ensures forall k :: 0 <= k < n ==> cmds[k].categories != []
    ensures n < |cmds| ==> cmds[n].categories == []
  {
    if cmds == [] || cmds[0].categories == [] then 0
    else 1 + CategorisedPrefix(cmds[1..])
  }

  /** `command.categories[0]` */
  function Primary(cmd: MayaCommand): string
    requires cmd.categories != []
  {
    cmd.categories[0]
  }

  function Primaries(cmds: seq<MayaCommand>): (r: seq<string>)
    requires Categorised(cmds)
    ensures |r| == |cmds|
  {
    seq(|cmds|, i requires 0 <= i < |cmds| => Primary(cmds[i]))
  }

  /** Where `x` first occurs in `xs`. */
  function FirstIndex(xs: seq<string>, x: string): (i: nat)
    requires x in xs
    ensures i < |xs| && xs[i] == x && x !in xs[..i]
  {
    if xs[0] == x then 0
    else
      var i := 1 + FirstIndex(xs[1..], x);
      assert xs[..i] == [xs[0]] + xs[1..][..i - 1];
      i
  }

  /** The items of `xs` without repeats, each where it first occurs. */
  function FirstSeen(xs: seq<string>): (r: seq<string>)
    ensures forall x :: x in r <==> x in xs
    ensures forall i, j :: 0 <= i < j < |r| ==> r[i] != r[j]
    ensures forall i, j :: 0 <= i < j < |r| ==> FirstIndex(xs, r[i]) < FirstIndex(xs, r[j])
  {
    if xs == [] then []
    else
      var n := |xs| - 1;
      var init := xs[..n];
      var p := FirstSeen(init);
      assert xs == init + [xs[n]];
      FirstIndexSnoc(init, xs[n]);
      if xs[n] in p then p else p + [xs[n]]
  }

  /** Appending items keeps the first occurrence of an item already there. */
  lemma {:induction false} FirstIndexAppend(xs: seq<string>, ys: seq<string>, x: string)
    requires x in xs
    ensures FirstIndex(xs + ys, x) == FirstIndex(xs, x)
  {
    if xs[0] != x {
      assert (xs + ys)[1..] == xs[1..] + ys;
      FirstIndexAppend(xs[1..], ys, x);
    }
  }

  /** A new item first occurs where it is appended. */
  lemma {:induction false} FirstIndexNew(xs: seq<string>, y: string)
    requires y !in xs
    ensures FirstIndex(xs + [y], y) == |xs|
  {
    if xs != [] {
      assert (xs + [y])[1..] == xs[1..] + [y];
      FirstIndexNew(xs[1..], y);
    }
  }

  lemma FirstIndexSnoc(xs: seq<string>, y: string)
    ensures forall x :: x in xs ==> FirstIndex(xs + [y], x) == FirstIndex(xs, x)
    ensures y !in xs ==> FirstIndex(xs + [y], y) == |xs|
  {
    forall x | x in xs
      ensures FirstIndex(xs + [y], x) == FirstIndex(xs, x)
    {
      FirstIndexAppend(xs, [y], x);
    }
    if y !in xs {
      FirstIndexNew(xs, y);
    }
  }

  /** The text of `__init__.py`: one star import per category. */
  function InitModule(categories: seq<string>): string {
    Concat(seq(|categories|, i requires 0 <= i < |categories| => "from " + categories[i] + " import *\n"))
  }

  // ----------------------------------------------------------------- stubs

  /** `command.as_stub()` under fixed options and typing. */
  function Stubber(opts: Options, typing: Typing): MayaCommand -> Result<string, StubError> {
    cmd => Stub(cmd, opts, typing)
  }

  predicate AllStubbed(cmds: seq<MayaCommand>, render: MayaCommand -> Result<string, StubError>) {
    forall k :: 0 <= k < |cmds| ==> render(cmds[k]).Success?
  }

  /** How many commands, from the front, have a stub. */
  function Succeeding(cmds: seq<MayaCommand>, render: MayaCommand -> Result<string, StubError>): (n: nat)
    ensures n <= |cmds|
    ensures forall k :: 0 <= k < n ==> render(cmds[k]).Success?
    ensures n < |cmds| ==> render(cmds[n]).Failure?
  {
    if cmds == [] || render(cmds[0]).Failure? then 0
    else 1 + Succeeding(cmds[1..], render)
  }

  /** The stubs of the commands of category `c`, each followed by a newline, in input order. */
  function Lines(cmds: seq<MayaCommand>, c: string, render: MayaCommand -> Result<string, StubError>): string
    requires Categorised(cmds) && AllStubbed(cmds, render)
  {
    if cmds == [] then ""
    else
      var n := |cmds| - 1;
      var last := cmds[n];
      Lines(cmds[..n], c, render) + (if Primary(last) == c then render(last).value + "\n" else "")
  }

  /** Each category module: the header, then the stubs written to it. */
  function Sections(done: seq<MayaCommand>, categories: seq<string>, render: MayaCommand -> Result<string, StubError>): map<string, string>
    requires Categorised(done) && AllStubbed(done, render)
  {
    map c | c in categories :: Header + Lines(done, c, render)
  }

  /** The first loop of `write_command_stubs`: the primary categories
      without repeats, or the error of the first command without one. */
  function Categories(cmds: seq<MayaCommand>): Result<seq<string>, WriteError> {
    var n := CategorisedPrefix(cmds);
    if n < |cmds| then Failure(Uncategorised(cmds[n].name)) else Success(FirstSeen(Primaries(cmds)))
  }

  /** `write_command_stubs`: nothing is written when a command has no
      category; otherwise every category module is created, and the stubs
      are appended until one raises. */
  function Written(cmds: seq<MayaCommand>, render: MayaCommand -> Result<string, StubError>): Outcome {
    match Categories(cmds)
    case Failure(e) => Outcome([], "", map[], Some(e))
    case Success(categories) =>
      var m := Succeeding(cmds, render);
      Outcome(categories, InitModule(categories), Sections(cmds[..m], categories, render),
              if m < |cmds| then Some(StubFailed(render(cmds[m]).error)) else None)
  }

  // ------------------------------------------------------------ properties

  /** The category list names the first category of every command and
      nothing else, each once, in the order the commands first use them. */
  lemma CategoriesListed(cmds: seq<MayaCommand>)
    requires Categorised(cmds)
    ensures Categories(cmds).Success?
    ensures forall k :: 0 <= k < |cmds| ==> Primary(cmds[k]) in Categories(cmds).value
    ensures forall c :: c in Categories(cmds).value ==> exists k :: 0 <= k < |cmds| && Primary(cmds[k]) == c
    ensures var r := Categories(cmds).value; forall i, j :: 0 <= i < j < |r| ==> r[i] != r[j]
    ensures var r := Categories(cmds).value;
      forall i, j :: 0 <= i < j < |r| ==> FirstIndex(Primaries(cmds), r[i]) < FirstIndex(Primaries(cmds), r[j])
  {
    var ps := Primaries(cmds);
    assert CategorisedPrefix(cmds) == |cmds|;
    forall k | 0 <= k < |cmds|
      ensures Primary(cmds[k]) in Categories(cmds).value
    {
      assert ps[k] == Primary(cmds[k]);
    }
  }

  /** A category's stubs from two runs of commands are those of the first
      run, then those of the second. */
  lemma {:induction false} LinesAppend(a: seq<MayaCommand>, b: seq<MayaCommand>, c: string, render: MayaCommand -> Result<string, StubError>)
    requires Categorised(a) && AllStubbed(a, render) && Categorised(b) && AllStubbed(b, render)
    ensures Categorised(a + b) && AllStubbed(a + b, render)
    ensures Lines(a + b, c, render) == Lines(a, c, render) + Lines(b, c, render)
    decreases |b|
  {
    assert forall k :: 0 <= k < |a + b| ==> (a + b)[k] == if k < |a| then a[k] else b[k - |a|];
    if b == [] {
      assert a + b == a;
    } else {
      var n := |b| - 1;
      var init := b[..n];
      LinesAppend(a, init, c, render);
      var ab := a + b;
      assert ab[..|ab| - 1] == a + init;
      assert ab[|ab| - 1] == b[n];
    }
  }

  /** Every command's stub lands in the module of its first category, after
      the stubs of the commands before it and before those after it, and in
      no other module. */
  lemma StubLandsInItsCategory(cmds: seq<MayaCommand>, i: nat, c: string, render: MayaCommand -> Result<string, StubError>)
    requires i < |cmds| && Categorised(cmds) && AllStubbed(cmds, render)
    ensures Lines(cmds, c, render)
            == Lines(cmds[..i], c, render)
               + (if Primary(cmds[i]) == c then render(cmds[i]).value + "\n" else "")
               + Lines(cmds[i + 1..], c, render)
  {
    var pre, post := cmds[..i + 1], cmds[i + 1..];
    assert cmds == pre + post;
    LinesAppend(pre, post, c, render);
    assert pre[..i] == cmds[..i];
  }

  // ---------------------------------------------------------------- method

  /** `write_command_stubs` as main.py writes it, with the files as values:
      its loops are the methods below, run in the same order. */
  method WriteCommandStubs(cmds: seq<MayaCommand>, opts: Options, typing: Typing) returns (out: Outcome)
    ensures out == Written(cmds, Stubber(opts, typing))
  {
    var baseCategories := BaseCategories(cmds);
    if baseCategories.Failure? {
      return Outcome([], "", map[], Some(baseCategories.error));
    }
    var categories := baseCategories.value;
    CategoriesListed(cmds);
    var init := InitText(categories);
    var files := Headers(categories);
    var error;
    files, error := AppendStubs(cmds, categories, files, opts, typing);
    return Outcome(categories, init, files, error);
  }

  /** The loop that collects each command's first category, once. */
  method BaseCategories(cmds: seq<MayaCommand>) returns (r: Result<seq<string>, WriteError>)
    ensures r == Categories(cmds)
  {
    var baseCategories: seq<string> := [];
    for i := 0 to |cmds|
      invariant Categorised(cmds[..i])
      invariant baseCategories == FirstSeen(Primaries(cmds[..i]))
    {
      if cmds[i].categories == [] {
        CategorisedPrefixAt(cmds, i);
        return Failure(Uncategorised(cmds[i].name));
      }
      var baseCategory := cmds[i].categories[0];
      PrimariesSnoc(cmds, i);
      if baseCategory !in baseCategories {
        baseCategories := baseCategories + [baseCategory];
      }
    }
    assert cmds[..|cmds|] == cmds;
    return Success(baseCategories);
  }

  /** The loop that writes `__init__.py`. */
  method InitText(categories: seq<string>) returns (init: string)
    ensures init == InitModule(categories)
  {
    init := "";
    for k := 0 to |categories|
      invariant init == InitModule(categories[..k])
    {
      InitModuleSnoc(categories, k);
      init := init + ("from " + categories[k] + " import *\n");
    }
    assert categories[..|categories|] == categories;
  }

  /** The loop that appends each command's stub to its category's module,
      stopping at the first stub that raises. */
  method AppendStubs(cmds: seq<MayaCommand>, categories: seq<string>, headers: map<string, string>, opts: Options, typing: Typing)
    returns (files: map<string, string>, error: Option<WriteError>)
    requires Categorised(cmds) && forall k :: 0 <= k < |cmds| ==> Primary(cmds[k]) in categories
    requires headers == map c | c in categories :: Header
    ensures var m := Succeeding(cmds, Stubber(opts, typing));
      && files == Sections(cmds[..m], categories, Stubber(opts, typing))
      && error == if m < |cmds| then Some(StubFailed(Stubber(opts, typing)(cmds[m]).error)) else None
  {
    ghost var render := Stubber(opts, typing);
    files := headers;
    SectionsEmpty(cmds, categories, render);
    for i := 0 to |cmds|
      invariant AllStubbed(cmds[..i], render)
      invariant files == Sections(cmds[..i], categories, render)
    {
      var baseCategory := cmds[i].categories[0];
      var stub := AsStub(cmds[i], opts, typing);
      assert stub == render(cmds[i]);
      if stub.Failure? {
        SucceedingAt(cmds, i, render);
        return files, Some(StubFailed(stub.error));
      }
      SectionsSnoc(cmds, i, categories, render);
      files := files[baseCategory := files[baseCategory] + (stub.value + "\n")];
    }
    assert cmds[..|cmds|] == cmds;
    SucceedingAll(cmds, render);
    error := None;
  }

  /** The loop that creates each category module with its header. */
  method Headers(categories: seq<string>) returns (files: map<string, string>)
    ensures files == map c | c in categories :: Header
  {
    files := map[];
    for k := 0 to |categories|
      invariant files == map c | c in categories[..k] :: Header
    {
      assert categories[..k + 1] == categories[..k] + [categories[k]];
      files := files[categories[k] := Header];
    }
    assert categories[..|categories|] == categories;
  }

  // ------------------------------------------------- steps of the method

  lemma PrimariesSnoc(cmds: seq<MayaCommand>, i: nat)
    requires i < |cmds| && Categorised(cmds[..i]) && cmds[i].categories != []
    ensures Categorised(cmds[..i + 1])
    ensures Primaries(cmds[..i + 1]) == Primaries(cmds[..i]) + [Primary(cmds[i])]
  {
  }

  lemma InitModuleSnoc(categories: seq<string>, k: nat)
    requires k < |categories|
    ensures InitModule(categories[..k + 1]) == InitModule(categories[..k]) + ("from " + categories[k] + " import *\n")
  {
    var line := (i: int) requires 0 <= i < |categories| => "from " + categories[i] + " import *\n";
    var all := seq(k + 1, i requires 0 <= i < k + 1 => line(i));
    assert seq(|categories[..k + 1]|, i requires 0 <= i < k + 1 => "from " + categories[..k + 1][i] + " import *\n") == all;
    assert seq(|categories[..k]|, i requires 0 <= i < k => "from " + categories[..k][i] + " import *\n") == all[..k];
    assert all == all[..k] + [line(k)];
    ConcatSnoc(all[..k], line(k));
  }

  /** Before any stub is written, each module holds its header. */
  lemma SectionsEmpty(cmds: seq<MayaCommand>, categories: seq<string>, render: MayaCommand -> Result<string, StubError>)
    ensures Categorised(cmds[..0]) && AllStubbed(cmds[..0], render)
    ensures Sections(cmds[..0], categories, render) == map c | c in categories :: Header
  {
    assert cmds[..0] == [];
    assert Header + "" == Header;
  }

  /** One more stub lands in its own category and nowhere else. */
  lemma SectionsSnoc(cmds: seq<MayaCommand>, i: nat, categories: seq<string>, render: MayaCommand -> Result<string, StubError>)
    requires i < |cmds| && Categorised(cmds) && AllStubbed(cmds[..i], render)
    requires render(cmds[i]).Success? && Primary(cmds[i]) in categories
    ensures AllStubbed(cmds[..i + 1], render)
    ensures Sections(cmds[..i + 1], categories, render)
            == Sections(cmds[..i], categories, render)[Primary(cmds[i]) :=
                 Sections(cmds[..i], categories, render)[Primary(cmds[i])] + (render(cmds[i]).value + "\n")]
  {
    var done := cmds[..i + 1];
    assert done[..i] == cmds[..i];
    assert AllStubbed(done, render);
    var before := Sections(cmds[..i], categories, render);
    var after := Sections(done, categories, render);
    var p := Primary(cmds[i]);
    var line := render(cmds[i]).value + "\n";
    forall c | c in categories
      ensures after[c] == before[p := before[p] + line][c]
    {
      assert Lines(done, c, render) == Lines(cmds[..i], c, render) + (if p == c then line else "");
    }
    assert after.Keys == before[p := before[p] + line].Keys;
  }

  lemma {:induction false} CategorisedPrefixAt(cmds: seq<MayaCommand>, i: nat)
    requires i < |cmds| && Categorised(cmds[..i]) && cmds[i].categories == []
    ensures CategorisedPrefix(cmds) == i
  {
    if i > 0 {
      assert cmds[..i][0] == cmds[0];
      assert cmds[1..][..i - 1] == cmds[..i][1..];
      assert forall k :: 0 <= k < i - 1 ==> cmds[..i][1..][k] == cmds[..i][k + 1];
      CategorisedPrefixAt(cmds[1..], i - 1);
    }
  }

  lemma {:induction false} SucceedingAt(cmds: seq<MayaCommand>, i: nat, render: MayaCommand -> Result<string, StubError>)
    requires i < |cmds| && AllStubbed(cmds[..i], render) && render(cmds[i]).Failure?
    ensures Succeeding(cmds, render) == i
  {
    if i > 0 {
      assert cmds[..i][0] == cmds[0];
      assert cmds[1..][..i - 1] == cmds[..i][1..];
      assert forall k :: 0 <= k < i - 1 ==> cmds[..i][1..][k] == cmds[..i][k + 1];
      SucceedingAt(cmds[1..], i - 1, render);
    }
  }

  lemma SucceedingAll(cmds: seq<MayaCommand>, render: MayaCommand -> Result<string, StubError>)
    requires AllStubbed(cmds, render)
    ensures Succeeding(cmds, render) == |cmds|
  {
  }
}
