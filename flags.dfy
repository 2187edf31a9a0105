/** The `Properties` flag set of main.py: the capability icons of one
    argument (create, edit, multiuse, query), validated and recorded as
    four booleans, and printed back as a comma-separated list. */
module Flags {
  import opened Wrappers
  import opened PyStrings

  /** The four flags of an argument. After construction they are only read. */
  datatype Properties = Properties(create: bool, edit: bool, multiuse: bool, query: bool)

  /** `_arguments`: the public attribute names, in the sorted order `dir()` lists them. */
  const FlagNames: seq<string> := ["create", "edit", "multiuse", "query"]

  /** `getattr(p, name)` */
  function Flag(p: Properties, name: string): bool
    requires name in FlagNames
  {
    match name
    case "create" => p.create
    case "edit" => p.edit
    case "multiuse" => p.multiuse
    case "query" => p.query
  }

  /** `setattr(p, name, True)`: the named flag becomes true, the others keep their value. */
  function SetFlag(p: Properties, name: string): (r: Properties)
    requires name in FlagNames
    ensures Flag(r, name)
    ensures forall n :: n in FlagNames && n != name ==> Flag(r, n) == Flag(p, n)
  {
    match name
    case "create" => p.(create := true)
    case "edit" => p.(edit := true)
    case "multiuse" => p.(multiuse := true)
    case "query" => p.(query := true)
  }

  /** The `ValueError` raised for an icon title that is not a flag name. */
  datatype PropertiesError = UnrecognizedProperty(value: string)

  /** The text of that error: it lists the flag names and ends with the
      offending title. */
  function ErrorMessage(e: PropertiesError): (r: string)
    ensures StartsWith(r, "This command contains an unrecognized property\n")
    ensures EndsWith(r, "\nunrecognized property : " + e.value)
  {
    var head, tail := "This command contains an unrecognized property\n", "\nunrecognized property : " + e.value;
    var allowed := "Allowed properties    : " + Join(FlagNames, ", ");
    Affixes(head, allowed, tail);
    head + allowed + tail
  }

  /** The first title, scanning from the left, that is not a flag name. */
  function FirstUnrecognized(titles: seq<string>): (r: Option<string>)
    ensures r.None? <==> forall k :: 0 <= k < |titles| ==> titles[k] in FlagNames
    ensures r.Some? ==> exists i :: 0 <= i < |titles| && titles[i] == r.value
                          && r.value !in FlagNames
                          && forall k :: 0 <= k < i ==> titles[k] in FlagNames
  {
    if titles == [] then None
    else if titles[0] !in FlagNames then Some(titles[0])
    else
      var r := FirstUnrecognized(titles[1..]);
      assert forall k :: 1 <= k < |titles| ==> titles[k] == titles[1..][k - 1];
      if r.Some? then
        var i :| 0 <= i < |titles[1..]| && titles[1..][i] == r.value && r.value !in FlagNames
                 && forall k :: 0 <= k < i ==> titles[1..][k] in FlagNames;
        assert titles[i + 1] == r.value;
        r
      else r
  }

  /** `Properties(init_values)`: an error naming the first unrecognised title;
      otherwise each flag is set exactly when its name is among the titles. */
  function PropertiesOf(titles: seq<string>): (r: Result<Properties, PropertiesError>)
    ensures r.Failure? <==> exists k :: 0 <= k < |titles| && titles[k] !in FlagNames
    ensures r.Failure? ==> r.error.value in titles && r.error.value !in FlagNames
    ensures r.Success? ==> forall n :: n in FlagNames ==> (Flag(r.value, n) <==> n in titles)
  {
    match FirstUnrecognized(titles)
    case Some(v) => Failure(UnrecognizedProperty(v))
    case None => Success(Properties("create" in titles, "edit" in titles, "multiuse" in titles, "query" in titles))
  }

  /** `Properties.__init__`: validates every title, then sets one flag per
      name found, in the order of `_arguments`. */
  method NewProperties(titles: seq<string>) returns (r: Result<Properties, PropertiesError>)
    ensures r == PropertiesOf(titles)
  {
    var i := 0;
    while i < |titles|
      invariant 0 <= i <= |titles|
      invariant FirstUnrecognized(titles) == FirstUnrecognized(titles[i..])
    {
      if titles[i] !in FlagNames {
        return Failure(UnrecognizedProperty(titles[i]));
      }
      assert titles[i..][1..] == titles[i + 1..];
      i := i + 1;
    }
    var p := Properties(false, false, false, false);
    var j := 0;
    while j < |FlagNames|
      invariant 0 <= j <= |FlagNames|
      invariant forall k :: 0 <= k < j ==> Flag(p, FlagNames[k]) == (FlagNames[k] in titles)
      invariant forall k :: j <= k < |FlagNames| ==> !Flag(p, FlagNames[k])
    {
      if FlagNames[j] in titles {
        p := SetFlag(p, FlagNames[j]);
      }
      j := j + 1;
    }
    assert FirstUnrecognized(titles[i..]) == None;
    assert Flag(p, FlagNames[0]) && Flag(p, FlagNames[1]) && Flag(p, FlagNames[2]) && Flag(p, FlagNames[3])
       <==> p.create && p.edit && p.multiuse && p.query;
    assert p.create == (FlagNames[0] in titles) && p.edit == (FlagNames[1] in titles);
    assert p.multiuse == (FlagNames[2] in titles) && p.query == (FlagNames[3] in titles);
    return Success(p);
  }

  /** Where a flag name stands in `_arguments`. */
  function Position(n: string): (k: nat)
    requires n in FlagNames
    ensures k < |FlagNames| && FlagNames[k] == n
  {
    if n == "create" then 0 else if n == "edit" then 1 else if n == "multiuse" then 2 else 3
  }

  /** The names of the flags that are set, each once, in the order of `_arguments`. */
  function SetNames(p: Properties): (r: seq<string>)
    ensures forall n :: n in r <==> n in FlagNames && Flag(p, n)
    ensures forall i, j :: 0 <= i < j < |r| ==> r[i] in FlagNames && r[j] in FlagNames && Position(r[i]) < Position(r[j])
  {
    (if p.create then ["create"] else []) + (if p.edit then ["edit"] else [])
    + (if p.multiuse then ["multiuse"] else []) + (if p.query then ["query"] else [])
  }

  /** `Properties.__repr__`: the set flags joined by ", ". */
  function Repr(p: Properties): string {
    Join(SetNames(p), ", ")
  }

  /** The printed flag set is one line. */
  lemma ReprOneLine(p: Properties)
    ensures NoLineBreak(Repr(p))
  {
    var names := SetNames(p);
    FlagNamesOneLine();
    assert forall i :: 0 <= i < |names| ==> names[i] in FlagNames;
    assert NoLineBreak(", ");
    JoinNoLineBreak(names, ", ");
  }

  lemma FlagNamesOneLine()
    ensures forall n :: n in FlagNames ==> NoLineBreak(n)
  {
    assert NoLineBreak(FlagNames[0]);
    assert NoLineBreak(FlagNames[1]);
    assert NoLineBreak(FlagNames[2]);
    assert NoLineBreak(FlagNames[3]);
  }

  /** Building the flag set from the names it lists gives it back. */
  lemma ReprRoundTrip(p: Properties)
    ensures PropertiesOf(SetNames(p)) == Success(p)
  {
    var r := PropertiesOf(SetNames(p));
    assert r.Success?;
    assert Flag(r.value, "create") == p.create;
    assert Flag(r.value, "edit") == p.edit;
    assert Flag(r.value, "multiuse") == p.multiuse;
    assert Flag(r.value, "query") == p.query;
  }

  /** Order and repetition of valid icon titles do not matter, only which
      titles occur; and a list is rejected exactly when the other one is. */
  lemma OnlyMembershipMatters(titles: seq<string>, others: seq<string>)
    requires forall n :: n in titles <==> n in others
    ensures PropertiesOf(titles).Success? <==> PropertiesOf(others).Success?
    ensures PropertiesOf(titles).Success? ==> PropertiesOf(titles) == PropertiesOf(others)
  {
    if PropertiesOf(titles).Failure? {
      var k :| 0 <= k < |titles| && titles[k] !in FlagNames;
      assert titles[k] in others;
    }
    if PropertiesOf(others).Failure? {
      var k :| 0 <= k < |others| && others[k] !in FlagNames;
      assert others[k] in titles;
    }
  }

  /** What the docstring shows for a command that can create and query. */
  lemma ReprCreateQuery()
    ensures Repr(Properties(true, false, false, true)) == "create, query"
  {
    assert SetNames(Properties(true, false, false, true)) == ["create", "query"];
  }

  /** What the docstring shows for an argument with no flags set. */
  lemma ReprNoFlags()
    ensures Repr(Properties(false, false, false, false)) == ""
  {
    assert SetNames(Properties(false, false, false, false)) == [];
  }
}
