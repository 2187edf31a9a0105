/** The lookup tables of type_tables.py: documentation type tokens to Python
    typing expressions, the undo/query/edit sentence decoder, and the
    typing-to-docstring string cleanup. */
module TypeTables {
  import opened Wrappers
  import opened PyStrings

  /** A Python type as the lookup table builds it from `typing`. */
  datatype PyType =
    | TBool
    | TStr
    | TInt
    | TFloat
    | TTuple(elems: seq<PyType>)
    | TList(elem: PyType)
    | TUnion(alts: seq<PyType>)

  // ----------------------------------------------------- args_to_typehints

  /** `args_to_typehints(argument)`: `lookup_table.get(argument)` over every
      documentation type token met in the reference pages. The dictionary is
      written as one case per key; the lookup is an exact match on the whole
      token, with no normalisation of case or spacing. */
  function ArgsToTypehints(argument: string): Option<PyType> {
    match argument
    case "boolean" => Some(TBool)
    case "string" => Some(TStr)
    case "int" => Some(TInt)
    case "float" => Some(TFloat)
    case "uint" => Some(TInt)
    case "[float, float, float]" => Some(TTuple([TFloat, TFloat, TFloat]))
    case "name" => Some(TStr)
    case "linear" => Some(TFloat)
    case "[linear, linear, linear]" => Some(TTuple([TFloat, TFloat, TFloat]))
    case "angle" => Some(TFloat)
    case "[angle, angle, angle]" => Some(TTuple([TFloat, TFloat, TFloat]))
    case "script" => Some(TStr)
    case "time" => Some(TUnion([TFloat, TTuple([TFloat, TFloat])]))
    case "[float, float]" => Some(TTuple([TFloat, TFloat]))
    case "[float, float, float, float]" => Some(TTuple([TFloat, TFloat, TFloat, TFloat]))
    case "[name, string]" => Some(TTuple([TStr, TStr]))
    case "[int, string]" => Some(TTuple([TInt, TStr]))
    case "[string, string]" => Some(TTuple([TStr, TStr]))
    case "[string, string, string]" => Some(TTuple([TStr, TStr, TStr]))
    case "[string, string, string, string]" => Some(TTuple([TStr, TStr, TStr, TStr]))
    case "[string, string, string, string, string]" => Some(TTuple([TStr, TStr, TStr, TStr, TStr]))
    case "[string, string, string, string, string, string]" => Some(TTuple([TStr, TStr, TStr, TStr, TStr, TStr]))
    case "[int, string, int]" => Some(TTuple([TInt, TStr, TInt]))
    case "[int, int]" => Some(TTuple([TInt, TInt]))
    case "[int, int, int]" => Some(TTuple([TInt, TInt, TInt]))
    case "[int, int, int, int]" => Some(TTuple([TInt, TInt, TInt, TInt]))
    case "[int, int, int, int, int]" => Some(TTuple([TInt, TInt, TInt, TInt, TInt]))
    case "[int, int, int, int, int, int]" => Some(TTuple([TInt, TInt, TInt, TInt, TInt, TInt]))
    case "[uint, uint]" => Some(TTuple([TInt, TInt]))
    case "timerange" => Some(TTuple([TFloat, TFloat]))
    case "string[]" => Some(TList(TStr))
    case "floatrange" => Some(TTuple([TFloat, TFloat]))
    case "[[, boolean, float, ]]" => Some(TList(TUnion([TBool, TFloat])))
    case "[uint, uint, uint]" => Some(TTuple([TInt, TInt, TInt]))
    case "[uint, uint, uint, uint]" => Some(TTuple([TInt, TInt, TInt, TInt]))
    case "[string, uint, string, float]" => Some(TTuple([TStr, TInt, TStr, TFloat]))
    case "[uint, float]" => Some(TTuple([TInt, TFloat]))
    case "[float, boolean, int, int]" => Some(TTuple([TFloat, TBool, TInt, TInt]))
    case "[boolean, int]" => Some(TTuple([TBool, TInt]))
    case "[string, int]" => Some(TTuple([TStr, TInt]))
    case "[float, int]" => Some(TTuple([TFloat, TInt]))
    case "[int, int, string]" => Some(TTuple([TInt, TInt, TStr]))
    case "[timerange, boolean]" => Some(TTuple([TTuple([TFloat, TFloat]), TBool]))
    case "[string, boolean]" => Some(TTuple([TStr, TBool]))
    case "[string, string[]]" => Some(TTuple([TStr, TList(TStr)]))
    case "[boolean, boolean]" => Some(TTuple([TBool, TBool]))
    case "[boolean, boolean, boolean]" => Some(TTuple([TBool, TBool, TBool]))
    case "[boolean, boolean, boolean, boolean]" => Some(TTuple([TBool, TBool, TBool, TBool]))
    case "[string, float]" => Some(TTuple([TStr, TFloat]))
    case "[string, [, string, ], [, string, ]]" => Some(TTuple([TStr, TList(TStr), TList(TStr)]))
    case "[linear, linear, linear, float]" => Some(TTuple([TFloat, TFloat, TFloat, TFloat]))
    case "[int, int, float, float, float]" => Some(TTuple([TInt, TInt, TFloat, TFloat, TFloat]))
    case "[string, script]" => Some(TTuple([TStr, TStr]))
    case "[script, script]" => Some(TTuple([TStr, TStr]))
    case "[string, string, boolean]" => Some(TTuple([TStr, TStr, TBool]))
    case "[script, string]" => Some(TTuple([TStr, TStr]))
    case "[string, string, int, string]" => Some(TTuple([TStr, TStr, TInt, TStr]))
    case "[string, string, int]" => Some(TTuple([TStr, TStr, TInt]))
    case "[string, string, int, int]" => Some(TTuple([TStr, TStr, TInt, TInt]))
    case "[uint, boolean]" => Some(TTuple([TInt, TBool]))
    case "[int, int, float]" => Some(TTuple([TInt, TInt, TFloat]))
    case "[string, float, float]" => Some(TTuple([TStr, TFloat, TFloat]))
    case "[int, float, float, float]" => Some(TTuple([TInt, TFloat, TFloat, TFloat]))
    case "[angle, angle]" => Some(TTuple([TFloat, TFloat]))
    case "[time, time, float]" => Some(TTuple([TFloat, TFloat, TFloat]))
    case "[string, uint]" => Some(TTuple([TStr, TInt]))
    case "[boolean, string, int]" => Some(TTuple([TBool, TStr, TInt]))
    case "[int, [, string, ]]" => Some(TTuple([TInt, TList(TStr)]))
    case "[string, [, string, ]]" => Some(TTuple([TStr, TList(TStr)]))
    case "[int, [, int, ]]" => Some(TTuple([TInt, TList(TInt)]))
    case "[string, int, float]" => Some(TTuple([TStr, TInt, TFloat]))
    case "[string, string, script]" => Some(TTuple([TStr, TStr, TStr]))
    case "[string, float, float, float]" => Some(TTuple([TStr, TFloat, TFloat, TFloat]))
    case "[string, float, float, float, float]" => Some(TTuple([TStr, TFloat, TFloat, TFloat, TFloat]))
    case "[string, int, int]" => Some(TTuple([TStr, TInt, TInt]))
    case "[string, int, int, int]" => Some(TTuple([TStr, TInt, TInt, TInt]))
    case "[string, int, int, int, int]" => Some(TTuple([TStr, TInt, TInt, TInt, TInt]))
    case "[boolean, string, string, string, string]" => Some(TTuple([TBool, TStr, TStr, TStr, TStr]))
    case "[int, boolean]" => Some(TTuple([TInt, TBool]))
    case "[int, boolean, string, string, string, string]" => Some(TTuple([TInt, TBool, TStr, TStr, TStr, TStr]))
    case "[[, float, float, float, ]]" => Some(TList(TUnion([TFloat, TList(TFloat)])))
    case "int64" => Some(TInt)
    case "[linear, linear]" => Some(TTuple([TFloat, TFloat]))
    case "[int, float]" => Some(TTuple([TInt, TFloat]))
    case "[int, float, [, float, float, ]]" => Some(TTuple([TInt, TFloat, TList(TFloat)]))
    case "[string, uint, uint, uint, uint]" => Some(TTuple([TStr, TInt, TInt, TInt, TInt]))
    case "[string, uint, boolean]" => Some(TTuple([TStr, TInt, TBool]))
    case "[string, string, uint]" => Some(TTuple([TStr, TStr, TInt]))
    case "[boolean, boolean, boolean, boolean, boolean]" => Some(TTuple([TBool, TBool, TBool, TBool, TBool]))
    case "[boolean, boolean, boolean, boolean, boolean, boolean, boolean]" => Some(TTuple([TBool, TBool, TBool, TBool, TBool, TBool, TBool]))
    case "[int, name]" => Some(TTuple([TInt, TStr]))
    case "int[]" => Some(TList(TInt))
    case "[uint, uint, uint, float, float]" => Some(TTuple([TInt, TInt, TInt, TFloat, TFloat]))
    case "[linear, linear, linear, linear]" => Some(TTuple([TFloat, TFloat, TFloat, TFloat]))
    case "[time, time, time, time]" => Some(TTuple([TFloat, TFloat, TFloat, TFloat]))
    case "[string, int, string]" => Some(TTuple([TStr, TInt, TStr]))
    case "[string, int, float, float, float]" => Some(TTuple([TStr, TInt, TFloat, TFloat, TFloat]))
    case "[string, int, boolean]" => Some(TTuple([TStr, TInt, TBool]))
    case "[int, script]" => Some(TTuple([TInt, TStr]))
    case "[uint, linear]" => Some(TTuple([TInt, TFloat]))
    case "[uint, string]" => Some(TTuple([TInt, TStr]))
    case "[linear, linear, linear, linear, linear]" => Some(TTuple([TFloat, TFloat, TFloat, TFloat, TFloat]))
    case "[float, float, float, float, float, float, float, float, float, float, float, float, float, float, float, float]" => Some(TTuple([TFloat, TFloat, TFloat, TFloat, TFloat, TFloat, TFloat, TFloat, TFloat, TFloat, TFloat, TFloat, TFloat, TFloat, TFloat, TFloat]))
    case "[name, boolean]" => Some(TTuple([TStr, TBool]))
    case "[name, int]" => Some(TTuple([TStr, TInt]))
    case _ => None
  }

  /** Scalar aliases collapse onto the four Python scalars. */
  lemma ScalarAliases()
    ensures ArgsToTypehints("boolean") == Some(TBool)
    ensures ArgsToTypehints("uint") == Some(TInt) && ArgsToTypehints("int64") == Some(TInt)
    ensures ArgsToTypehints("int") == Some(TInt) && ArgsToTypehints("float") == Some(TFloat)
    ensures ArgsToTypehints("linear") == Some(TFloat) && ArgsToTypehints("angle") == Some(TFloat)
    ensures ArgsToTypehints("name") == Some(TStr) && ArgsToTypehints("script") == Some(TStr)
    ensures ArgsToTypehints("string") == Some(TStr)
  {
  }

  /** Fixed-arity bracket tokens become tuples of the same arity and element kinds. */
  lemma BracketTokens()
    ensures ArgsToTypehints("[int, int, int]") == Some(TTuple([TInt, TInt, TInt]))
    ensures ArgsToTypehints("[linear, linear, linear]") == Some(TTuple([TFloat, TFloat, TFloat]))
    ensures ArgsToTypehints("[string, uint, string, float]") == Some(TTuple([TStr, TInt, TStr, TFloat]))
  {
  }

  /** Range and union shapes. */
  lemma RangeUnionTokens()
    ensures ArgsToTypehints("time") == Some(TUnion([TFloat, TTuple([TFloat, TFloat])]))
    ensures ArgsToTypehints("timerange") == Some(TTuple([TFloat, TFloat]))
    ensures ArgsToTypehints("floatrange") == Some(TTuple([TFloat, TFloat]))
  {
  }

  /** List shapes. */
  lemma ListTokens()
    ensures ArgsToTypehints("string[]") == Some(TList(TStr))
  {
  }

  lemma IntListToken()
    ensures ArgsToTypehints("int[]") == Some(TList(TInt))
  {
  }

  /** A range inside a bracket token becomes a nested tuple. */
  lemma NestedTupleToken()
    ensures ArgsToTypehints("[timerange, boolean]") == Some(TTuple([TTuple([TFloat, TFloat]), TBool]))
  {
  }

  /** A token differing from a key only in spacing resolves to nothing. */
  lemma NoSpacingNormalisation()
    ensures ArgsToTypehints("[int,int,int]") == None
  {
  }

  /** A token differing from a key only in case resolves to nothing. */
  lemma NoCaseFolding()
    ensures ArgsToTypehints("Boolean") == None
  {
  }

  /** Python's own name for a type is not a key. */
  lemma NoPythonNames()
    ensures ArgsToTypehints("bool") == None
  {
  }

  // --------------------------------------------- typing_and_natives_to_str

  /** `typing_and_natives_to_str(typehint)`, given `str(typehint)` and
      `typehint.__name__`: a rendering that starts with "typing." loses every
      "typing." it contains; any other type is named by its `__name__`. */
  function TypingAndNativesToStr(rendered: string, name: string): (r: string)
    ensures StartsWith(rendered, "typing.") ==> |r| <= |rendered| - |"typing."|
    ensures !StartsWith(rendered, "typing.") ==> r == name
  {
    if StartsWith(rendered, "typing.") then
      RemoveLeading("typing.", rendered[|"typing."|..]);
      assert rendered == "typing." + rendered[|"typing."|..];
      Remove(rendered, "typing.")
    else name
  }

  /** The Python scalar classes are the only types that are not `typing` forms. */
  predicate IsNative(t: PyType) {
    t.TBool? || t.TStr? || t.TInt? || t.TFloat?
  }

  /** `t.__name__`: the class name of a scalar, the form's name otherwise. */
  function TypeName(t: PyType): string {
    match t
    case TBool => "bool"
    case TStr => "str"
    case TInt => "int"
    case TFloat => "float"
    case TTuple(_) => "Tuple"
    case TList(_) => "List"
    case TUnion(_) => "Union"
  }

  /** How a type is printed inside a `typing` form: a scalar by its class
      name, a form as "typing.<Form>[<arguments>]". */
  function TypingText(t: PyType): string
    decreases t
  {
    match t
    case TTuple(es) => "typing." + "Tuple[" + Join(seq(|es|, i requires 0 <= i < |es| => TypingText(es[i])), ", ") + "]"
    case TList(e) => "typing." + "List[" + TypingText(e) + "]"
    case TUnion(alts) => "typing." + "Union[" + Join(seq(|alts|, i requires 0 <= i < |alts| => TypingText(alts[i])), ", ") + "]"
    case _ => TypeName(t)
  }

  /** `str(t)`: a scalar class prints as "<class 'name'>", a form as its typing text. */
  function Rendered(t: PyType): string {
    if IsNative(t) then "<class '" + TypeName(t) + "'>" else TypingText(t)
  }

  /** The annotation a docstring should show: the typing text with no module prefix. */
  function Annotation(t: PyType): string
    decreases t
  {
    match t
    case TTuple(es) => "Tuple[" + Join(seq(|es|, i requires 0 <= i < |es| => Annotation(es[i])), ", ") + "]"
    case TList(e) => "List[" + Annotation(e) + "]"
    case TUnion(alts) => "Union[" + Join(seq(|alts|, i requires 0 <= i < |alts| => Annotation(alts[i])), ", ") + "]"
    case _ => TypeName(t)
  }

  /** Removal of "typing." goes item by item through a comma-separated list. */
  lemma {:induction false} RemoveJoin(xs: seq<string>, ys: seq<string>)
    requires |xs| == |ys|
    requires forall i :: 0 <= i < |xs| ==> Remove(xs[i], "typing.") == ys[i]
    ensures Remove(Join(xs, ", "), "typing.") == Join(ys, ", ")
    decreases |xs|
  {
    if |xs| > 1 {
      var n := |xs| - 1;
      RemoveJoin(xs[..n], ys[..n]);
      RemoveSplits(Join(xs[..n], ", ") + ", ", xs[n], "typing.");
      RemoveSplits(Join(xs[..n], ", "), ", ", "typing.");
      assert Remove(", ", "typing.") == ", ";
    }
  }

  /** Removal of "typing." from "typing.<Form>[<body>]" keeps the form's name and brackets. */
  lemma RemoveBracketed(form: string, body: string)
    requires 0 < |form| < |"typing."| && form[|form| - 1] == '['
    ensures Remove("typing." + form + body + "]", "typing.") == form + Remove(body, "typing.") + "]"
  {
    assert "typing." + form + body + "]" == "typing." + (form + body + "]");
    RemoveLeading("typing.", form + body + "]");
    RemoveSplits(form + body, "]", "typing.");
    RemoveSplits(form, body, "typing.");
    assert Remove("]", "typing.") == "]";
  }

  /** Stripping "typing." from the typing text of any type gives its annotation. */
  lemma {:induction false} RemoveTypingText(t: PyType)
    ensures Remove(TypingText(t), "typing.") == Annotation(t)
    decreases t
  {
    match t
    case TTuple(es) =>
      var xs := seq(|es|, i requires 0 <= i < |es| => TypingText(es[i]));
      var ys := seq(|es|, i requires 0 <= i < |es| => Annotation(es[i]));
      forall i | 0 <= i < |es|
        ensures Remove(xs[i], "typing.") == ys[i]
      {
        RemoveTypingText(es[i]);
      }
      RemoveJoin(xs, ys);
      RemoveBracketed("Tuple[", Join(xs, ", "));
    case TList(e) =>
      RemoveTypingText(e);
      RemoveBracketed("List[", TypingText(e));
    case TUnion(alts) =>
      var xs := seq(|alts|, i requires 0 <= i < |alts| => TypingText(alts[i]));
      var ys := seq(|alts|, i requires 0 <= i < |alts| => Annotation(alts[i]));
      forall i | 0 <= i < |alts|
        ensures Remove(xs[i], "typing.") == ys[i]
      {
        RemoveTypingText(alts[i]);
      }
      RemoveJoin(xs, ys);
      RemoveBracketed("Union[", Join(xs, ", "));
    case _ =>
  }

  /** For every type the table can produce, the docstring text of its
      rendering is its annotation: `typing` forms lose every "typing."
      (nested ones included) and scalars are named by their class. */
  lemma DocstringForm(t: PyType)
    ensures TypingAndNativesToStr(Rendered(t), TypeName(t)) == Annotation(t)
  {
    if IsNative(t) {
      assert Rendered(t)[0] == '<';
    } else {
      var p := "typing.";
      var rest := TypingText(t)[|p|..];
      assert TypingText(t) == p + rest;
      RemoveTypingText(t);
    }
  }
}
