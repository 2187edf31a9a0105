/** `undo_query_edit_to_bools` of type_tables.py: the sentence of a reference
    page that says whether a command is undoable, queryable and editable,
    decoded to three booleans. */
module Capabilities {
  import opened Wrappers
  import opened PyStrings

  /** The capability triple (undoable, queryable, editable). */
  type Capabilities = (bool, bool, bool)

  /** The phrase the reference pages use for a triple, built word by word:
      each capability is stated, negated with "not " when it is absent. */
  function Phrase(c: Capabilities): string {
    "is " + Negation(c.0) + "undoable, " + Negation(c.1) + "queryable, and " + Negation(c.2) + "editable."
  }

  /** "not " before an absent capability, nothing before a present one. */
  function Negation(present: bool): string {
    if present then "" else "not "
  }

  /** The seven-entry lookup table of `undo_query_edit_to_bools`, keyed by
      the sentence with its first word removed. */
  function PhraseToBools(tail: string): (r: Option<Capabilities>)
    ensures r != Some((false, false, true))
  {
    match tail
    case "is not undoable, not queryable, and not editable." => Some((false, false, false))
    case "is undoable, not queryable, and not editable." => Some((true, false, false))
    case "is undoable, queryable, and editable." => Some((true, true, true))
    case "is not undoable, queryable, and editable." => Some((false, true, true))
    case "is undoable, queryable, and not editable." => Some((true, true, false))
    case "is not undoable, queryable, and not editable." => Some((false, true, false))
    case "is undoable, not queryable, and editable." => Some((true, false, true))
    case _ => None
  }

  /** `" ".join(syntax.lower().split(" ")[1:])`: the lowered sentence without
      its first space-separated word. */
  function SentenceTail(syntax: string): string {
    Join(Split(Lower(syntax), ' ')[1..], " ")
  }

  /** `undo_query_edit_to_bools(syntax)` */
  function UndoQueryEditToBools(syntax: string): Option<Capabilities> {
    PhraseToBools(SentenceTail(syntax))
  }

  /** Whatever the command name, the tail is the rest of the sentence, lowered. */
  lemma SentenceTailAfterName(name: string, rest: string)
    requires ' ' !in name
    ensures SentenceTail(name + " " + rest) == Lower(rest)
  {
    LowerAppend(name + " ", rest);
    LowerAppend(name, " ");
    assert Lower(" ") == [' '];
    LowerKeepsSpaces(name);
    SplitAtFirst(Lower(name), Lower(rest), ' ');
    assert Lower(name + " " + rest) == Lower(name) + [' '] + Lower(rest);
    assert Split(Lower(name + " " + rest), ' ')[1..] == Split(Lower(rest), ' ');
    JoinSplit(Lower(rest), ' ');
  }

  /** A sentence that is a single word has an empty tail and decodes to nothing. */
  lemma {:induction false} SingleWordDecodesToNothing(syntax: string)
    requires ' ' !in syntax
    ensures UndoQueryEditToBools(syntax) == None
  {
    LowerKeepsSpaces(syntax);
    SplitNoSeparator(Lower(syntax), ' ');
  }

  /** Decoding is case-insensitive: the sentence is lowered first. */
  lemma CaseInsensitive(syntax: string)
    ensures UndoQueryEditToBools(syntax) == UndoQueryEditToBools(Lower(syntax))
  {
    LowerIdempotent(syntax);
  }

  /** The table holds each of the seven phrasings and maps it to its own triple. */
  lemma TableHoldsPhrases(c: Capabilities)
    requires c != (false, false, true)
    ensures PhraseToBools(Phrase(c)) == Some(c)
  {
    if c.0 && c.1 {
      TableHoldsUndoableQueryable(c);
    } else if c.0 {
      TableHoldsUndoableOnly(c);
    } else if c.1 {
      TableHoldsQueryableOnly(c);
    } else {
      TableHoldsNeither(c);
    }
  }

  /** The two phrasings of undoable, queryable commands. */
  lemma TableHoldsUndoableQueryable(c: Capabilities)
    requires c.0 && c.1
    ensures PhraseToBools(Phrase(c)) == Some(c)
  {
    if c.2 {
      PhraseOfAllThree();
    } else {
      PhraseOfUndoableQueryable();
    }
  }

  /** The two phrasings of undoable commands that are not queryable. */
  lemma TableHoldsUndoableOnly(c: Capabilities)
    requires c.0 && !c.1
    ensures PhraseToBools(Phrase(c)) == Some(c)
  {
    if c.2 {
      PhraseOfUndoableEditable();
    } else {
      PhraseOfUndoableOnly();
    }
  }

  /** The two phrasings of queryable commands that are not undoable. */
  lemma TableHoldsQueryableOnly(c: Capabilities)
    requires !c.0 && c.1
    ensures PhraseToBools(Phrase(c)) == Some(c)
  {
    if c.2 {
      PhraseOfQueryableEditable();
    } else {
      PhraseOfQueryableOnly();
    }
  }

  /** The one phrasing of commands neither undoable nor queryable. */
  lemma TableHoldsNeither(c: Capabilities)
    requires !c.0 && !c.1 && !c.2
    ensures PhraseToBools(Phrase(c)) == Some(c)
  {
    PhraseOfNeither();
  }

  /** The phrase of a command that is undoable, queryable and editable, spelled out. */
  lemma PhraseOfAllThree()
    ensures Phrase((true, true, true)) == "is undoable, queryable, and editable."
  {
    assert "is " + "" == "is ";
    assert "is " + "undoable, " == "is undoable, ";
    assert "is undoable, " + "" == "is undoable, ";
    assert "is undoable, " + "queryable, and " == "is undoable, queryable, and ";
    assert "is undoable, queryable, and " + "" == "is undoable, queryable, and ";
    assert "is undoable, queryable, and " + "editable." == "is undoable, queryable, and editable.";
  }

  /** The phrase of a command that is undoable and queryable, not editable, spelled out. */
  lemma PhraseOfUndoableQueryable()
    ensures Phrase((true, true, false)) == "is undoable, queryable, and not editable."
  {
    assert "is " + "" == "is ";
    assert "is " + "undoable, " == "is undoable, ";
    assert "is undoable, " + "" == "is undoable, ";
    assert "is undoable, " + "queryable, and " == "is undoable, queryable, and ";
    assert "is undoable, queryable, and " + "not " == "is undoable, queryable, and not ";
    assert "is undoable, queryable, and not " + "editable." == "is undoable, queryable, and not editable.";
  }

  /** The phrase of a command that is undoable and editable, not queryable, spelled out. */
  lemma PhraseOfUndoableEditable()
    ensures Phrase((true, false, true)) == "is undoable, not queryable, and editable."
  {
    assert "is " + "" == "is ";
    assert "is " + "undoable, " == "is undoable, ";
    assert "is undoable, " + "not " == "is undoable, not ";
    assert "is undoable, not " + "queryable, and " == "is undoable, not queryable, and ";
    assert "is undoable, not queryable, and " + "" == "is undoable, not queryable, and ";
    assert "is undoable, not queryable, and " + "editable." == "is undoable, not queryable, and editable.";
  }

  /** The phrase of a command that is only undoable, spelled out. */
  lemma PhraseOfUndoableOnly()
    ensures Phrase((true, false, false)) == "is undoable, not queryable, and not editable."
  {
    assert "is " + "" == "is ";
    assert "is " + "undoable, " == "is undoable, ";
    assert "is undoable, " + "not " == "is undoable, not ";
    assert "is undoable, not " + "queryable, and " == "is undoable, not queryable, and ";
    assert "is undoable, not queryable, and " + "not " == "is undoable, not queryable, and not ";
    assert "is undoable, not queryable, and not " + "editable." == "is undoable, not queryable, and not editable.";
  }

  /** The phrase of a command that is queryable and editable, not undoable, spelled out. */
  lemma PhraseOfQueryableEditable()
    ensures Phrase((false, true, true)) == "is not undoable, queryable, and editable."
  {
    assert "is " + "not " == "is not ";
    assert "is not " + "undoable, " == "is not undoable, ";
    assert "is not undoable, " + "" == "is not undoable, ";
    assert "is not undoable, " + "queryable, and " == "is not undoable, queryable, and ";
    assert "is not undoable, queryable, and " + "" == "is not undoable, queryable, and ";
    assert "is not undoable, queryable, and " + "editable." == "is not undoable, queryable, and editable.";
  }

  /** The phrase of a command that is only queryable, spelled out. */
  lemma PhraseOfQueryableOnly()
    ensures Phrase((false, true, false)) == "is not undoable, queryable, and not editable."
  {
    assert "is " + "not " == "is not ";
    assert "is not " + "undoable, " == "is not undoable, ";
    assert "is not undoable, " + "" == "is not undoable, ";
    assert "is not undoable, " + "queryable, and " == "is not undoable, queryable, and ";
    assert "is not undoable, queryable, and " + "not " == "is not undoable, queryable, and not ";
    assert "is not undoable, queryable, and not " + "editable." == "is not undoable, queryable, and not editable.";
  }

  /** The phrase of a command that is neither undoable, queryable nor editable, spelled out. */
  lemma PhraseOfNeither()
    ensures Phrase((false, false, false)) == "is not undoable, not queryable, and not editable."
  {
    assert "is " + "not " == "is not ";
    assert "is not " + "undoable, " == "is not undoable, ";
    assert "is not undoable, " + "not " == "is not undoable, not ";
    assert "is not undoable, not " + "queryable, and " == "is not undoable, not queryable, and ";
    assert "is not undoable, not queryable, and " + "not " == "is not undoable, not queryable, and not ";
    assert "is not undoable, not queryable, and not " + "editable." == "is not undoable, not queryable, and not editable.";
  }

  /** The table holds nothing else: every key is the phrase of its triple. */
  lemma TableOnlyPhrases(tail: string, c: Capabilities)
    requires PhraseToBools(tail) == Some(c)
    ensures tail == Phrase(c)
  {
    TableHoldsPhrases(c);
    if tail != Phrase(c) {
      DistinctPhrases(tail, Phrase(c));
    }
  }

  /** Two different keys of the table map to different triples. */
  lemma DistinctPhrases(t1: string, t2: string)
    requires PhraseToBools(t1).Some? && PhraseToBools(t2).Some?
    requires t1 != t2
    ensures PhraseToBools(t1) != PhraseToBools(t2)
  {
  }

  /** The decoder in full: after a command name, a sentence decodes to a
      triple exactly when its lowered rest is that triple's phrase, and the
      triple (not undoable, not queryable, editable) is never produced. */
  lemma {:induction false} DecodeExactly(name: string, rest: string, c: Capabilities)
    requires ' ' !in name
    ensures UndoQueryEditToBools(name + " " + rest) == Some(c)
            <==> c != (false, false, true) && Lower(rest) == Phrase(c)
  {
    SentenceTailAfterName(name, rest);
    if UndoQueryEditToBools(name + " " + rest) == Some(c) {
      TableOnlyPhrases(Lower(rest), c);
    }
    if c != (false, false, true) && Lower(rest) == Phrase(c) {
      TableHoldsPhrases(c);
    }
  }

  /** Every phrase is already lower case, so lowering the sentence keeps it. */
  lemma {:induction false} LowerPhrase(c: Capabilities)
    ensures Lower(Phrase(c)) == Phrase(c)
  {
    var n0, n1, n2 := Negation(c.0), Negation(c.1), Negation(c.2);
    assert Lower(n0) == n0 && Lower(n1) == n1 && Lower(n2) == n2;
    assert Lower("is ") == "is ";
    assert Lower("undoable, ") == "undoable, ";
    assert Lower("queryable, and ") == "queryable, and ";
    assert Lower("editable.") == "editable.";
    LowerAppend("is ", n0);
    LowerAppend("is " + n0, "undoable, ");
    LowerAppend("is " + n0 + "undoable, ", n1);
    LowerAppend("is " + n0 + "undoable, " + n1, "queryable, and ");
    LowerAppend("is " + n0 + "undoable, " + n1 + "queryable, and ", n2);
    LowerAppend("is " + n0 + "undoable, " + n1 + "queryable, and " + n2, "editable.");
  }

  /** After any one-word command name, each phrasing decodes to its triple,
      and the phrasing of (not undoable, not queryable, editable) to nothing. */
  lemma DecodeAfterName(name: string, c: Capabilities)
    requires ' ' !in name
    ensures UndoQueryEditToBools(name + " " + Phrase(c))
         == if c == (false, false, true) then None else Some(c)
  {
    SentenceTailAfterName(name, Phrase(c));
    LowerPhrase(c);
    if c != (false, false, true) {
      TableHoldsPhrases(c);
    } else if PhraseToBools(Phrase(c)).Some? {
      var d := PhraseToBools(Phrase(c)).value;
      TableOnlyPhrases(Phrase(c), d);
      PhraseInjective(c, d);
    }
  }

  /** Different triples have different phrases. */
  lemma PhraseInjective(a: Capabilities, b: Capabilities)
    requires Phrase(a) == Phrase(b)
    ensures a == b
  {
    var pa, pb := Phrase(a), Phrase(b);
    assert pa[3] == (if a.0 then 'u' else 'n');
    assert pb[3] == (if b.0 then 'u' else 'n');
    var k := |"is " + Negation(a.0) + "undoable, "|;
    assert pa[k] == (if a.1 then 'q' else 'n');
    assert pb[k] == (if b.1 then 'q' else 'n');
    var m := |"is " + Negation(a.0) + "undoable, " + Negation(a.1) + "queryable, and "|;
    assert pa[m] == (if a.2 then 'e' else 'n');
    assert pb[m] == (if b.2 then 'e' else 'n');
  }

  /** A sentence in upper case decodes like its lower-case form. */
  lemma DecodeUpperCase()
    ensures UndoQueryEditToBools("Foo" + " " + ("IS " + "UNDOABLE, " + "QUERYABLE, AND " + "EDITABLE."))
         == Some((true, true, true))
  {
    LowerUpperSentence();
    DecodeExactly("Foo", "IS " + "UNDOABLE, " + "QUERYABLE, AND " + "EDITABLE.", (true, true, true));
  }

  /** The upper-case sentence lowers, word by word, to the phrase of all three. */
  lemma LowerUpperSentence()
    ensures Lower("IS " + "UNDOABLE, " + "QUERYABLE, AND " + "EDITABLE.") == Phrase((true, true, true))
  {
    var w0, w1, w2, w3 := "IS ", "UNDOABLE, ", "QUERYABLE, AND ", "EDITABLE.";
    assert Lower(w0) == "is ";
    assert Lower(w1) == "undoable, ";
    assert Lower(w2) == "queryable, and ";
    assert Lower(w3) == "editable.";
    LowerFourWords(w0, w1, w2, w3);
  }

  /** Lowering a four-word text lowers each word. */
  lemma LowerFourWords(w0: string, w1: string, w2: string, w3: string)
    ensures Lower(w0 + w1 + w2 + w3) == Lower(w0) + Lower(w1) + Lower(w2) + Lower(w3)
  {
    LowerAppend(w0, w1);
    LowerAppend(w0 + w1, w2);
    LowerAppend(w0 + w1 + w2, w3);
  }

  /** A sentence after a one-word name decodes like its phrase. */
  lemma DecodeAllCapabilities()
    ensures UndoQueryEditToBools("x" + " " + "is undoable, queryable, and editable.") == Some((true, true, true))
  {
    SentenceTailAfterName("x", "is undoable, queryable, and editable.");
    LowerLowerSentence();
  }

  lemma LowerLowerSentence()
    ensures Lower("is undoable, queryable, and editable.") == "is undoable, queryable, and editable."
  {
  }
}
