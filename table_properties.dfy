/**
 * What one line and a whole parse do to the parser's tables: headers only
 * switch the sub-parser, an orphan line aborts, the tables only grow, their
 * invariant is kept, and a symbol's bytes are credited to its object and
 * its library alike.
 */
module TableProperties {
  import opened Wrappers
  import opened RubyText
  import opened LineGrammar
  import opened Tables

  // ---------------------------------------------------------------------
  // Headers

  /**
   * A line containing `#` is never handed to a sub-parser: the tables stay
   * as they are and the phase becomes the first recognised header's.
   */
  lemma HeaderOnlySwitchesPhase(st: ParserState, line: string)
    requires Contains(line, "#")
    ensures Step(st, line).Next?
    ensures Step(st, line).state == st.(subparser := HeaderPhase(line, st.subparser))
    ensures HeaderPhase(line, st.subparser) != st.subparser ==>
      Contains(line, "# Object files:") || Contains(line, "# Sections:") || Contains(line, "# Symbols:")
  {
  }

  /** The three headers the linker writes select their sub-parsers. */
  lemma KnownHeaders(p: Phase)
    ensures HeaderPhase("# Object files:", p) == ObjectFiles
    ensures HeaderPhase("# Sections:", p) == Sections
    ensures HeaderPhase("# Symbols:", p) == Symbols
  {
    assert OccursAt("# Object files:", "# Object files:", 0);
    assert !Contains("# Sections:", "# Object files:");
    assert OccursAt("# Sections:", "# Sections:", 0);
    assert !Contains("# Symbols:", "# Object files:");
    assert !Contains("# Symbols:", "# Sections:");
    assert OccursAt("# Symbols:", "# Symbols:", 0);
  }

  /**
   * `# Dead Stripped Symbols:` does not contain `# Symbols:`, so it keeps
   * whatever phase is current: the dead-stripped lines after it are read by
   * the symbol grammar when the symbols section came before.
   */
  lemma DeadStrippedKeepsPhase(p: Phase)
    ensures HeaderPhase("# Dead Stripped Symbols:", p) == p
  {
    DeadStrippedHashes();
    var s := "# Dead Stripped Symbols:";
    assert s[2] != "# Object files:"[2] && s[2] != "# Sections:"[2] && s[2] != "# Symbols:"[2];
    OnlyLeadingHash(s, "# Object files:");
    OnlyLeadingHash(s, "# Sections:");
    OnlyLeadingHash(s, "# Symbols:");
  }

  lemma DeadStrippedHashes()
    ensures forall k :: 0 < k < |"# Dead Stripped Symbols:"| ==> "# Dead Stripped Symbols:"[k] != '#'
  {
  }

  /** A header with a single, leading `#` contains a `#`-phrase only as its own prefix. */
  lemma OnlyLeadingHash(s: string, sub: string)
    requires |sub| > 0 && sub[0] == '#'
    requires forall k :: 0 < k < |s| ==> s[k] != '#'
    requires !(|sub| <= |s| && s[..|sub|] == sub)
    ensures !Contains(s, sub)
  {
  }

  // ---------------------------------------------------------------------
  // Dispatch

  /** Before any recognised header, a non-header line raises and leaves the state as it was. */
  lemma OrphanLineFails(st: ParserState, line: string)
    requires st.subparser == Unset && !Contains(line, "#")
    ensures Step(st, line) == Fail(st)
  {
  }

  /**
   * A parse that starts without a sub-parser aborts at the first line
   * without `#` when no header before it was recognised, reporting that
   * line and its number.
   */
  lemma {:induction false} RunAbortsAtFirstOrphan(st: ParserState, lines: seq<string>, from: nat, k: nat)
    requires st.subparser == Unset
    requires from <= k < |lines| && !Contains(lines[k], "#")
    requires forall i :: from <= i < k ==> Contains(lines[i], "#") && HeaderPhase(lines[i], Unset) == Unset
    ensures Run(st, lines, from) == Aborted(st, ParseError(k, lines[k]))
    decreases k - from
  {
    if from < k {
      assert Step(st, lines[from]) == Next(st);
      RunAbortsAtFirstOrphan(st, lines, from + 1, k);
    }
  }

  /** Lines in the sections phase change nothing (`parse_sections` does nothing). */
  lemma SectionsLineChangesNothing(st: ParserState, line: string)
    requires st.subparser == Sections && !Contains(line, "#")
    ensures Step(st, line) == Next(st)
  {
  }

  /** An object-file line without `/` matches neither grammar and changes nothing. */
  lemma NoSlashChangesNothing(st: ParserState, line: string)
    requires st.subparser == ObjectFiles && !Contains(line, "#")
    requires '/' !in line
    ensures Step(st, line) == Next(st)
  {
    NoSlashNoDeclaration(line);
  }

  /** A symbol line whose id was never declared changes nothing. */
  lemma UnknownIdChangesNothing(st: ParserState, line: string)
    requires st.subparser == Symbols && !Contains(line, "#")
    requires SymbolLine(line).Some? && SymbolLine(line).value.id !in st.idMap
    ensures Step(st, line) == Next(st)
  {
  }

  // ---------------------------------------------------------------------
  // Declarations and attributions

  /**
   * A declaration records the id with no size yet and appends it to its
   * library's object list. A library seen for the first time is created
   * with size 0 and goes last in order; an existing one keeps its size and
   * its place. Nothing else changes.
   */
  lemma DeclareEffect(st: ParserState, d: Declaration)
    requires WellFormed(st)
    ensures var next := Declare(st, d);
      && next.subparser == st.subparser
      && next.idMap[d.id] == ObjectEntry(d.library, d.objectName, None)
      && (forall id :: id != d.id ==> (id in next.idMap <==> id in st.idMap))
      && (forall id :: id in st.idMap && id != d.id ==> next.idMap[id] == st.idMap[id])
      && next.idOrder == (if d.id in st.idMap then st.idOrder else st.idOrder + [d.id])
      && (d.library !in st.libraryMap ==>
            && next.libraryMap[d.library] == Library(d.library, 0, [d.id])
            && next.libraryOrder == st.libraryOrder + [d.library])
      && (d.library in st.libraryMap ==>
            && next.libraryMap[d.library].size == st.libraryMap[d.library].size
            && next.libraryMap[d.library].objects == st.libraryMap[d.library].objects + [d.id]
            && next.libraryOrder == st.libraryOrder)
      && (forall name :: name != d.library ==> (name in next.libraryMap <==> name in st.libraryMap))
      && (forall name :: name in st.libraryMap && name != d.library ==> next.libraryMap[name] == st.libraryMap[name])
  {
  }

  /**
   * A symbol of a known object adds its size to the object (nil counting
   * as 0) and to the object's library; nothing else changes. A symbol of an
   * unknown id changes nothing.
   */
  lemma AttributeEffect(st: ParserState, a: Attribution)
    requires WellFormed(st)
    ensures a.id !in st.idMap ==> Attribute(st, a) == Next(st)
    ensures a.id in st.idMap ==>
      var e := st.idMap[a.id];
      var next := Attribute(st, a).state;
      && Attribute(st, a).Next?
      && next.idMap.Keys == st.idMap.Keys && next.libraryMap.Keys == st.libraryMap.Keys
      && next.idMap[a.id] == e.(size := Some(e.size.GetOr(0) + a.size))
      && next.libraryMap[e.library] == st.libraryMap[e.library].(size := st.libraryMap[e.library].size + a.size)
      && (forall id :: id in st.idMap && id != a.id ==> next.idMap[id] == st.idMap[id])
      && (forall name :: name in st.libraryMap && name != e.library ==> next.libraryMap[name] == st.libraryMap[name])
      && next.idOrder == st.idOrder && next.libraryOrder == st.libraryOrder && next.subparser == st.subparser
  {
  }

  // ---------------------------------------------------------------------
  // The invariant

  lemma RememberKeyOrder<K(!new), V>(m: map<K, V>, order: seq<K>, k: K, v: V)
    requires KeyOrder(m, order)
    ensures KeyOrder(m[k := v], Remember(m, order, k))
  {
    var o := Remember(m, order, k);
    if k !in m {
      assert forall i :: 0 <= i < |order| ==> order[i] in m;
      assert forall x :: x in o <==> x in order || x == k;
    }
  }

  lemma DeclarePreservesWellFormed(st: ParserState, d: Declaration)
    requires WellFormed(st)
    ensures WellFormed(Declare(st, d))
  {
    var next := Declare(st, d);
    var lib := LibraryFor(st, d.library);
    RememberKeyOrder(st.idMap, st.idOrder, d.id, ObjectEntry(d.library, d.objectName, None));
    RememberKeyOrder(st.libraryMap, st.libraryOrder, d.library, lib.(objects := lib.objects + [d.id]));
    forall name, o | name in next.libraryMap && o in next.libraryMap[name].objects
      ensures o in next.idMap
    {
      if name == d.library && o !in lib.objects {
        assert o == d.id;
      }
    }
  }

  lemma AttributePreservesWellFormed(st: ParserState, a: Attribution)
    requires WellFormed(st)
    ensures WellFormed(Attribute(st, a).state)
  {
    AttributeEffect(st, a);
  }

  /** Handling a line keeps the tables well formed, whether it succeeds or raises. */
  lemma StepPreservesWellFormed(st: ParserState, line: string)
    requires WellFormed(st)
    ensures WellFormed(Step(st, line).state)
  {
    if !Contains(line, "#") {
      match st.subparser
      case ObjectFiles => {
        match ObjectLine(line)
        case None =>
        case Some(d) => DeclarePreservesWellFormed(st, d);
      }
      case Symbols => {
        match SymbolLine(line)
        case None =>
        case Some(a) => AttributePreservesWellFormed(st, a);
      }
      case _ =>
    }
  }

  /** A parse, finished or aborted, leaves the tables well formed. */
  lemma {:induction false} RunPreservesWellFormed(st: ParserState, lines: seq<string>, from: nat)
    requires WellFormed(st)
    ensures WellFormed(Run(st, lines, from).state)
    decreases |lines| - from
  {
    if from < |lines| {
      StepPreservesWellFormed(st, lines[from]);
      match Step(st, lines[from])
      case Next(next) => RunPreservesWellFormed(next, lines, from + 1);
      case Fail(_) =>
    }
  }

  // ---------------------------------------------------------------------
  // Growth

  /**
   * `after` extends `before`: the key orders only grow at the end, no
   * library disappears, a library's object list only grows at the end and
   * its size never shrinks, and every declared id stays declared. An id's
   * entry itself is not covered: declaring the id again replaces it, with
   * its size back to nil (`DeclareEffect`).
   */
  ghost predicate Grows(before: ParserState, after: ParserState) {
    && before.idOrder <= after.idOrder
    && before.libraryOrder <= after.libraryOrder
    && before.idMap.Keys <= after.idMap.Keys
    && (forall name :: name in before.libraryMap ==>
          && name in after.libraryMap
          && before.libraryMap[name].objects <= after.libraryMap[name].objects
          && before.libraryMap[name].size <= after.libraryMap[name].size)
  }

  lemma GrowsTransitive(a: ParserState, b: ParserState, c: ParserState)
    requires Grows(a, b) && Grows(b, c)
    ensures Grows(a, c)
  {
  }

  /** One line only adds to the tables: existing libraries are reused, never replaced. */
  lemma StepGrows(st: ParserState, line: string)
    requires WellFormed(st)
    ensures Grows(st, Step(st, line).state)
  {
    if !Contains(line, "#") {
      match st.subparser
      case ObjectFiles => {
        match ObjectLine(line)
        case None =>
        case Some(d) => DeclareGrows(st, d);
      }
      case Symbols => {
        match SymbolLine(line)
        case None =>
        case Some(a) => AttributeGrows(st, a);
      }
      case _ =>
    }
  }

  lemma DeclareGrows(st: ParserState, d: Declaration)
    requires WellFormed(st)
    ensures Grows(st, Declare(st, d))
  {
    DeclareEffect(st, d);
  }

  lemma AttributeGrows(st: ParserState, a: Attribution)
    requires WellFormed(st)
    ensures Grows(st, Attribute(st, a).state)
  {
    AttributeEffect(st, a);
  }

  /** A whole parse, finished or aborted, only adds to the tables it started from. */
  lemma {:induction false} RunGrows(st: ParserState, lines: seq<string>, from: nat)
    requires WellFormed(st)
    ensures Grows(st, Run(st, lines, from).state)
    decreases |lines| - from
  {
    if from < |lines| {
      StepGrows(st, lines[from]);
      match Step(st, lines[from])
      case Next(next) =>
        StepPreservesWellFormed(st, lines[from]);
        RunGrows(next, lines, from + 1);
        GrowsTransitive(st, next, Run(next, lines, from + 1).state);
      case Fail(_) =>
    }
  }
}
