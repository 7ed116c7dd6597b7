/**
 * `LinkmapParser` itself: the object whose fields `parse` updates line by
 * line, and the cached `hash` and the `report` built on top of it. Each
 * method is tied to the functions of `Tables` and `Aggregate`, whose
 * properties are proved there.
 */
module LinkmapIos {
  import opened Wrappers
  import opened RubyText
  import opened LineGrammar
  import opened Tables
  import opened TableProperties
  import opened Aggregate

  class LinkmapParser {
    /** The lines of the map file, in order and already sanitised. */
    const lines: seq<string>

    /** `@subparser`. */
    var subparser: Phase
    /** `@id_map`, as its entries and its keys in insertion order. */
    var idMap: map<int, ObjectEntry>
    var idOrder: seq<int>
    /** `@library_map`, as its entries and its keys in insertion order. */
    var libraryMap: map<string, Library>
    var libraryOrder: seq<string>
    /** `@result_hash`: nil until `hash` has completed once. */
    var resultHash: Option<Summary>

    /** The tables and the sub-parser as one value. */
    function State(): ParserState
      reads this
    {
      ParserState(subparser, idMap, idOrder, libraryMap, libraryOrder)
    }

    /** The tables are well formed and a cached result is the one they give. */
    ghost predicate Valid()
      reads this
    {
      WellFormed(State()) && (resultHash.Some? ==> resultHash.value == Summarize(State()))
    }

    /** `initialize`: two empty hashes, no sub-parser and no cached result. */
    constructor (lines: seq<string>)
      ensures this.lines == lines
      ensures State() == Initial && resultHash == None
      ensures Valid()
    {
      this.lines := lines;
      subparser := Unset;
      idMap := map[];
      idOrder := [];
      libraryMap := map[];
      libraryOrder := [];
      resultHash := None;
    }

    /** `parse_object_files`: declares the object of a matching line under its library. */
    method ParseObjectFiles(text: string)
      modifies this
      ensures State() == ObjectFilesLine(old(State()), text)
      ensures resultHash == old(resultHash)
    {
      match ObjectLine(text)
      case None =>
      case Some(d) =>
        if d.id !in idMap {
          idOrder := idOrder + [d.id];
        }
        idMap := idMap[d.id := ObjectEntry(d.library, d.objectName, None)];
        var library := if d.library in libraryMap then libraryMap[d.library] else Library(d.library, 0, []);
        library := library.(objects := library.objects + [d.id]);
        if d.library !in libraryMap {
          libraryOrder := libraryOrder + [d.library];
        }
        libraryMap := libraryMap[d.library := library];
    }

    /** `parse_sections` does nothing. */
    method ParseSections(text: string)
    {
    }

    /**
     * `parse_symbols`: credits a symbol's size to its object and to the
     * object's library. `ok` is false where Ruby would raise on a missing
     * library, after the object's size was already updated.
     */
    method ParseSymbols(text: string) returns (ok: bool)
      modifies this
      ensures State() == SymbolsLine(old(State()), text).state
      ensures ok <==> SymbolsLine(old(State()), text).Next?
      ensures resultHash == old(resultHash)
    {
      ok := true;
      ghost var st := State();
      var parsed := SymbolLine(text);
      if parsed.Some? {
        var a := parsed.value;
        assert SymbolsLine(st, text) == Attribute(st, a);
        if a.id in idMap {
          var idInfo := idMap[a.id];
          idMap := idMap[a.id := idInfo.(size := Some(idInfo.size.GetOr(0) + a.size))];
          if idInfo.library in libraryMap {
            var library := libraryMap[idInfo.library];
            libraryMap := libraryMap[idInfo.library := library.(size := library.size + a.size)];
          } else {
            ok := false;
          }
        }
      }
    }

    /**
     * `parse`: every line in turn, from the current state (nothing is reset
     * between parses). The first line that raises ends the parse with its
     * number and content, leaving the tables as they were at that point.
     */
    method Parse() returns (err: Option<ParseError>)
      modifies this
      ensures var outcome := Run(old(State()), lines, 0);
        && State() == outcome.state
        && err == (if outcome.Aborted? then Some(outcome.error) else None)
      ensures resultHash == old(resultHash)
    {
      var lineNum := 0;
      while lineNum < |lines|
        invariant 0 <= lineNum <= |lines|
        invariant Run(old(State()), lines, 0) == Run(State(), lines, lineNum)
        invariant resultHash == old(resultHash)
      {
        var line := lines[lineNum];
        if Contains(line, "#") {
          if Contains(line, "# Object files:") {
            subparser := ObjectFiles;
          } else if Contains(line, "# Sections:") {
            subparser := Sections;
          } else if Contains(line, "# Symbols:") {
            subparser := Symbols;
          }
        } else {
          match subparser
          case Unset =>
            return Some(ParseError(lineNum, line));
          case ObjectFiles =>
            ParseObjectFiles(line);
          case Sections =>
            ParseSections(line);
          case Symbols =>
            var ok := ParseSymbols(line);
            if !ok {
              return Some(ParseError(lineNum, line));
            }
        }
        lineNum := lineNum + 1;
      }
      return None;
    }

    /**
     * `hash`: the cached result if there is one; otherwise parse, and on
     * success compute the total and the detail records and cache them. A
     * parse that raises leaves no cached result.
     */
    method Hash() returns (r: Result<Summary, ParseError>)
      requires Valid()
      modifies this
      ensures Valid()
      ensures old(resultHash).Some? ==>
        r == Success(old(resultHash).value) && State() == old(State()) && resultHash == old(resultHash)
      ensures old(resultHash).None? ==>
        var outcome := Run(old(State()), lines, 0);
        && State() == outcome.state
        && (outcome.Aborted? ==> r == Failure(outcome.error) && resultHash == None)
        && (outcome.Done? ==> r == Success(Summarize(State())) && resultHash == Some(r.value))
    {
      if resultHash.Some? {
        return Success(resultHash.value);
      }
      RunPreservesWellFormed(State(), lines, 0);
      var err := Parse();
      if err.Some? {
        return Failure(err.value);
      }
      var summary := Summarize(State());
      resultHash := Some(summary);
      return Success(summary);
    }

    /**
     * `report`, before byte counts are formatted: the total, the libraries
     * largest first and the objects in declaration order, from `hash`.
     */
    method Report() returns (r: Result<Report, ParseError>)
      requires Valid()
      modifies this
      ensures Valid()
      ensures old(resultHash).Some? ==>
        State() == old(State()) && resultHash == old(resultHash) &&
        r == Success(ReportOf(State(), old(resultHash).value))
      ensures old(resultHash).None? ==>
        var outcome := Run(old(State()), lines, 0);
        && State() == outcome.state
        && (outcome.Aborted? ==> r == Failure(outcome.error) && resultHash == None)
        && (outcome.Done? ==> r == Success(ReportOf(State(), Summarize(State()))) && resultHash == Some(Summarize(State())))
    {
      var result := Hash();
      match result
      case Failure(e) =>
        return Failure(e);
      case Success(s) =>
        return Success(ReportOf(State(), s));
    }
  }

  /** A second `hash` returns the first one's result without parsing again. */
  method HashTwice(parser: LinkmapParser) returns (first: Result<Summary, ParseError>, second: Result<Summary, ParseError>)
    requires parser.Valid()
    modifies parser
    ensures first.Success? ==> second == first
  {
    first := parser.Hash();
    ghost var parsed := parser.State();
    second := parser.Hash();
    assert first.Success? ==> parser.State() == parsed;
  }
}
