/**
 * The parser's state as a value, and what one line does to it.
 *
 * `LinkmapParser` keeps the current sub-parser (`@subparser`) and two Ruby
 * hashes that remember insertion order: `@id_map` from object id to
 * `{library, object, size}` and `@library_map` from library name to a
 * `Library` struct. Each hash is modelled as a `map` together with the
 * sequence of its keys in insertion order; assigning to a key that is
 * already present keeps its position. The `Library` structs are reachable
 * only through `@library_map`, so they are values here.
 */
module Tables {
  import opened Wrappers
  import opened RubyText
  import opened LineGrammar

  /** `@subparser`: nil until a recognised header has been seen. */
  datatype Phase = Unset | ObjectFiles | Sections | Symbols

  /** An `@id_map` entry; `size` stays nil until the first symbol of the object. */
  datatype ObjectEntry = ObjectEntry(library: string, objectName: string, size: Option<nat>)

  /** `Library = Struct.new(:name, :size, :objects)`. */
  datatype Library = Library(name: string, size: nat, objects: seq<int>)

  datatype ParserState = ParserState(
    subparser: Phase,
    idMap: map<int, ObjectEntry>,
    idOrder: seq<int>,
    libraryMap: map<string, Library>,
    libraryOrder: seq<string>)

  /** The line that failed and its 0-based number, as the rescue clause reports them. */
  datatype ParseError = ParseError(lineNum: nat, content: string)

  /** What handling one line leaves behind: the next state, or the state in which it raised. */
  datatype StepOutcome = Next(state: ParserState) | Fail(state: ParserState)

  /** What a whole parse leaves behind. */
  datatype RunOutcome = Done(state: ParserState) | Aborted(state: ParserState, error: ParseError)

  /** A freshly constructed parser: no sub-parser and two empty hashes. */
  const Initial := ParserState(Unset, map[], [], map[], [])

  predicate Distinct<K(==)>(s: seq<K>) {
    forall i, j :: 0 <= i < j < |s| ==> s[i] != s[j]
  }

  /** `order` lists the keys of `m`, each once. */
  ghost predicate KeyOrder<K(!new), V>(m: map<K, V>, order: seq<K>) {
    (forall k :: k in m <==> k in order) && Distinct(order)
  }

  /** Where a key goes when a Ruby hash is assigned to: a new key at the end, an old one stays. */
  function Remember<K, V>(m: map<K, V>, order: seq<K>, k: K): seq<K> {
    if k in m then order else order + [k]
  }

  /**
   * The invariant of the tables: both key orders are exact, every library is
   * stored under its own name, every object's library exists and every id in
   * a library's object list has an entry.
   */
  ghost predicate WellFormed(st: ParserState) {
    && KeyOrder(st.idMap, st.idOrder)
    && KeyOrder(st.libraryMap, st.libraryOrder)
    && (forall name :: name in st.libraryMap ==> st.libraryMap[name].name == name)
    && (forall id :: id in st.idMap ==> st.idMap[id].library in st.libraryMap)
    && (forall name, o :: name in st.libraryMap && o in st.libraryMap[name].objects ==> o in st.idMap)
  }

  /** Every id in a library's object list has an entry (the last conjunct of `WellFormed`, one library at a time). */
  lemma ObjectsDeclared(st: ParserState, name: string, o: int)
    requires WellFormed(st) && name in st.libraryMap && o in st.libraryMap[name].objects
    ensures o in st.idMap
  {
  }

  // ---------------------------------------------------------------------
  // One line

  /** The sub-parser a header line selects; any other header keeps the current one. */
  function HeaderPhase(line: string, current: Phase): Phase {
    if Contains(line, "# Object files:") then ObjectFiles
    else if Contains(line, "# Sections:") then Sections
    else if Contains(line, "# Symbols:") then Symbols
    else current
  }

  /** The library an object declaration files its id under, created empty on first use. */
  function LibraryFor(st: ParserState, name: string): Library {
    if name in st.libraryMap then st.libraryMap[name] else Library(name, 0, [])
  }

  /**
   * The assignments of `parse_object_files` for one declaration: a fresh
   * `@id_map` entry without a size, and the id appended to the library's
   * object list.
   */
  function Declare(st: ParserState, d: Declaration): ParserState {
    var lib := LibraryFor(st, d.library);
    st.(
      idMap := st.idMap[d.id := ObjectEntry(d.library, d.objectName, None)],
      idOrder := Remember(st.idMap, st.idOrder, d.id),
      libraryMap := st.libraryMap[d.library := lib.(objects := lib.objects + [d.id])],
      libraryOrder := Remember(st.libraryMap, st.libraryOrder, d.library))
  }

  /** `parse_object_files`: a line that is no declaration changes nothing. */
  function ObjectFilesLine(st: ParserState, line: string): ParserState {
    match ObjectLine(line)
    case None => st
    case Some(d) => Declare(st, d)
  }

  /**
   * The assignments of `parse_symbols` for one attribution. The object's
   * size is updated first; a missing library would then raise on `nil.size`,
   * leaving that update behind.
   */
  function Attribute(st: ParserState, a: Attribution): StepOutcome {
    if a.id !in st.idMap then Next(st)
    else
      var e := st.idMap[a.id];
      var st1 := st.(idMap := st.idMap[a.id := e.(size := Some(e.size.GetOr(0) + a.size))]);
      if e.library !in st.libraryMap then Fail(st1)
      else
        var lib := st.libraryMap[e.library];
        Next(st1.(libraryMap := st.libraryMap[e.library := lib.(size := lib.size + a.size)]))
  }

  /** `parse_symbols`: a line that is no symbol changes nothing. */
  function SymbolsLine(st: ParserState, line: string): StepOutcome {
    match SymbolLine(line)
    case None => Next(st)
    case Some(a) => Attribute(st, a)
  }

  /** One iteration of the loop in `parse`. */
  function Step(st: ParserState, line: string): StepOutcome {
    if Contains(line, "#") then Next(st.(subparser := HeaderPhase(line, st.subparser)))
    else
      match st.subparser
      case Unset => Fail(st)
      case ObjectFiles => Next(ObjectFilesLine(st, line))
      case Sections => Next(st)
      case Symbols => SymbolsLine(st, line)
  }

  /** `parse` from line `from` on: the first line that raises aborts the whole parse. */
  function Run(st: ParserState, lines: seq<string>, from: nat): RunOutcome
    decreases |lines| - from
  {
    if from >= |lines| then Done(st)
    else
      match Step(st, lines[from])
      case Next(next) => Run(next, lines, from + 1)
      case Fail(left) => Aborted(left, ParseError(from, lines[from]))
  }
}
