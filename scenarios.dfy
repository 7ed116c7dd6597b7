/**
 * The sample lines of the parser's comments fed through the phase machine:
 * what each one does to the tables in the phase where it appears.
 */
module Scenarios {
  import opened Wrappers
  import opened RubyText
  import opened LineGrammar
  import opened Tables
  import opened TableProperties
  import opened LineSamples

  /**
   * In the object-files phase the archive-member sample files id 6 under
   * `libReactiveCocoa.a` with no size yet and appends 6 to that library's
   * list; a library seen for the first time starts with size 0.
   */
  lemma ArchiveMemberDeclared(st: ParserState, line: string)
    requires WellFormed(st) && st.subparser == ObjectFiles && IsMemberSample(line)
    ensures Step(st, line) == Next(Declare(st, Declaration(6, "libReactiveCocoa.a", "MKAnnotationView+RACSignalSupport.o")))
    ensures var next := Declare(st, Declaration(6, "libReactiveCocoa.a", "MKAnnotationView+RACSignalSupport.o"));
      && next.idMap[6] == ObjectEntry("libReactiveCocoa.a", "MKAnnotationView+RACSignalSupport.o", None)
      && next.libraryMap["libReactiveCocoa.a"] == (
           if "libReactiveCocoa.a" in st.libraryMap
           then st.libraryMap["libReactiveCocoa.a"].(objects := st.libraryMap["libReactiveCocoa.a"].objects + [6])
           else Library("libReactiveCocoa.a", 0, [6]))
  {
    MemberSampleNoHash(line);
    ArchiveMemberSample(line);
    DeclareEffect(st, Declaration(6, "libReactiveCocoa.a", "MKAnnotationView+RACSignalSupport.o"));
  }

  /** In the object-files phase the `UIKit.tbd` stub goes to `System` as object 100. */
  lemma SystemStubDeclared(st: ParserState, line: string)
    requires WellFormed(st) && st.subparser == ObjectFiles && IsStubSample(line)
    ensures Step(st, line) == Next(Declare(st, Declaration(100, "System", "UIKit.tbd")))
    ensures var next := Declare(st, Declaration(100, "System", "UIKit.tbd"));
      && next.idMap[100] == ObjectEntry("System", "UIKit.tbd", None)
      && next.libraryMap["System"].objects == LibraryFor(st, "System").objects + [100]
  {
    StubSampleNoHash(line);
    SystemStubSample(line);
    DeclareEffect(st, Declaration(100, "System", "UIKit.tbd"));
  }

  /** In the object-files phase `AppDelegate.o` goes to `Main` as object 3. */
  lemma MainObjectDeclared(st: ParserState, line: string)
    requires WellFormed(st) && st.subparser == ObjectFiles && IsObjectSample(line)
    ensures Step(st, line) == Next(Declare(st, Declaration(3, "Main", "AppDelegate.o")))
    ensures var next := Declare(st, Declaration(3, "Main", "AppDelegate.o"));
      && next.idMap[3] == ObjectEntry("Main", "AppDelegate.o", None)
      && next.libraryMap["Main"].objects == LibraryFor(st, "Main").objects + [3]
  {
    ObjectSampleNoHash(line);
    MainObjectSample(line);
    DeclareEffect(st, Declaration(3, "Main", "AppDelegate.o"));
  }

  /**
   * In the symbols phase, with object 4 declared, the symbol sample adds
   * 0x3C = 60 bytes to object 4 and to its library.
   */
  lemma SymbolCredited(st: ParserState, line: string)
    requires WellFormed(st) && st.subparser == Symbols && IsSymbolSample(line) && 4 in st.idMap
    ensures Step(st, line) == Attribute(st, Attribution(4, 60))
    ensures Attribute(st, Attribution(4, 60)).Next?
    ensures var e := st.idMap[4];
      var next := Attribute(st, Attribution(4, 60)).state;
      && next.idMap[4].size == Some(e.size.GetOr(0) + 60)
      && next.libraryMap[e.library].size == st.libraryMap[e.library].size + 60
  {
    SymbolStep(st, line);
    AttributeEffect(st, Attribution(4, 60));
  }

  /** In the symbols phase the symbol sample is the attribution of 60 bytes to object 4. */
  lemma SymbolStep(st: ParserState, line: string)
    requires st.subparser == Symbols && IsSymbolSample(line)
    ensures Step(st, line) == Attribute(st, Attribution(4, 60))
  {
    SymbolSampleNoHash(line);
    SymbolSample(line);
  }

  /** In the symbols phase, a symbol of an object never declared leaves everything as it was. */
  lemma SymbolOfUnknownObject(st: ParserState, line: string)
    requires st.subparser == Symbols && IsSymbolSample(line) && 4 !in st.idMap
    ensures Step(st, line) == Next(st)
  {
    SymbolSampleNoHash(line);
    SymbolSample(line);
  }

  /** After the symbols, the `# Dead Stripped Symbols:` header keeps the symbols phase. */
  lemma DeadStrippedHeader(st: ParserState)
    requires st.subparser == Symbols
    ensures Step(st, "# Dead Stripped Symbols:") == Next(st)
  {
    DeadStrippedKeepsPhase(Symbols);
    assert OccursAt("# Dead Stripped Symbols:", "#", 0);
  }

  /**
   * So a dead-stripped line after that header is counted: its 0x18 = 24
   * bytes are added to object 2 and to its library as if the symbol had
   * been linked.
   */
  lemma DeadStrippedCounted(st: ParserState, line: string)
    requires WellFormed(st) && st.subparser == Symbols && IsDeadSample(line) && 2 in st.idMap
    ensures Step(st, line) == Attribute(st, Attribution(2, 24))
    ensures Attribute(st, Attribution(2, 24)).Next?
    ensures var e := st.idMap[2];
      var next := Attribute(st, Attribution(2, 24)).state;
      && next.idMap[2].size == Some(e.size.GetOr(0) + 24)
      && next.libraryMap[e.library].size == st.libraryMap[e.library].size + 24
  {
    DeadStep(st, line);
    AttributeEffect(st, Attribution(2, 24));
  }

  /** In the symbols phase the dead-stripped sample is the attribution of 24 bytes to object 2. */
  lemma DeadStep(st: ParserState, line: string)
    requires st.subparser == Symbols && IsDeadSample(line)
    ensures Step(st, line) == Attribute(st, Attribution(2, 24))
  {
    DeadSampleNoHash(line);
    DeadSample(line);
  }
}
