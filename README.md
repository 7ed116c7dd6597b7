# linkmap_ios in Dafny

A verified model of `LinkmapIos::LinkmapParser` from `lib/linkmap_ios.rb`. The parser reads an
iOS linker map line by line. Header lines (any line with `#`) select a sub-parser:
object files, sections or symbols. Object-file lines declare numbered objects and file each under
a library: the static archive it came from, `System` for a `.tbd` stub, or `Main`. Symbol lines
add a symbol's size to its object and to that object's library. `hash` then summarises the
libraries (a total and one detail record each) and caches the result, and `report` lists the
libraries largest first and the objects in declaration order.

The model is layered like the Ruby code:

- `RubyText`, `RubyInt` — `String#include?`, `end_with?`, Ruby's `\s`/`\d`, and `String#to_i` in
  bases 10 and 16 (blanks, sign, `0x` prefix, digits with `_` separators, stop at the first
  other character).
- `LineGrammar` — the three regular expressions as explicit scanners over a line, with proofs
  that each matches exactly when the regex's shape occurs and picks the positions Ruby's greedy
  backtracking picks.
- `LineSamples` — the four sample lines quoted in the comments of `parse_object_files` and
  `parse_symbols`, verbatim, plus one dead-stripped symbol line in the linker's format (not
  quoted in the source), read through the grammars.
- `Tables` — the parser's state as a value (`@subparser`, `@id_map`, `@library_map`, each
  Ruby hash as a map plus its insertion order), one line (`Step`) and a whole parse (`Run`).
- `TableProperties`, `Conservation`, `Totals`, `Scenarios` — what lines and parses do to the
  tables.
- `Aggregate` — the projections computed by `hash` and `report`.
- `LinkmapIos` — the `LinkmapParser` class: fields updated in place by `Parse`,
  `ParseObjectFiles` and `ParseSymbols`, the cached `Hash`, and `Report`. Each method's
  postcondition ties the new fields to the functions of `Tables` and `Aggregate`.

Behaviour of the code that the model keeps as it is:

- A non-header line seen before any recognised header is sent to a nil sub-parser. That raises,
  and the rescue clause re-raises, so the whole parse aborts. The model reports this as a
  `ParseError` carrying the 0-based line number and the line.
- `# Dead Stripped Symbols:` contains none of the three header phrases, so it keeps the symbols
  phase. The dead-stripped lines after it match the symbol grammar and are counted like linked
  symbols. There is no separate dead size in this code.
- The total is `inject(:+)` over the library sizes, which is nil when there is no library, so
  the model's total is `Option<nat>`.
- Nothing is reset between parses. A parse that raises leaves partial tables and no cached
  result, and a later `hash` parses again on top of them.
- Redeclaring an id replaces its entry (size back to nil) and appends the id to the list of the
  library the new line names. When that is the same library, the id is listed there twice; when
  it is another library, the first library keeps the id too, so it is listed under both. Either
  way the bytes already credited stay with the first library. Byte conservation is therefore
  proved for parses without redeclarations.

## Model

| member | source | states |
|---|---|---|
| RubyText.Contains | lib/linkmap_ios.rb:73 | `include?` is true exactly when the substring occurs at some index |
| RubyText.WithoutChar | lib/linkmap_ios.rb:73 | a line with no `#` character does not `include?` `"#"` |
| RubyInt.DecimalRoundTrip | lib/linkmap_ios.rb:100 | `to_i` of blanks, a decimal numeral and any text that does not continue it yields the numeral's value |
| RubyInt.NegativeRoundTrip | lib/linkmap_ios.rb:100 | `to_i` of blanks, `-` and a numeral yields the negated value |
| RubyInt.HexRoundTrip | lib/linkmap_ios.rb:132 | `to_i(16)` of `0x`, leading zeros, a hex numeral and any stop text yields the numeral's value |
| RubyInt.HornerNumeral | lib/linkmap_ios.rb:132 | the digits of the canonical numeral of n evaluate back to n in either base |
| RubyInt.ToI | lib/linkmap_ios.rb:100-132 | definition of `String#to_i` as used at lines 100, 130 and 132; properties in `RubyInt.DecimalRoundTrip`, `RubyInt.NegativeRoundTrip`, `RubyInt.HexRoundTrip` |
| RubyInt.NumeralRoundTrip | lib/linkmap_ios.rb:100 | the digit run of a canonical numeral followed by text that does not continue it evaluates to the number |
| RubyInt.DigitsRoundTrip | lib/linkmap_ios.rb:132 | leading zeros and trailing non-digit text do not change the value of a digit run |
| RubyInt.ToIHexPrefix | lib/linkmap_ios.rb:132 | `to_i(16)` skips a leading `0x` and reads the digit run after it |
| LineGrammar.MatchArchiveMember | lib/linkmap_ios.rb:96 | a match has `[`, `]`, `/`, `(`, `)` in order, `[` first in the line, `)` last, `(`, `/`, `]` each the last one before the next mark |
| LineGrammar.MatchPath | lib/linkmap_ios.rb:106 | a match has `[`, `]`, `/` in order, with the first `[`, the last `/` of the line and the last `]` before it |
| LineGrammar.MatchSymbol | lib/linkmap_ios.rb:129 | a match has `0x`, blank-`[`, digit-`]` in order, each the last such mark that leaves room for the rest |
| LineGrammar.MemberMatchComplete | lib/linkmap_ios.rb:96 | the archive-member scanner succeeds exactly when the regex's five marks occur in order |
| LineGrammar.PathMatchComplete | lib/linkmap_ios.rb:106 | the plain-path scanner succeeds exactly when `[`, `]`, `/` occur in order |
| LineGrammar.SymbolMatchComplete | lib/linkmap_ios.rb:129 | the symbol scanner succeeds exactly when `0x`, blank-`[`, digit-`]` occur in order |
| LineGrammar.MemberMatchUnique | lib/linkmap_ios.rb:96 | any positions meeting the shape and the greedy conditions are the ones the scanner returns |
| LineGrammar.PathMatchUnique | lib/linkmap_ios.rb:106 | any positions meeting the shape and the greedy conditions are the ones the scanner returns |
| LineGrammar.SymbolMatchUnique | lib/linkmap_ios.rb:129 | any positions meeting the shape and the greedy conditions are the ones the scanner returns |
| LineGrammar.MemberIsPath | lib/linkmap_ios.rb:96-106 | every archive-member line also matches the plain-path regex, so the `if` must be tried first |
| LineGrammar.PlainLibrary | lib/linkmap_ios.rb:113 | definition; its use is stated in `LineGrammar.ObjectLineOfPath`, `LineSamples.SystemStubSample` and `LineSamples.MainObjectSample` |
| LineGrammar.ObjectLine | lib/linkmap_ios.rb:95-119 | an object-file line declares something exactly when the plain-path regex matches |
| LineGrammar.ObjectLineOfMember | lib/linkmap_ios.rb:96-104 | an archive-member match declares `$1.to_i` under the archive `$2` with object `$3` |
| LineGrammar.ObjectLineOfPath | lib/linkmap_ios.rb:106-114 | a plain-path-only match declares `$1.to_i` with object `$2`, the last path component, under `PlainLibrary($2)` |
| LineGrammar.NoParenNoMember | lib/linkmap_ios.rb:96 | a line without `)` is not an archive member |
| LineGrammar.NoSlashNoDeclaration | lib/linkmap_ios.rb:95-120 | an object-file line without `/` declares nothing |
| LineGrammar.HexSize | lib/linkmap_ios.rb:132-133 | definition of `$1.to_i(16)`; properties in `RubyInt.HexRoundTrip`, `LineSamples.SizeSixty` |
| LineGrammar.SymbolLine | lib/linkmap_ios.rb:129-132 | a symbol line yields an attribution exactly when the symbol regex matches |
| LineGrammar.SymbolLineOf | lib/linkmap_ios.rb:129-132 | a symbol match attributes `$1.to_i(16)` bytes (the `0x…` group) to id `$2.to_i` (the bracketed group) |
| LineSamples.ArchiveMemberSample | lib/linkmap_ios.rb:96-101 | the verbatim line-98 sample `[  6] SomePath/…/libReactiveCocoa.a(MKAnnotationView+RACSignalSupport.o)` declares id 6 in `libReactiveCocoa.a` as that member |
| LineSamples.SystemStubSample | lib/linkmap_ios.rb:106-114 | the verbatim line-109 sample `[100] /Applications/Xcode.app/…/UIKit.framework/UIKit.tbd` declares id 100 in `System` as `UIKit.tbd` |
| LineSamples.MainObjectSample | lib/linkmap_ios.rb:106-114 | the verbatim line-111 sample `[  3] /SomePath/…/arm64/AppDelegate.o` declares id 3 in `Main` as `AppDelegate.o` |
| LineSamples.SizeSixty | lib/linkmap_ios.rb:128-132 | `0x0000003C` reads as 60 |
| LineSamples.SymbolSample | lib/linkmap_ios.rb:128-132 | the `0x1000055C8 0x0000003C [  4] -[FirstViewController viewWillAppear:]` sample attributes 60 bytes to id 4 |
| LineSamples.DeadSample | lib/linkmap_ios.rb:129-132 | a dead-stripped line in the linker's format, `<<dead>> 0x00000018 [  2] literal string: v`, matches the symbol regex and attributes 24 bytes to id 2 |
| LineSamples.MemberSampleNoHash | lib/linkmap_ios.rb:73 | the archive-member sample is not a header line |
| LineSamples.SymbolSampleNoHash | lib/linkmap_ios.rb:73 | the symbol sample is not a header line |
| Tables.HeaderPhase | lib/linkmap_ios.rb:74-80 | definition; properties in `TableProperties.HeaderOnlySwitchesPhase`, `TableProperties.KnownHeaders`, `TableProperties.DeadStrippedKeepsPhase` |
| Tables.Declare | lib/linkmap_ios.rb:100-105 | definition; properties in `TableProperties.DeclareEffect`, `TableProperties.DeclarePreservesWellFormed`, `Conservation.DeclareConserves` |
| Tables.Attribute | lib/linkmap_ios.rb:130-133 | definition; properties in `TableProperties.AttributeEffect`, `TableProperties.AttributePreservesWellFormed`, `Conservation.AttributeConserves` |
| Tables.LibraryFor | lib/linkmap_ios.rb:103-116 | definition of `@library_map[name] or Library.new(name, 0, [])`; properties in `TableProperties.DeclareEffect` |
| Tables.Remember | lib/linkmap_ios.rb:101-118 | definition of the key order a Ruby hash keeps on `[]=`; properties in `TableProperties.DeclareEffect`, `TableProperties.DeclarePreservesWellFormed` |
| Tables.ObjectFilesLine | lib/linkmap_ios.rb:95-120 | definition; properties in `LineGrammar.ObjectLineOfMember`, `LineGrammar.ObjectLineOfPath`, `TableProperties.DeclareEffect` |
| Tables.SymbolsLine | lib/linkmap_ios.rb:129-135 | definition; properties in `LineGrammar.SymbolLineOf`, `TableProperties.AttributeEffect` |
| Tables.Step | lib/linkmap_ios.rb:73-83 | definition; properties in `TableProperties.StepPreservesWellFormed`, `TableProperties.StepGrows`, `TableProperties.OrphanLineFails` |
| Tables.Run | lib/linkmap_ios.rb:65-89 | definition; properties in `TableProperties.RunPreservesWellFormed`, `TableProperties.RunGrows`, `TableProperties.RunAbortsAtFirstOrphan` |
| TableProperties.HeaderOnlySwitchesPhase | lib/linkmap_ios.rb:73-80 | a `#` line never reaches a sub-parser; it leaves the tables alone and sets the phase to `HeaderPhase` of the line, which differs from the current phase only if the line contains one of the three phrases |
| TableProperties.KnownHeaders | lib/linkmap_ios.rb:74-79 | the three header phrases select object files, sections and symbols |
| TableProperties.DeadStrippedKeepsPhase | lib/linkmap_ios.rb:73-80 | `# Dead Stripped Symbols:` keeps whatever phase was current |
| TableProperties.OnlyLeadingHash | lib/linkmap_ios.rb:73-80 | a header whose only `#` is its first character contains a `#`-phrase only as its own prefix |
| TableProperties.OrphanLineFails | lib/linkmap_ios.rb:82-87 | with no sub-parser, a non-header line raises and leaves the state unchanged |
| TableProperties.RunAbortsAtFirstOrphan | lib/linkmap_ios.rb:65-88 | a parse with no sub-parser aborts at the first non-header line, when no earlier header was recognised, reporting its number and content |
| TableProperties.SectionsLineChangesNothing | lib/linkmap_ios.rb:122-124 | a line in the sections phase changes nothing |
| TableProperties.NoSlashChangesNothing | lib/linkmap_ios.rb:95-120 | an object-file line without `/` leaves both tables unchanged |
| TableProperties.UnknownIdChangesNothing | lib/linkmap_ios.rb:130-131 | a symbol of an undeclared id changes nothing |
| TableProperties.DeclareEffect | lib/linkmap_ios.rb:100-105 | a declaration sets the id's entry with nil size. It appends the id to the library's list. A new library starts at size 0 and goes last in order; an existing one keeps its size and place. Nothing else changes |
| TableProperties.AttributeEffect | lib/linkmap_ios.rb:130-134 | a known id's size (nil as 0) and its library's size both grow by the symbol's size; nothing else changes; an unknown id changes nothing |
| TableProperties.DeclarePreservesWellFormed | lib/linkmap_ios.rb:100-105 | a declaration keeps both key orders exact and every listed id declared |
| TableProperties.AttributePreservesWellFormed | lib/linkmap_ios.rb:130-133 | an attribution keeps the tables well formed |
| TableProperties.StepPreservesWellFormed | lib/linkmap_ios.rb:73-83 | every line, whether it succeeds or raises, keeps the tables well formed |
| TableProperties.RunPreservesWellFormed | lib/linkmap_ios.rb:65-89 | a whole parse, finished or aborted, keeps the tables well formed |
| TableProperties.DeclareGrows | lib/linkmap_ios.rb:100-105 | after a declaration both key orders and key sets extend, every library is still present, its object list extends at the end, and library sizes never shrink; an id declared again has its entry replaced, size back to nil |
| TableProperties.AttributeGrows | lib/linkmap_ios.rb:130-133 | after an attribution, finished or raising, key orders, key sets and library object lists are kept, and library sizes never shrink |
| TableProperties.StepGrows | lib/linkmap_ios.rb:95-136 | after any line, key orders and library object lists grow at the end, key sets grow, libraries are reused and never dropped, and library sizes never shrink; an object's entry can still be replaced, size back to nil, when its id is declared again |
| TableProperties.RunGrows | lib/linkmap_ios.rb:65-89 | after a whole parse, finished or aborted, the same holds against the starting tables: key orders, key sets and object lists extend, and library sizes never shrink; object entries of redeclared ids may be replaced |
| Conservation.ObjectBytesCredit | lib/linkmap_ios.rb:132 | crediting n bytes to an object listed once adds n to the sum over the list |
| Conservation.DeclareConserves | lib/linkmap_ios.rb:100-105 | declaring a new id keeps every library's size equal to the sum of its objects' sizes |
| Conservation.AttributeConserves | lib/linkmap_ios.rb:130-133 | an attribution keeps every library's size equal to the sum of its objects' sizes |
| Conservation.StepConserves | lib/linkmap_ios.rb:73-83 | a line that redeclares no id conserves bytes |
| Conservation.RunConserves | lib/linkmap_ios.rb:65-89 | a parse without redeclarations ends with every library's size equal to the sum of its objects' sizes |
| Conservation.InitialConserved | lib/linkmap_ios.rb:12-16 | a new parser's tables are well formed and conserved |
| Totals.LibraryBytesUpdate | lib/linkmap_ios.rb:133 | replacing one library changes the sum of library sizes by the change in its size |
| Totals.LibraryBytesIsSum | lib/linkmap_ios.rb:24 | the sum of library sizes in insertion order is `Sum` of the sizes `hash` maps out |
| Totals.DeclareTallies | lib/linkmap_ios.rb:100-105 | declaring a new id keeps the sum of library sizes equal to the sum of object sizes |
| Totals.AttributeTallies | lib/linkmap_ios.rb:130-133 | an attribution adds the same amount to both sums |
| Totals.StepTallies | lib/linkmap_ios.rb:73-83 | a line that redeclares no id keeps both sums equal |
| Totals.RunTallies | lib/linkmap_ios.rb:65-89 | a parse without redeclarations keeps both sums equal |
| Totals.TotalIsObjectBytes | lib/linkmap_ios.rb:24 | with the sums equal, `total` is nil for no library and otherwise the sum of all object sizes |
| Totals.ParseTotal | lib/linkmap_ios.rb:22-24 | after a parse from a new parser without redeclarations, `total` is the sum of every declared object's size |
| Aggregate.Inject | lib/linkmap_ios.rb:24 | definition of `inject(:+)`; properties in `Aggregate.InjectIsSum` |
| Aggregate.InjectIsSum | lib/linkmap_ios.rb:24 | `inject(:+)` is nil for no element and otherwise the sum |
| Aggregate.Libraries | lib/linkmap_ios.rb:25 | definition of `@library_map.values`; properties in `Aggregate.LibrariesOnePerKey` |
| Aggregate.LibrariesOnePerKey | lib/linkmap_ios.rb:25 | a name is a key exactly when some listed library carries it, no name is listed twice, and each listed library is the one stored under its name |
| Aggregate.Detail | lib/linkmap_ios.rb:25-33 | definition of one detail record; properties in `Aggregate.SummaryMeaning` |
| Aggregate.Summarize | lib/linkmap_ios.rb:24-37 | definition of `hash`'s result; properties in `Aggregate.SummaryMeaning`, `Aggregate.OneRecordPerLibrary`, `Totals.TotalIsObjectBytes` |
| Aggregate.SummaryMeaning | lib/linkmap_ios.rb:24-37 | `total` is nil exactly when there is no library and otherwise the sum of library sizes; `detail[i]` carries the i-th library's name, size and object pairs |
| Aggregate.OneRecordPerLibrary | lib/linkmap_ios.rb:25-33 | every library has exactly one detail record and every record belongs to a library |
| Aggregate.InsertBySize | lib/linkmap_ios.rb:51 | definition; properties in `Aggregate.InsertBySizeSorted` |
| Aggregate.InsertBySizeSorted | lib/linkmap_ios.rb:51 | inserting into an ascending list keeps it ascending and adds exactly that record |
| Aggregate.SortBySize | lib/linkmap_ios.rb:51 | `sort_by { size }` yields an ascending permutation |
| Aggregate.Reverse | lib/linkmap_ios.rb:51 | `reverse` puts element i at position n-1-i |
| Aggregate.ReverseKeepsElements | lib/linkmap_ios.rb:51 | `reverse` is a permutation |
| Aggregate.Ranking | lib/linkmap_ios.rb:51 | definition of `sort_by { size }.reverse`; properties in `Aggregate.RankingIsDescendingPermutation` |
| Aggregate.RankingIsDescendingPermutation | lib/linkmap_ios.rb:51 | the report's library order is a permutation of the detail records, by non-increasing size |
| Aggregate.DeclaredObjects | lib/linkmap_ios.rb:55-57 | definition of `@id_map.each_value`; properties in `Aggregate.ReportMeaning` |
| Aggregate.ReportOf | lib/linkmap_ios.rb:45-57 | definition of `report`'s content; properties in `Aggregate.ReportMeaning` |
| Aggregate.ReportMeaning | lib/linkmap_ios.rb:45-57 | the report keeps the total, ranks every detail record once by non-increasing size, and lists every declared object once in declaration order |
| Scenarios.ArchiveMemberDeclared | lib/linkmap_ios.rb:96-105 | in the object-files phase the archive sample files id 6 under `libReactiveCocoa.a` with nil size and appends 6 to that library, created with size 0 if new |
| Scenarios.SystemStubDeclared | lib/linkmap_ios.rb:106-118 | in the object-files phase the verbatim line-109 sample files id 100 as `UIKit.tbd` under `System` with nil size and appends 100 to `System`'s list |
| Scenarios.MainObjectDeclared | lib/linkmap_ios.rb:106-118 | in the object-files phase the line-111 sample files id 3 as `AppDelegate.o` under `Main` with nil size and appends 3 to `Main`'s list |
| Scenarios.SymbolCredited | lib/linkmap_ios.rb:126-134 | with id 4 declared, the symbol sample adds 60 bytes to object 4 and to its library |
| Scenarios.SymbolOfUnknownObject | lib/linkmap_ios.rb:130-131 | with id 4 undeclared, the symbol sample changes nothing |
| Scenarios.DeadStrippedHeader | lib/linkmap_ios.rb:73-80 | in the symbols phase the dead-stripped header changes nothing |
| Scenarios.DeadStrippedCounted | lib/linkmap_ios.rb:126-134 | after it, a dead-stripped line adds its 24 bytes to object 2 and to its library |
| LinkmapIos.LinkmapParser.constructor | lib/linkmap_ios.rb:12-16 | empty tables, no sub-parser, no cached result, well formed |
| LinkmapIos.LinkmapParser.ParseObjectFiles | lib/linkmap_ios.rb:95-120 | the fields after the call are `ObjectFilesLine` of the fields before it |
| LinkmapIos.LinkmapParser.ParseSymbols | lib/linkmap_ios.rb:126-136 | the fields after the call are those `SymbolsLine` gives; `ok` is false exactly where Ruby would raise |
| LinkmapIos.LinkmapParser.ParseSections | lib/linkmap_ios.rb:122-124 | does nothing: it may change no field; the matching step is `TableProperties.SectionsLineChangesNothing` |
| LinkmapIos.LinkmapParser.Parse | lib/linkmap_ios.rb:64-93 | the loop leaves the fields `Run` gives from the starting state, and returns the error of the first line that raises |
| LinkmapIos.LinkmapParser.Hash | lib/linkmap_ios.rb:18-39 | a cached result is returned without parsing. Otherwise it parses: failure leaves no cache, and success caches and returns `Summarize` of the parsed tables. The tables stay well formed |
| LinkmapIos.LinkmapParser.Report | lib/linkmap_ios.rb:45-60 | with a cached result, nothing is parsed and the report is `ReportOf` the tables and that result. Otherwise it parses as `Run` gives: a parse that raises yields its error and no cache; a finished parse yields `ReportOf` the parsed tables and their `Summarize`, which is cached. The tables stay well formed |
| LinkmapIos.HashTwice | lib/linkmap_ios.rb:18-20 | a second `hash` after a successful one returns the same result |

## Left out

- Reading the file (`File.foreach`) and printing the failing line (`puts`) are I/O. The lines
  are the constructor's parameter, and the failure is a `ParseError` value in place of a
  re-raised exception.
- Repairing invalid encodings through UTF-16 is a foreign transcoder. Lines are taken to be
  valid text already.
- Lines are modelled without their newline terminator. The regexes' `.` never matches a
  newline, so no group captures one.
- `json` is not modelled, because `JSON.pretty_generate` is an external serialiser.
- In `report`, `Filesize.from(...).pretty` is an external gem with floating-point unit
  rounding. The report is modelled as its numeric content (total, ranked records, object
  pairs) before formatting.
- Detail objects are `{object.to_sym => size}` hashes in Ruby. They are modelled as
  (name, size) pairs, since symbols and strings are both text here.
- Aggregate.Ranking: it fixes one order among libraries of equal size. Ruby's `sort_by` is not
  stable, so only non-increasing size and permutation are stated about it.
- RubyInt.ToI: it does not model the `0d` prefix that decimal `to_i` also accepts, nor Ruby's
  treatment of an underscore right after the `0x` prefix. Neither occurs in linker maps.
- Regex matching is modelled by scanners for the three patterns only, and not by a general
  backtracking engine.
- `Library` structs are only reachable through `@library_map`, so they are values in a map,
  with no object identity or aliasing.
- `attr_reader :id_map, :library_map` are plain public fields of the class.
- Conservation.RunConserves: it requires that no object id is declared twice. A redeclared
  id's size is reset to nil while its library keeps the bytes already credited, so the equality
  does not hold then.
- Totals.ParseTotal: it carries the same no-redeclaration requirement, for the same reason.
