/**
 * The total that `hash` reports is the sum of the library sizes; as long as
 * no object id is declared twice it is also the sum of every object's
 * size, because `parse_symbols` credits each symbol to exactly one object
 * and to that object's library.
 */
module Totals {
  import opened Wrappers
  import opened RubyText
  import opened LineGrammar
  import opened Tables
  import opened TableProperties
  import opened Conservation
  import opened Aggregate

  /** The sizes of the libraries `names`, summed. */
  function LibraryBytes(m: map<string, Library>, names: seq<string>): nat {
    if names == [] then 0
    else (if names[0] in m then m[names[0]].size else 0) + LibraryBytes(m, names[1..])
  }

  /** The library sizes add up to the object sizes (nil counting as 0). */
  ghost predicate Tallied(st: ParserState) {
    LibraryBytes(st.libraryMap, st.libraryOrder) == ObjectBytes(st.idMap, st.idOrder)
  }

  // ---------------------------------------------------------------------
  // Sums

  lemma {:induction false} LibraryBytesAppend(m: map<string, Library>, names: seq<string>, k: string)
    ensures LibraryBytes(m, names + [k]) == LibraryBytes(m, names) + (if k in m then m[k].size else 0)
  {
    if names != [] {
      assert (names + [k])[1..] == names[1..] + [k];
      LibraryBytesAppend(m, names[1..], k);
    }
  }

  /** Replacing the library stored under a key listed at most once changes the sum by the change in its size. */
  lemma {:induction false} LibraryBytesUpdate(m: map<string, Library>, names: seq<string>, k: string, v: Library)
    requires Distinct(names)
    ensures LibraryBytes(m[k := v], names) + (if k in names && k in m then m[k].size else 0)
         == LibraryBytes(m, names) + (if k in names then v.size else 0)
  {
    if names != [] {
      assert Distinct(names[1..]) by {
        forall i, j | 0 <= i < j < |names[1..]| ensures names[1..][i] != names[1..][j] {
          assert names[1..][i] == names[i + 1] && names[1..][j] == names[j + 1];
        }
      }
      LibraryBytesUpdate(m, names[1..], k, v);
      if names[0] == k {
        assert k !in names[1..] by {
          forall j | 0 <= j < |names[1..]| ensures names[1..][j] != k {
            assert names[1..][j] == names[j + 1];
          }
        }
      }
    }
  }

  /** `LibraryBytes` is `Sum` over the sizes of the libraries, listed in the same order. */
  lemma {:induction false} LibraryBytesIsSum(m: map<string, Library>, names: seq<string>, sizes: seq<nat>)
    requires |sizes| == |names|
    requires forall i :: 0 <= i < |names| ==> names[i] in m && sizes[i] == m[names[i]].size
    ensures LibraryBytes(m, names) == Sum(sizes)
  {
    if names != [] {
      LibraryBytesIsSum(m, names[1..], sizes[1..]);
    }
  }

  // ---------------------------------------------------------------------
  // One line

  lemma DeclareTallies(st: ParserState, d: Declaration)
    requires WellFormed(st) && Tallied(st) && d.id !in st.idMap
    ensures Tallied(Declare(st, d))
  {
    var next := Declare(st, d);
    var e := ObjectEntry(d.library, d.objectName, None);
    var lib := LibraryFor(st, d.library);
    assert d.id !in st.idOrder;
    ObjectBytesOther(st.idMap, st.idOrder, d.id, e);
    ObjectBytesAppend(next.idMap, st.idOrder, d.id);
    LibraryBytesUpdate(st.libraryMap, st.libraryOrder, d.library, lib.(objects := lib.objects + [d.id]));
    if d.library !in st.libraryMap {
      LibraryBytesAppend(next.libraryMap, st.libraryOrder, d.library);
    }
  }

  lemma AttributeTallies(st: ParserState, a: Attribution)
    requires WellFormed(st) && Tallied(st)
    ensures Tallied(Attribute(st, a).state)
  {
    if a.id in st.idMap {
      var e := st.idMap[a.id];
      var lib := st.libraryMap[e.library];
      assert a.id in st.idOrder;
      ObjectBytesCredit(st.idMap, st.idOrder, a.id, a.size);
      LibraryBytesUpdate(st.libraryMap, st.libraryOrder, e.library, lib.(size := lib.size + a.size));
    }
  }

  /** Handling a line that declares no id twice keeps the library and object sizes in step. */
  lemma StepTallies(st: ParserState, line: string)
    requires WellFormed(st) && Tallied(st) && !Redeclares(st, line)
    ensures Tallied(Step(st, line).state)
  {
    if !Contains(line, "#") {
      match st.subparser
      case ObjectFiles => {
        match ObjectLine(line)
        case None =>
        case Some(d) => DeclareTallies(st, d);
      }
      case Symbols => {
        match SymbolLine(line)
        case None =>
        case Some(a) => AttributeTallies(st, a);
      }
      case _ =>
    }
  }

  lemma {:induction false} RunTallies(st: ParserState, lines: seq<string>, from: nat)
    requires WellFormed(st) && Tallied(st) && NoRedeclaration(st, lines, from)
    ensures Tallied(Run(st, lines, from).state)
    decreases |lines| - from
  {
    if from < |lines| {
      StepTallies(st, lines[from]);
      StepPreservesWellFormed(st, lines[from]);
      match Step(st, lines[from])
      case Next(next) => RunTallies(next, lines, from + 1);
      case Fail(_) =>
    }
  }

  // ---------------------------------------------------------------------
  // The total

  /** When the sizes are in step, `total` is nil for no library and otherwise the sum of every object's size. */
  lemma TotalIsObjectBytes(st: ParserState)
    requires WellFormed(st) && Tallied(st)
    ensures Summarize(st).total == if st.libraryOrder == [] then None else Some(ObjectBytes(st.idMap, st.idOrder))
  {
    SummaryMeaning(st);
    LibraryBytesIsSum(st.libraryMap, st.libraryOrder, Sizes(Libraries(st)));
  }

  /**
   * A parse from a fresh parser in which no id is declared twice, whether
   * it finishes or aborts, leaves tables whose total is the sum of the
   * sizes of all declared objects.
   */
  lemma ParseTotal(lines: seq<string>)
    requires NoRedeclaration(Initial, lines, 0)
    ensures var st := Run(Initial, lines, 0).state;
      && WellFormed(st)
      && Summarize(st).total == if st.libraryOrder == [] then None else Some(ObjectBytes(st.idMap, st.idOrder))
  {
    RunPreservesWellFormed(Initial, lines, 0);
    RunTallies(Initial, lines, 0);
    TotalIsObjectBytes(Run(Initial, lines, 0).state);
  }
}
