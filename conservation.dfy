/**
 * Conservation of bytes: as long as no object id is declared twice, every
 * library's size is the sum of the sizes of the objects in its list (nil
 * counting as 0). `parse_symbols` adds a symbol's size to both sides, and
 * `parse_object_files` adds an object of size nil to one library's list.
 */
module Conservation {
  import opened Wrappers
  import opened RubyText
  import opened LineGrammar
  import opened Tables
  import opened TableProperties

  /** The bytes credited to the objects `ids`, nil counting as 0. */
  function ObjectBytes(idMap: map<int, ObjectEntry>, ids: seq<int>): nat {
    if ids == [] then 0
    else (if ids[0] in idMap then idMap[ids[0]].size.GetOr(0) else 0) + ObjectBytes(idMap, ids[1..])
  }

  /**
   * Every declared object is listed once, in the library it names, and
   * every library's size is the sum of its objects' sizes.
   */
  ghost predicate Conserved(st: ParserState) {
    && (forall id :: id in st.idMap ==> Listed(st, id))
    && (forall name :: name in st.libraryMap ==> Balanced(st, name))
  }

  /** The object is listed in the library it names. */
  ghost predicate Listed(st: ParserState, id: int)
    requires id in st.idMap
  {
    st.idMap[id].library in st.libraryMap && id in st.libraryMap[st.idMap[id].library].objects
  }

  /** The library lists each of its objects once and its size is their sum. */
  ghost predicate Balanced(st: ParserState, name: string)
    requires name in st.libraryMap
  {
    var objects := st.libraryMap[name].objects;
    && Distinct(objects)
    && (forall o :: o in objects ==> o in st.idMap && st.idMap[o].library == name)
    && st.libraryMap[name].size == ObjectBytes(st.idMap, objects)
  }

  // ---------------------------------------------------------------------
  // Sums

  lemma {:induction false} ObjectBytesAppend(m: map<int, ObjectEntry>, ids: seq<int>, x: int)
    ensures ObjectBytes(m, ids + [x]) == ObjectBytes(m, ids) + (if x in m then m[x].size.GetOr(0) else 0)
  {
    if ids != [] {
      assert (ids + [x])[1..] == ids[1..] + [x];
      ObjectBytesAppend(m, ids[1..], x);
    }
  }

  /** Changing an entry outside `ids` does not change their sum. */
  lemma {:induction false} ObjectBytesOther(m: map<int, ObjectEntry>, ids: seq<int>, o: int, e: ObjectEntry)
    requires o !in ids
    ensures ObjectBytes(m[o := e], ids) == ObjectBytes(m, ids)
  {
    if ids != [] {
      ObjectBytesOther(m, ids[1..], o, e);
    }
  }

  /** Crediting `n` bytes to an object listed once in `ids` adds `n` to their sum. */
  lemma {:induction false} ObjectBytesCredit(m: map<int, ObjectEntry>, ids: seq<int>, o: int, n: nat)
    requires o in m && o in ids && Distinct(ids)
    ensures ObjectBytes(m[o := m[o].(size := Some(m[o].size.GetOr(0) + n))], ids) == ObjectBytes(m, ids) + n
  {
    var e := m[o].(size := Some(m[o].size.GetOr(0) + n));
    if ids[0] == o {
      assert o !in ids[1..];
      ObjectBytesOther(m, ids[1..], o, e);
    } else {
      ObjectBytesCredit(m, ids[1..], o, n);
    }
  }

  // ---------------------------------------------------------------------
  // One line

  lemma DeclareBalanced(st: ParserState, d: Declaration, name: string)
    requires WellFormed(st) && Conserved(st) && d.id !in st.idMap
    requires name in Declare(st, d).libraryMap
    ensures Balanced(Declare(st, d), name)
  {
    var next := Declare(st, d);
    var e := ObjectEntry(d.library, d.objectName, None);
    DeclareEffect(st, d);
    if name == d.library {
      var before := LibraryFor(st, name).objects;
      assert d.id !in before;
      ObjectBytesOther(st.idMap, before, d.id, e);
      ObjectBytesAppend(next.idMap, before, d.id);
    } else {
      var objects := st.libraryMap[name].objects;
      assert d.id !in objects;
      ObjectBytesOther(st.idMap, objects, d.id, e);
    }
  }

  lemma DeclareConserves(st: ParserState, d: Declaration)
    requires WellFormed(st) && Conserved(st) && d.id !in st.idMap
    ensures Conserved(Declare(st, d))
  {
    var next := Declare(st, d);
    DeclareEffect(st, d);
    forall id | id in next.idMap ensures Listed(next, id) {
      if id != d.id {
        assert Listed(st, id);
      }
    }
    forall name | name in next.libraryMap ensures Balanced(next, name) {
      DeclareBalanced(st, d, name);
    }
  }

  lemma AttributeConserves(st: ParserState, a: Attribution)
    requires WellFormed(st) && Conserved(st)
    ensures Conserved(Attribute(st, a).state)
  {
    AttributeEffect(st, a);
    if a.id in st.idMap {
      var next := Attribute(st, a).state;
      var home := st.idMap[a.id].library;
      forall id | id in next.idMap ensures Listed(next, id) {
        assert Listed(st, id);
      }
      forall name | name in next.libraryMap ensures Balanced(next, name) {
        var objects := st.libraryMap[name].objects;
        assert Balanced(st, name);
        if name == home {
          ObjectBytesCredit(st.idMap, objects, a.id, a.size);
        } else {
          assert a.id !in objects;
          ObjectBytesOther(st.idMap, objects, a.id, next.idMap[a.id]);
        }
      }
    }
  }

  /** The line declares an id that is already declared. */
  ghost predicate Redeclares(st: ParserState, line: string) {
    && st.subparser == ObjectFiles && !Contains(line, "#")
    && ObjectLine(line).Some? && ObjectLine(line).value.id in st.idMap
  }

  /** Handling a line that declares no id twice conserves bytes. */
  lemma StepConserves(st: ParserState, line: string)
    requires WellFormed(st) && Conserved(st) && !Redeclares(st, line)
    ensures Conserved(Step(st, line).state)
  {
    if !Contains(line, "#") {
      match st.subparser
      case ObjectFiles => {
        match ObjectLine(line)
        case None =>
        case Some(d) => DeclareConserves(st, d);
      }
      case Symbols => {
        match SymbolLine(line)
        case None =>
        case Some(a) => AttributeConserves(st, a);
      }
      case _ =>
    }
  }

  /** No line of the parse from `from` on declares an id that is already declared when it is read. */
  ghost predicate NoRedeclaration(st: ParserState, lines: seq<string>, from: nat)
    decreases |lines| - from
  {
    from >= |lines| ||
      (!Redeclares(st, lines[from]) &&
        match Step(st, lines[from])
        case Next(next) => NoRedeclaration(next, lines, from + 1)
        case Fail(_) => true)
  }

  /** A parse in which no id is declared twice ends, finished or aborted, with bytes conserved. */
  lemma {:induction false} RunConserves(st: ParserState, lines: seq<string>, from: nat)
    requires WellFormed(st) && Conserved(st) && NoRedeclaration(st, lines, from)
    ensures Conserved(Run(st, lines, from).state)
    decreases |lines| - from
  {
    if from < |lines| {
      StepConserves(st, lines[from]);
      StepPreservesWellFormed(st, lines[from]);
      match Step(st, lines[from])
      case Next(next) => RunConserves(next, lines, from + 1);
      case Fail(_) =>
    }
  }

  /** A new parser conserves bytes trivially. */
  lemma InitialConserved()
    ensures WellFormed(Initial) && Conserved(Initial)
  {
  }
}
