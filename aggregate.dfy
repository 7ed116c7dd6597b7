/**
 * What `hash` and `report` compute from the tables once they are parsed:
 * the total (`inject(:+)` over the library sizes), one detail record per
 * library in insertion order, and the libraries ranked by size for the
 * report.
 */
module Aggregate {
  import opened Wrappers
  import opened Tables

  /** One `{object => size}` pair of a detail record; the size is nil for an object without symbols. */
  datatype ObjectSize = ObjectSize(objectName: string, size: Option<nat>)

  /** One element of `detail`: `{library:, size:, objects:}`. */
  datatype LibraryDetail = LibraryDetail(library: string, size: nat, objects: seq<ObjectSize>)

  /** `{total:, detail:}`; the total is nil when there is no library. */
  datatype Summary = Summary(total: Option<nat>, detail: seq<LibraryDetail>)

  /** The report's content: the total, the libraries by size, the objects in declaration order. */
  datatype Report = Report(total: Option<nat>, libraries: seq<LibraryDetail>, objects: seq<ObjectSize>)

  // ---------------------------------------------------------------------
  // inject(:+)

  /** `xs.inject(:+)`: nil for no element, else the first element plus each later one in turn. */
  function Inject(xs: seq<nat>): Option<nat> {
    if xs == [] then None
    else
      match Inject(xs[..|xs| - 1])
      case None => Some(xs[|xs| - 1])
      case Some(t) => Some(t + xs[|xs| - 1])
  }

  /** The sum of `xs`. */
  function Sum(xs: seq<nat>): nat {
    if xs == [] then 0 else xs[0] + Sum(xs[1..])
  }

  lemma {:induction false} SumAppend(xs: seq<nat>, x: nat)
    ensures Sum(xs + [x]) == Sum(xs) + x
  {
    if xs != [] {
      assert (xs + [x])[1..] == xs[1..] + [x];
      SumAppend(xs[1..], x);
    }
  }

  /** `inject(:+)` is nil exactly for no element, and otherwise the sum. */
  lemma {:induction false} InjectIsSum(xs: seq<nat>)
    ensures Inject(xs) == if xs == [] then None else Some(Sum(xs))
  {
    if xs != [] {
      var init := xs[..|xs| - 1];
      InjectIsSum(init);
      assert init + [xs[|xs| - 1]] == xs;
      SumAppend(init, xs[|xs| - 1]);
    }
  }

  // ---------------------------------------------------------------------
  // hash

  /** `@library_map.values`: the libraries in insertion order. */
  function Libraries(st: ParserState): (libs: seq<Library>)
    requires WellFormed(st)
    ensures |libs| == |st.libraryOrder|
    ensures forall i :: 0 <= i < |libs| ==> libs[i] == st.libraryMap[st.libraryOrder[i]]
  {
    seq(|st.libraryOrder|, i requires 0 <= i < |st.libraryOrder| => st.libraryMap[st.libraryOrder[i]])
  }

  /** `@library_map.values` holds one library per key: each key's library once, under its own name. */
  lemma LibrariesOnePerKey(st: ParserState)
    requires WellFormed(st)
    ensures var libs := Libraries(st);
      && (forall name :: name in st.libraryMap <==> exists i :: 0 <= i < |libs| && libs[i].name == name)
      && (forall i, j :: 0 <= i < j < |libs| ==> libs[i].name != libs[j].name)
      && (forall i :: 0 <= i < |libs| ==> libs[i] == st.libraryMap[libs[i].name])
  {
    var libs := Libraries(st);
    forall name | name in st.libraryMap ensures exists i :: 0 <= i < |libs| && libs[i].name == name {
      assert name in st.libraryOrder;
      var i :| 0 <= i < |st.libraryOrder| && st.libraryOrder[i] == name;
      assert libs[i].name == name;
    }
    forall i | 0 <= i < |libs| ensures libs[i].name == st.libraryOrder[i] {
      assert st.libraryOrder[i] in st.libraryOrder;
    }
  }

  /** `.map(&:size)`. */
  function Sizes(libs: seq<Library>): (sizes: seq<nat>)
    ensures |sizes| == |libs| && forall i :: 0 <= i < |libs| ==> sizes[i] == libs[i].size
  {
    seq(|libs|, i requires 0 <= i < |libs| => libs[i].size)
  }

  /** `{@id_map[o][:object] => @id_map[o][:size]}` for each id of a library's list. */
  function ObjectSizes(st: ParserState, ids: seq<int>): (pairs: seq<ObjectSize>)
    requires Declared(st, ids)
    ensures |pairs| == |ids|
    ensures forall i :: 0 <= i < |ids| ==>
      pairs[i] == ObjectSize(st.idMap[ids[i]].objectName, st.idMap[ids[i]].size)
  {
    seq(|ids|, i requires 0 <= i < |ids| => ObjectSize(st.idMap[ids[i]].objectName, st.idMap[ids[i]].size))
  }

  /** The detail record of one library. */
  function Detail(st: ParserState, lib: Library): LibraryDetail
    requires Declared(st, lib.objects)
  {
    LibraryDetail(lib.name, lib.size, ObjectSizes(st, lib.objects))
  }

  lemma LibraryObjectsDeclared(st: ParserState)
    requires WellFormed(st)
    ensures forall i :: 0 <= i < |st.libraryOrder| ==> Declared(st, Libraries(st)[i].objects)
  {
    forall i | 0 <= i < |st.libraryOrder| ensures Declared(st, Libraries(st)[i].objects) {
      var name := st.libraryOrder[i];
      assert name in st.libraryOrder;
      assert name in st.libraryMap;
      var objects := st.libraryMap[name].objects;
      assert Libraries(st)[i] == st.libraryMap[name];
      forall j | 0 <= j < |objects| ensures objects[j] in st.idMap {
        ObjectsDeclared(st, name, objects[j]);
      }
    }
  }

  /** Every id of `ids` has an entry. */
  predicate Declared(st: ParserState, ids: seq<int>) {
    forall i :: 0 <= i < |ids| ==> ids[i] in st.idMap
  }

  /** What `hash` computes from the parsed tables. */
  function Summarize(st: ParserState): Summary
    requires WellFormed(st)
  {
    var libs := Libraries(st);
    LibraryObjectsDeclared(st);
    Summary(Inject(Sizes(libs)), seq(|libs|, i requires 0 <= i < |libs| => Detail(st, libs[i])))
  }

  /**
   * The total is nil when no library was declared and otherwise the sum of
   * the library sizes; the detail lists one record per library, in the
   * order the libraries were first seen, with its name, size and the
   * object-to-size pairs of its object list.
   */
  lemma SummaryMeaning(st: ParserState)
    requires WellFormed(st)
    ensures var s := Summarize(st);
      && s.total == (if st.libraryOrder == [] then None else Some(Sum(Sizes(Libraries(st)))))
      && (s.total.None? <==> |st.libraryMap| == 0)
      && |s.detail| == |st.libraryOrder|
      && forall i :: 0 <= i < |s.detail| ==>
        var lib := st.libraryMap[st.libraryOrder[i]];
        && s.detail[i].library == st.libraryOrder[i]
        && s.detail[i].size == lib.size
        && Declared(st, lib.objects)
        && s.detail[i].objects == ObjectSizes(st, lib.objects)
  {
    InjectIsSum(Sizes(Libraries(st)));
    LibraryObjectsDeclared(st);
    if st.libraryOrder != [] {
      assert st.libraryOrder[0] in st.libraryOrder;
    }
    if |st.libraryMap| != 0 {
      var k :| k in st.libraryMap;
      assert k in st.libraryOrder;
    }
  }

  /** Every library has exactly one detail record, and every record is a library's. */
  lemma OneRecordPerLibrary(st: ParserState, name: string)
    requires WellFormed(st)
    ensures var d := Summarize(st).detail;
      (name in st.libraryMap ==> exists i :: 0 <= i < |d| && d[i].library == name) &&
      (forall i, j :: 0 <= i < |d| && 0 <= j < |d| && d[i].library == name && d[j].library == name ==> i == j) &&
      (forall i :: 0 <= i < |d| && d[i].library == name ==> name in st.libraryMap)
  {
    var d := Summarize(st).detail;
    SummaryMeaning(st);
    if name in st.libraryMap {
      assert name in st.libraryOrder;
      var i :| 0 <= i < |st.libraryOrder| && st.libraryOrder[i] == name;
      assert d[i].library == name;
    }
  }

  // ---------------------------------------------------------------------
  // report

  predicate Ascending(s: seq<LibraryDetail>) {
    forall i, j :: 0 <= i < j < |s| ==> s[i].size <= s[j].size
  }

  predicate Descending(s: seq<LibraryDetail>) {
    forall i, j :: 0 <= i < j < |s| ==> s[i].size >= s[j].size
  }

  /** Places `d` before the first larger record of `s`. */
  function InsertBySize(d: LibraryDetail, s: seq<LibraryDetail>): seq<LibraryDetail> {
    if s == [] || d.size <= s[0].size then [d] + s
    else [s[0]] + InsertBySize(d, s[1..])
  }

  /** Inserting into an ascending sequence keeps it ascending and adds exactly `d`. */
  lemma {:induction false} InsertBySizeSorted(d: LibraryDetail, s: seq<LibraryDetail>)
    requires Ascending(s)
    ensures var r := InsertBySize(d, s);
      Ascending(r) && multiset(r) == multiset(s) + multiset{d}
  {
    if s == [] || d.size <= s[0].size {
      PrependAscending(d, s);
    } else {
      var rest := InsertBySize(d, s[1..]);
      assert Ascending(s[1..]) by {
        forall i, j | 0 <= i < j < |s[1..]| ensures s[1..][i].size <= s[1..][j].size {
          assert s[1..][i] == s[i + 1] && s[1..][j] == s[j + 1];
        }
      }
      InsertBySizeSorted(d, s[1..]);
      assert s == [s[0]] + s[1..];
      assert multiset([s[0]] + rest) == multiset(s) + multiset{d};
      assert s[0].size <= rest[0].size by {
        assert rest[0] in multiset(rest);
        if rest[0] != d {
          assert rest[0] in multiset(s[1..]);
          var j :| 0 <= j < |s[1..]| && s[1..][j] == rest[0];
          assert s[j + 1] == rest[0];
        }
      }
      PrependAscending(s[0], rest);
    }
  }

  /** A record no larger than any of an ascending sequence's records can go in front of it. */
  lemma PrependAscending(d: LibraryDetail, s: seq<LibraryDetail>)
    requires Ascending(s) && (s == [] || d.size <= s[0].size)
    ensures Ascending([d] + s)
  {
    forall i, j | 0 <= i < j < |[d] + s| ensures ([d] + s)[i].size <= ([d] + s)[j].size {
      assert ([d] + s)[j] == s[j - 1];
      if i > 0 {
        assert ([d] + s)[i] == s[i - 1];
      } else if j > 1 {
        assert s[0].size <= s[j - 1].size;
      }
    }
  }

  /** `sort_by { |h| h[:size] }`: some ordering of the records by ascending size. */
  function SortBySize(s: seq<LibraryDetail>): (r: seq<LibraryDetail>)
    ensures Ascending(r) && multiset(r) == multiset(s)
  {
    if s == [] then []
    else
      assert s == [s[0]] + s[1..];
      InsertBySizeSorted(s[0], SortBySize(s[1..]));
      InsertBySize(s[0], SortBySize(s[1..]))
  }

  /** `.reverse`. */
  function Reverse<T>(s: seq<T>): (r: seq<T>)
    ensures |r| == |s| && forall i :: 0 <= i < |s| ==> r[i] == s[|s| - 1 - i]
  {
    if s == [] then [] else Reverse(s[1..]) + [s[0]]
  }

  lemma {:induction false} ReverseKeepsElements<T>(s: seq<T>)
    ensures multiset(Reverse(s)) == multiset(s)
  {
    if s != [] {
      ReverseKeepsElements(s[1..]);
      assert s == [s[0]] + s[1..];
    }
  }

  /** The report's library order: every library once, largest first (ties in no particular order). */
  function Ranking(detail: seq<LibraryDetail>): seq<LibraryDetail> {
    Reverse(SortBySize(detail))
  }

  lemma RankingIsDescendingPermutation(detail: seq<LibraryDetail>)
    ensures Descending(Ranking(detail))
    ensures multiset(Ranking(detail)) == multiset(detail)
  {
    ReverseKeepsElements(SortBySize(detail));
  }

  /** `@id_map.each_value`: every object in the order it was first declared. */
  function DeclaredObjects(st: ParserState): seq<ObjectSize>
    requires WellFormed(st)
  {
    ObjectSizes(st, st.idOrder)
  }

  /** What `report` prints, before byte counts are formatted. */
  function ReportOf(st: ParserState, s: Summary): Report
    requires WellFormed(st)
  {
    Report(s.total, Ranking(s.detail), DeclaredObjects(st))
  }

  /**
   * The report keeps the total, lists every detail record once with the
   * largest libraries first, and lists one line per declared object in the
   * order the ids were first declared.
   */
  lemma ReportMeaning(st: ParserState, s: Summary)
    requires WellFormed(st)
    ensures var r := ReportOf(st, s);
      && r.total == s.total
      && Descending(r.libraries) && multiset(r.libraries) == multiset(s.detail)
      && |r.objects| == |st.idOrder|
      && forall i :: 0 <= i < |st.idOrder| ==>
        r.objects[i] == ObjectSize(st.idMap[st.idOrder[i]].objectName, st.idMap[st.idOrder[i]].size)
  {
    RankingIsDescendingPermutation(s.detail);
  }
}
