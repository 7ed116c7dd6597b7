/**
 * The three line grammars of `LinkmapParser`, each a Ruby regular
 * expression in the source, written here as explicit scanners. A line is
 * the text of one line of the map without its terminating newline (the
 * regexes' `.` never matches a newline, so no match reaches past it).
 *
 * Each matcher returns the positions of the characters its regex anchors
 * on, and its contract says both that such positions exist exactly when the
 * regex matches, and which ones Ruby's backtracking picks: the match starts
 * at the leftmost possible place and every greedy `.*` takes as much as it
 * can while the rest of the pattern still matches.
 */
module LineGrammar {
  import opened Wrappers
  import opened RubyText
  import opened RubyInt

  // ---------------------------------------------------------------------
  // Object files: `\[(.*)\].*\/(.*)\((.*)\)`  (an archive member)

  /** `[` at open, `]` at close, `/` at slash, `(` at paren, `)` at end. */
  datatype MemberMatch = MemberMatch(open: nat, close: nat, slash: nat, paren: nat, end: nat)

  predicate MemberShape(s: string, i: int, j: int, a: int, b: int, c: int) {
    i < j < a < b < c &&
    MarkAt(s, i, Char('[')) && MarkAt(s, j, Char(']')) && MarkAt(s, a, Char('/')) &&
    MarkAt(s, b, Char('(')) && MarkAt(s, c, Char(')'))
  }

  /**
   * Where `\[(.*)\].*\/(.*)\((.*)\)` matches `s`: the match starts at the
   * first `[`; `)` is the last one in the line, `(` the last before it, `/`
   * the last before that and `]` the last before that.
   */
  function MatchArchiveMember(s: string): (r: Option<MemberMatch>)
    ensures r.Some? ==>
      var m := r.value;
      && MemberShape(s, m.open, m.close, m.slash, m.paren, m.end)
      && NoMarkIn(s, Char('['), 0, m.open)
      && NoMarkIn(s, Char(']'), m.close + 1, m.slash)
      && NoMarkIn(s, Char('/'), m.slash + 1, m.paren)
      && NoMarkIn(s, Char('('), m.paren + 1, m.end)
      && NoMarkIn(s, Char(')'), m.end + 1, |s|)
  {
    match LastMark(s, Char(')'), |s|)
    case None => None
    case Some(c) =>
      match LastMark(s, Char('('), c)
      case None => None
      case Some(b) =>
        match LastMark(s, Char('/'), b)
        case None => None
        case Some(a) =>
          match LastMark(s, Char(']'), a)
          case None => None
          case Some(j) =>
            match FirstMark(s, Char('['), 0, j)
            case None => None
            case Some(i) => Some(MemberMatch(i, j, a, b, c))
  }

  // ---------------------------------------------------------------------
  // Object files: `\[(.*)\].*\/(.*)`  (a plain path)

  /** `[` at open, `]` at close, `/` at slash. */
  datatype PathMatch = PathMatch(open: nat, close: nat, slash: nat)

  predicate PathShape(s: string, i: int, j: int, a: int) {
    i < j < a && MarkAt(s, i, Char('[')) && MarkAt(s, j, Char(']')) && MarkAt(s, a, Char('/'))
  }

  /**
   * Where `\[(.*)\].*\/(.*)` matches `s`: the first `[`, the last `/` of the
   * line and the last `]` before it; the second group is all that follows
   * that `/`, the final path component.
   */
  function MatchPath(s: string): (r: Option<PathMatch>)
    ensures r.Some? ==>
      var m := r.value;
      && PathShape(s, m.open, m.close, m.slash)
      && NoMarkIn(s, Char('['), 0, m.open)
      && NoMarkIn(s, Char(']'), m.close + 1, m.slash)
      && NoMarkIn(s, Char('/'), m.slash + 1, |s|)
  {
    match LastMark(s, Char('/'), |s|)
    case None => None
    case Some(a) =>
      match LastMark(s, Char(']'), a)
      case None => None
      case Some(j) =>
        match FirstMark(s, Char('['), 0, j)
        case None => None
        case Some(i) => Some(PathMatch(i, j, a))
  }

  // ---------------------------------------------------------------------
  // Symbols: `.*(0x.*)\s\[(.*\d)\].*`

  /** `0x` at hex, a blank and `[` at gap, a digit and `]` at digit. */
  datatype SymbolMatch = SymbolMatch(hex: nat, gap: nat, digit: nat)

  predicate SymbolShape(s: string, p: int, q: int, t: int) {
    p + 2 <= q && q + 2 <= t &&
    MarkAt(s, p, HexStart) && MarkAt(s, q, IdOpen) && MarkAt(s, t, IdClose)
  }

  /**
   * Where `.*(0x.*)\s\[(.*\d)\].*` matches `s`: the leading greedy `.*`
   * makes the size group start at the last `0x` that still leaves room for
   * the rest, the size group runs to the last blank-and-`[` before the last
   * digit-and-`]`, and the id group ends with that digit.
   */
  function MatchSymbol(s: string): (r: Option<SymbolMatch>)
    ensures r.Some? ==>
      var m := r.value;
      && SymbolShape(s, m.hex, m.gap, m.digit)
      && NoMarkIn(s, IdClose, m.digit + 1, |s|)
      && NoMarkIn(s, IdOpen, m.gap + 1, m.digit - 1)
      && NoMarkIn(s, HexStart, m.hex + 1, m.gap - 1)
  {
    match LastMark(s, IdClose, |s|)
    case None => None
    case Some(t) =>
      match LastMark(s, IdOpen, t - 1)
      case None => None
      case Some(q) =>
        match LastMark(s, HexStart, q - 1)
        case None => None
        case Some(p) => Some(SymbolMatch(p, q, t))
  }

  // ---------------------------------------------------------------------
  // What a line contributes

  /** An object-file declaration: the id, its library bucket and the object name. */
  datatype Declaration = Declaration(id: int, library: string, objectName: string)

  /** The bucket of an object given by a plain path: `System` for a `.tbd` stub, else `Main`. */
  function PlainLibrary(last: string): (lib: string)
    ensures lib == "System" <==> EndsWith(last, ".tbd")
    ensures lib == "System" || lib == "Main"
  {
    if EndsWith(last, ".tbd") then "System" else "Main"
  }

  /**
   * What `parse_object_files` reads from a line: the archive-member grammar
   * first, then the plain-path grammar; None when neither matches.
   */
  function ObjectLine(s: string): (r: Option<Declaration>)
    ensures r.Some? <==> MatchPath(s).Some?
  {
    match MatchArchiveMember(s)
    case Some(m) =>
      MemberIsPath(s, m);
      Some(Declaration(ToI(s[m.open + 1..m.close], Decimal), s[m.slash + 1..m.paren], s[m.paren + 1..m.end]))
    case None =>
      match MatchPath(s)
      case Some(p) =>
        var last := s[p.slash + 1..];
        Some(Declaration(ToI(s[p.open + 1..p.close], Decimal), PlainLibrary(last), last))
      case None => None
  }

  /** `text.to_i(16)` for a size field, which starts with `0x` and so is never negative. */
  function HexSize(text: string): (n: nat)
    requires |text| > 0 && text[0] == '0'
    ensures n == ToI(text, Hex)
  {
    ToIUnsigned(text, Hex);
    ToI(text, Hex)
  }

  /** A symbol's size attributed to an object id. */
  datatype Attribution = Attribution(id: int, size: nat)

  /** What `parse_symbols` reads from a line: `$1.to_i(16)` as the size and `$2.to_i` as the id. */
  function SymbolLine(s: string): (r: Option<Attribution>)
    ensures r.Some? <==> MatchSymbol(s).Some?
  {
    match MatchSymbol(s)
    case None => None
    case Some(m) =>
      var size := HexSize(s[m.hex..m.gap]);
      Some(Attribution(ToI(s[m.gap + 2..m.digit + 1], Decimal), size))
  }

  // ---------------------------------------------------------------------
  // Each matcher finds a match exactly when the regex's shape occurs

  /** A line that matches the archive-member grammar also matches the plain-path one. */
  lemma MemberIsPath(s: string, m: MemberMatch)
    requires MatchArchiveMember(s) == Some(m)
    ensures MatchPath(s).Some?
  {
    assert PathShape(s, m.open, m.close, m.slash);
    PathMatchComplete(s);
  }

  /** `\[(.*)\].*\/(.*)\((.*)\)` matches exactly when `[`, `]`, `/`, `(`, `)` occur in this order. */
  lemma MemberMatchComplete(s: string)
    ensures MatchArchiveMember(s).Some? <==> exists i, j, a, b, c :: MemberShape(s, i, j, a, b, c)
  {
    var r := MatchArchiveMember(s);
    if r.Some? {
      var m := r.value;
      assert MemberShape(s, m.open, m.close, m.slash, m.paren, m.end);
    }
  }

  /** `\[(.*)\].*\/(.*)` matches exactly when `[`, `]`, `/` occur in this order. */
  lemma PathMatchComplete(s: string)
    ensures MatchPath(s).Some? <==> exists i, j, a :: PathShape(s, i, j, a)
  {
    var r := MatchPath(s);
    if r.Some? {
      var m := r.value;
      assert PathShape(s, m.open, m.close, m.slash);
    }
  }

  /** The symbol grammar matches exactly when `0x`, blank-and-`[`, digit-and-`]` occur in this order. */
  lemma SymbolMatchComplete(s: string)
    ensures MatchSymbol(s).Some? <==> exists p, q, t :: SymbolShape(s, p, q, t)
  {
    var r := MatchSymbol(s);
    if r.Some? {
      var m := r.value;
      assert SymbolShape(s, m.hex, m.gap, m.digit);
    }
  }

  /** An object-file line without `/` declares nothing. */
  lemma NoSlashNoDeclaration(s: string)
    requires '/' !in s
    ensures ObjectLine(s) == None
  {
  }

  // ---------------------------------------------------------------------
  // The greedy conditions determine the match

  /** Any positions with the archive-member shape and the greedy conditions are the ones found. */
  lemma MemberMatchUnique(s: string, i: nat, j: nat, a: nat, b: nat, c: nat)
    requires MemberShape(s, i, j, a, b, c)
    requires NoMarkIn(s, Char('['), 0, i) && NoMarkIn(s, Char(']'), j + 1, a)
    requires NoMarkIn(s, Char('/'), a + 1, b) && NoMarkIn(s, Char('('), b + 1, c)
    requires NoMarkIn(s, Char(')'), c + 1, |s|)
    ensures MatchArchiveMember(s) == Some(MemberMatch(i, j, a, b, c))
  {
    var m := MatchArchiveMember(s).value;
    assert m.end == c;
    assert m.paren == b;
    assert m.slash == a;
    assert m.close == j;
  }

  /** Any positions with the plain-path shape and the greedy conditions are the ones found. */
  lemma PathMatchUnique(s: string, i: nat, j: nat, a: nat)
    requires PathShape(s, i, j, a)
    requires NoMarkIn(s, Char('['), 0, i) && NoMarkIn(s, Char(']'), j + 1, a)
    requires NoMarkIn(s, Char('/'), a + 1, |s|)
    ensures MatchPath(s) == Some(PathMatch(i, j, a))
  {
    var m := MatchPath(s).value;
    assert m.slash == a;
    assert m.close == j;
  }

  /** Any positions with the symbol shape and the greedy conditions are the ones found. */
  lemma SymbolMatchUnique(s: string, p: nat, q: nat, t: nat)
    requires SymbolShape(s, p, q, t)
    requires NoMarkIn(s, IdClose, t + 1, |s|) && NoMarkIn(s, IdOpen, q + 1, t - 1)
    requires NoMarkIn(s, HexStart, p + 1, q - 1)
    ensures MatchSymbol(s) == Some(SymbolMatch(p, q, t))
  {
    var m := MatchSymbol(s).value;
    assert m.digit == t;
    assert m.gap == q;
  }

  // ---------------------------------------------------------------------
  // What a match yields, group by group

  /** An archive-member match yields the id, the archive and the member between its marks. */
  lemma ObjectLineOfMember(s: string, i: nat, j: nat, a: nat, b: nat, c: nat)
    requires MatchArchiveMember(s) == Some(MemberMatch(i, j, a, b, c))
    ensures i < j < a < b < c < |s|
    ensures ObjectLine(s) == Some(Declaration(ToI(s[i + 1..j], Decimal), s[a + 1..b], s[b + 1..c]))
  {
    var d := ObjectLine(s).value;
    assert d.id == ToI(s[i + 1..j], Decimal);
    assert d.library == s[a + 1..b];
    assert d.objectName == s[b + 1..c];
  }

  /** A line without `)` is never an archive member. */
  lemma NoParenNoMember(s: string)
    requires NoMarkIn(s, Char(')'), 0, |s|)
    ensures MatchArchiveMember(s) == None
  {
  }

  /**
   * When only the plain-path grammar matches, the object is the last path
   * component and its bucket is decided by the `.tbd` suffix.
   */
  lemma ObjectLineOfPath(s: string, i: nat, j: nat, a: nat)
    requires MatchArchiveMember(s) == None
    requires MatchPath(s) == Some(PathMatch(i, j, a))
    ensures i < j < a < |s|
    ensures ObjectLine(s) == Some(Declaration(ToI(s[i + 1..j], Decimal), PlainLibrary(s[a + 1..]), s[a + 1..]))
  {
    var d := ObjectLine(s).value;
    assert d.id == ToI(s[i + 1..j], Decimal);
    assert d.library == PlainLibrary(s[a + 1..]);
    assert d.objectName == s[a + 1..];
  }

  /** A symbol match yields the size between `0x` and the blank, and the id inside the brackets. */
  lemma SymbolLineOf(s: string, p: nat, q: nat, t: nat)
    requires MatchSymbol(s) == Some(SymbolMatch(p, q, t))
    ensures p + 2 <= q && q + 2 <= t < |s| && s[p] == '0'
    ensures SymbolLine(s) == Some(Attribution(ToI(s[q + 2..t + 1], Decimal), HexSize(s[p..q])))
  {
    var r := SymbolLine(s).value;
    assert r.id == ToI(s[q + 2..t + 1], Decimal);
    assert r.size == HexSize(s[p..q]);
  }
}
