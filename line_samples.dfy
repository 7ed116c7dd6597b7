/**
 * The sample lines quoted beside the parser's regular expressions, read by
 * the line grammar. Each long literal is written as a few concatenated
 * pieces; each sample is split into the match positions, the text of each
 * group and the number conversions, proved one at a time.
 */
module LineSamples {
  import opened Wrappers
  import opened RubyText
  import opened RubyInt
  import opened LineGrammar

  // ---------------------------------------------------------------------
  // An archive member: `[  6] .../libReactiveCocoa.a(MKAnnotationView+RACSignalSupport.o)`

  predicate IsMemberSample(line: string) {
    line == "[  6] SomePath/Release-iphoneos/" + "ReactiveCocoa/libReactiveCocoa.a(" + "MKAnnotationView+RACSignalSupport.o)"
  }

  lemma MemberSampleMatch(line: string)
    requires IsMemberSample(line)
    ensures MatchArchiveMember(line) == Some(MemberMatch(0, 4, 45, 64, 100))
  {
    assert MemberShape(line, 0, 4, 45, 64, 100);
    assert NoMarkIn(line, Char(')'), 101, |line|);
    assert NoMarkIn(line, Char('('), 65, 100);
    assert NoMarkIn(line, Char('/'), 46, 64);
    assert NoMarkIn(line, Char(']'), 5, 45);
    MemberMatchUnique(line, 0, 4, 45, 64, 100);
  }

  lemma MemberSampleId(line: string)
    requires IsMemberSample(line)
    ensures line[1..4] == "  6"
  {
    assert line[1] == ' ' && line[2] == ' ' && line[3] == '6';
    assert line[1..4] == [line[1], line[2], line[3]];
    assert "  6" == [' ', ' ', '6'];
  }

  lemma MemberSampleNames(line: string)
    requires IsMemberSample(line)
    ensures line[46..64] == "libReactiveCocoa.a"
    ensures line[65..100] == "MKAnnotationView+RACSignalSupport.o"
  {
    assert line[46..64] == "libReactiveCocoa.a";
  }

  /** The id `[  6]` reads as 6. */
  lemma IdSix()
    ensures ToI("  6", Decimal) == 6
  {
    assert "  6" == "  " + Numeral(6, Decimal) + "";
    DecimalRoundTrip("  ", 6, "");
  }

  /** An object inside a static library is filed under the archive's name. */
  lemma ArchiveMemberSample(line: string)
    requires IsMemberSample(line)
    ensures ObjectLine(line) == Some(Declaration(6, "libReactiveCocoa.a", "MKAnnotationView+RACSignalSupport.o"))
  {
    MemberSampleMatch(line);
    ObjectLineOfMember(line, 0, 4, 45, 64, 100);
    MemberSampleId(line);
    MemberSampleNames(line);
    IdSix();
  }

  // ---------------------------------------------------------------------
  // A system stub: `[100] /Applications/.../Frameworks//UIKit.framework/UIKit.tbd`

  /** The stub sample after its `[100]`, in five stretches. */
  const StubPath1 := " /Applications/Xcode.app/Co"
  const StubPath2 := "ntents/Developer/Platforms/iPhon"
  const StubPath3 := "eOS.platform/Developer/SDKs/iPho"
  const StubPath4 := "neOS9.3.sdk/System/Library/Frame"
  const StubPath5 := "works//UIKit.framework/UIKit.tbd"
  const StubPath := StubPath1 + StubPath2 + StubPath3 + StubPath4 + StubPath5

  predicate IsStubSample(line: string) {
    line == "[100]" + StubPath
  }

  /** No character of `s` is `)`, `]` or `#`. */
  predicate Plain(s: string) {
    forall k :: 0 <= k < |s| ==> s[k] != ')' && s[k] != ']' && s[k] != '#'
  }

  lemma PlainConcat(a: string, b: string)
    requires Plain(a) && Plain(b)
    ensures Plain(a + b)
  {
    forall k | 0 <= k < |a + b| ensures (a + b)[k] != ')' && (a + b)[k] != ']' && (a + b)[k] != '#' {
      if k < |a| {
        assert (a + b)[k] == a[k];
      } else {
        assert (a + b)[k] == b[k - |a|];
      }
    }
  }

  lemma StubPath1Plain() ensures Plain(StubPath1) {}
  lemma StubPath2Plain() ensures Plain(StubPath2) {}
  lemma StubPath3Plain() ensures Plain(StubPath3) {}
  lemma StubPath4Plain() ensures Plain(StubPath4) {}
  lemma StubPath5Plain() ensures Plain(StubPath5) {}

  lemma StubPathPlain()
    ensures Plain(StubPath)
  {
    StubPath1Plain();
    StubPath2Plain();
    StubPath3Plain();
    StubPath4Plain();
    StubPath5Plain();
    PlainConcat(StubPath1, StubPath2);
    PlainConcat(StubPath1 + StubPath2, StubPath3);
    PlainConcat(StubPath1 + StubPath2 + StubPath3, StubPath4);
    PlainConcat(StubPath1 + StubPath2 + StubPath3 + StubPath4, StubPath5);
  }

  /** After its `[100]`, the stub sample holds no `)`, no `]` and no `#`. */
  lemma StubSampleFree(line: string)
    requires IsStubSample(line)
    ensures NoMarkIn(line, Char(')'), 5, |line|) && NoMarkIn(line, Char(']'), 5, |line|)
    ensures NoMarkIn(line, Char('#'), 5, |line|)
  {
    StubPathPlain();
    StubSampleTail(line);
    forall k | 5 <= k < |line| ensures line[k] == StubPath[k - 5] {
      assert line[5..][k - 5] == line[k];
    }
  }

  lemma StubSampleTail(line: string)
    requires IsStubSample(line)
    ensures |line| == 160 && line[5..] == StubPath
  {
  }

  lemma StubSampleNoParen(line: string)
    requires IsStubSample(line)
    ensures NoMarkIn(line, Char(')'), 0, |line|)
  {
    StubSampleFree(line);
    assert NoMarkIn(line, Char(')'), 0, 5);
  }

  lemma StubSampleMarks(line: string)
    requires IsStubSample(line)
    ensures PathShape(line, 0, 4, 150)
    ensures NoMarkIn(line, Char(']'), 5, 150)
    ensures NoMarkIn(line, Char('/'), 151, |line|)
  {
    StubSampleTail(line);
    StubSampleFree(line);
  }

  lemma StubSampleMatch(line: string)
    requires IsStubSample(line)
    ensures MatchArchiveMember(line) == None
    ensures MatchPath(line) == Some(PathMatch(0, 4, 150))
  {
    StubSampleNoParen(line);
    NoParenNoMember(line);
    StubSampleMarks(line);
    PathMatchUnique(line, 0, 4, 150);
  }

  lemma StubSampleGroups(line: string)
    requires IsStubSample(line)
    ensures line[1..4] == "100" && line[151..] == "UIKit.tbd"
  {
    StubSampleTail(line);
    assert line[151..] == StubPath[146..];
    assert line[1] == '1' && line[2] == '0' && line[3] == '0';
    assert line[1..4] == [line[1], line[2], line[3]];
    assert "100" == ['1', '0', '0'];
  }

  /** The id `[100]` reads as 100. */
  lemma IdHundred()
    ensures ToI("100", Decimal) == 100
  {
    assert "100" == "" + Numeral(100, Decimal) + "";
    DecimalRoundTrip("", 100, "");
  }

  lemma StubLibrary()
    ensures PlainLibrary("UIKit.tbd") == "System"
  {
    assert EndsWith("UIKit.tbd", ".tbd");
  }

  /** A `.tbd` stub is filed under `System`. */
  lemma SystemStubSample(line: string)
    requires IsStubSample(line)
    ensures ObjectLine(line) == Some(Declaration(100, "System", "UIKit.tbd"))
  {
    StubSampleMatch(line);
    ObjectLineOfPath(line, 0, 4, 150);
    StubSampleGroups(line);
    IdHundred();
    StubLibrary();
  }

  // ---------------------------------------------------------------------
  // An object of the app: `[  3] /SomePath/.../arm64/AppDelegate.o`

  predicate IsObjectSample(line: string) {
    line == "[  3] /SomePath/Release-iphoneos" + "/CrashDemo.build/Objects-normal/" + "arm64/" + "AppDelegate.o"
  }

  lemma ObjectSampleNoParen(line: string)
    requires IsObjectSample(line)
    ensures NoMarkIn(line, Char(')'), 0, |line|)
  {
    assert NoMarkIn(line, Char(')'), 0, 32);
    assert NoMarkIn(line, Char(')'), 32, 64);
    assert NoMarkIn(line, Char(')'), 64, |line|);
  }

  lemma ObjectSampleMarks(line: string)
    requires IsObjectSample(line)
    ensures PathShape(line, 0, 4, 69)
    ensures NoMarkIn(line, Char(']'), 5, 69)
    ensures NoMarkIn(line, Char('/'), 70, |line|)
  {
    assert NoMarkIn(line, Char(']'), 5, 32);
    assert NoMarkIn(line, Char(']'), 32, 69);
  }

  lemma ObjectSampleMatch(line: string)
    requires IsObjectSample(line)
    ensures MatchArchiveMember(line) == None
    ensures MatchPath(line) == Some(PathMatch(0, 4, 69))
  {
    ObjectSampleNoParen(line);
    NoParenNoMember(line);
    ObjectSampleMarks(line);
    PathMatchUnique(line, 0, 4, 69);
  }

  lemma ObjectSampleGroups(line: string)
    requires IsObjectSample(line)
    ensures line[1..4] == "  3" && line[70..] == "AppDelegate.o"
  {
    var head := "[  3] /SomePath/Release-iphoneos" + "/CrashDemo.build/Objects-normal/" + "arm64/";
    assert |head| == 70;
    assert line == head + "AppDelegate.o";
    assert line[70..] == "AppDelegate.o";
    assert line[1] == ' ' && line[2] == ' ' && line[3] == '3';
    assert line[1..4] == [line[1], line[2], line[3]];
    assert "  3" == [' ', ' ', '3'];
  }

  /** The id `[  3]` reads as 3. */
  lemma IdThree()
    ensures ToI("  3", Decimal) == 3
  {
    assert "  3" == "  " + Numeral(3, Decimal) + "";
    DecimalRoundTrip("  ", 3, "");
  }

  lemma ObjectLibrary()
    ensures PlainLibrary("AppDelegate.o") == "Main"
  {
    assert !EndsWith("AppDelegate.o", ".tbd");
  }

  /** Any other object is filed under `Main`. */
  lemma MainObjectSample(line: string)
    requires IsObjectSample(line)
    ensures ObjectLine(line) == Some(Declaration(3, "Main", "AppDelegate.o"))
  {
    ObjectSampleMatch(line);
    ObjectLineOfPath(line, 0, 4, 69);
    ObjectSampleGroups(line);
    IdThree();
    ObjectLibrary();
  }

  // ---------------------------------------------------------------------
  // A symbol: `0x1000055C8<TAB>0x0000003C<TAB>[  4] -[FirstViewController viewWillAppear:]`

  predicate IsSymbolSample(line: string) {
    line == "0x1000055C8\t" + "0x0000003C" + "\t[  4] -[F" + "irstViewController viewWillAppea" + "r:]"
  }

  lemma SymbolSampleMatch(line: string)
    requires IsSymbolSample(line)
    ensures MatchSymbol(line) == Some(SymbolMatch(12, 22, 26))
  {
    assert SymbolShape(line, 12, 22, 26);
    assert NoMarkIn(line, IdClose, 27, |line|);
    assert NoMarkIn(line, IdOpen, 23, 25);
    assert NoMarkIn(line, HexStart, 13, 21);
    SymbolMatchUnique(line, 12, 22, 26);
  }

  lemma SymbolSampleGroups(line: string)
    requires IsSymbolSample(line)
    ensures line[24..27] == "  4" && line[12..22] == "0x0000003C"
  {
    assert line[24] == ' ' && line[25] == ' ' && line[26] == '4';
    assert line[24..27] == [line[24], line[25], line[26]];
    assert "  4" == [' ', ' ', '4'];
    SymbolSampleSize(line);
  }

  lemma SymbolSampleSize(line: string)
    requires IsSymbolSample(line)
    ensures line[12..22] == "0x0000003C"
  {
    var head := "0x1000055C8\t" + "0x0000003C";
    assert line[..22] == head;
    assert head[12..] == "0x0000003C";
  }

  /** The id `[  4]` reads as 4. */
  lemma IdFour()
    ensures ToI("  4", Decimal) == 4
  {
    assert "  4" == "  " + Numeral(4, Decimal) + "";
    DecimalRoundTrip("  ", 4, "");
  }

  /** The size `0x0000003C` reads as 60. */
  lemma SizeSixty()
    ensures HexSize("0x0000003C") == 60
  {
    assert Numeral(60, Hex) == "3C";
    assert "0x0000003C" == "0x" + "000000" + Numeral(60, Hex) + "";
    HexRoundTrip("000000", 60, "");
  }

  /** The symbol's 0x3C bytes are attributed to object 4. */
  lemma SymbolSample(line: string)
    requires IsSymbolSample(line)
    ensures SymbolLine(line) == Some(Attribution(4, 60))
  {
    SymbolSampleMatch(line);
    SymbolLineOf(line, 12, 22, 26);
    SymbolSampleGroups(line);
    IdFour();
    SizeSixty();
  }

  // ---------------------------------------------------------------------
  // A dead-stripped symbol: `<<dead>> <TAB>0x00000018<TAB>[  2] literal string: v`

  predicate IsDeadSample(line: string) {
    line == "<<dead>> \t0x00000018\t[  2] lit" + "eral string: v"
  }

  lemma DeadSampleMatch(line: string)
    requires IsDeadSample(line)
    ensures MatchSymbol(line) == Some(SymbolMatch(10, 20, 24))
  {
    assert SymbolShape(line, 10, 20, 24);
    assert NoMarkIn(line, IdClose, 25, |line|);
    assert NoMarkIn(line, IdOpen, 21, 23);
    assert NoMarkIn(line, HexStart, 11, 19);
    SymbolMatchUnique(line, 10, 20, 24);
  }

  lemma DeadSampleGroups(line: string)
    requires IsDeadSample(line)
    ensures line[22..25] == "  2" && line[10..20] == "0x00000018"
  {
    assert line[22..25] == [line[22], line[23], line[24]];
    DeadSampleSize(line);
  }

  lemma DeadSampleSize(line: string)
    requires IsDeadSample(line)
    ensures line[10..20] == "0x00000018"
  {
    assert line[10..20] == [line[10], line[11], line[12], line[13], line[14], line[15], line[16], line[17], line[18], line[19]];
  }

  /** The id `[  2]` reads as 2. */
  lemma IdTwo()
    ensures ToI("  2", Decimal) == 2
  {
    assert "  2" == "  " + Numeral(2, Decimal) + "";
    DecimalRoundTrip("  ", 2, "");
  }

  /** The size `0x00000018` reads as 24. */
  lemma SizeTwentyFour()
    ensures HexSize("0x00000018") == 24
  {
    assert Numeral(24, Hex) == "18";
    assert "0x00000018" == "0x" + "000000" + Numeral(24, Hex) + "";
    HexRoundTrip("000000", 24, "");
  }

  /**
   * A dead-stripped symbol line matches the symbol grammar like any other:
   * its 0x18 bytes are attributed to object 2.
   */
  lemma DeadSample(line: string)
    requires IsDeadSample(line)
    ensures SymbolLine(line) == Some(Attribution(2, 24))
  {
    DeadSampleMatch(line);
    SymbolLineOf(line, 10, 20, 24);
    DeadSampleGroups(line);
    IdTwo();
    SizeTwentyFour();
  }

  // ---------------------------------------------------------------------
  // None of the sample lines is a header.

  lemma MemberSampleNoHash(line: string)
    requires IsMemberSample(line)
    ensures !Contains(line, "#")
  {
    assert NoMarkIn(line, Char('#'), 0, 32);
    assert NoMarkIn(line, Char('#'), 32, 64);
    assert NoMarkIn(line, Char('#'), 64, |line|);
    WithoutChar(line, '#');
  }

  lemma StubSampleNoHash(line: string)
    requires IsStubSample(line)
    ensures !Contains(line, "#")
  {
    StubSampleFree(line);
    assert NoMarkIn(line, Char('#'), 0, 5);
    WithoutChar(line, '#');
  }

  lemma ObjectSampleNoHash(line: string)
    requires IsObjectSample(line)
    ensures !Contains(line, "#")
  {
    assert NoMarkIn(line, Char('#'), 0, 32);
    assert NoMarkIn(line, Char('#'), 32, 64);
    assert NoMarkIn(line, Char('#'), 64, |line|);
    WithoutChar(line, '#');
  }

  lemma SymbolSampleNoHash(line: string)
    requires IsSymbolSample(line)
    ensures !Contains(line, "#")
  {
    assert NoMarkIn(line, Char('#'), 0, 32);
    assert NoMarkIn(line, Char('#'), 32, |line|);
    WithoutChar(line, '#');
  }

  lemma DeadSampleNoHash(line: string)
    requires IsDeadSample(line)
    ensures !Contains(line, "#")
  {
    assert NoMarkIn(line, Char('#'), 0, 24);
    assert NoMarkIn(line, Char('#'), 24, |line|);
    WithoutChar(line, '#');
  }
}
