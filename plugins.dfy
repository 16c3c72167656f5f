/**
 * The two Amcache plugins side by side, and the values the plugins' tests expect,
 * stated of the conversions that produce them.
 */
module Plugins {
  import opened Python
  import opened Events
  import opened Registry
  import Amcache8Parser
  import Amcache10Parser

  /** The two plugins never both decode the same key: their prefixes part at the seventh character. */
  lemma OnePluginPerKey(key: RegistryKey)
    ensures Amcache8Parser.RouteOf(key) != Skip ==> Amcache10Parser.RouteOf(key) == Skip
    ensures Amcache10Parser.RouteOf(key) != Skip ==> Amcache8Parser.RouteOf(key) == Skip
  {
    if |key.path| > 6 {
      var c := key.path[6];
      if StartsWith(key.path, Amcache8Parser.FileKeyPrefix) {
        assert c == Amcache8Parser.FileKeyPrefix[6];
      }
      if StartsWith(key.path, Amcache8Parser.ProgramKeyPrefix) {
        assert c == Amcache8Parser.ProgramKeyPrefix[6];
      }
      if StartsWith(key.path, Amcache10Parser.ProgramKeyPrefix) {
        assert c == Amcache10Parser.ProgramKeyPrefix[6];
      }
    }
    if StartsWith(key.path, Amcache10Parser.FileKeyPrefix) {
      Amcache10Parser.FilePrefixExtendsProgramPrefix(key.path);
    }
  }

  /** A key outside `\Root\` (any key of a hive other than Amcache) yields nothing from either plugin. */
  lemma OutsideRootNoEvents(parseDate: string -> Option<int>, key: RegistryKey)
    requires !StartsWith(key.path, "\\Root\\")
    ensures Amcache8Parser.Extract(key) == Success([])
    ensures Amcache10Parser.Extract(parseDate, key) == Success([])
  {
    if StartsWith(key.path, Amcache10Parser.ProgramKeyPrefix) {
      StartsWithTransitive(key.path, Amcache10Parser.ProgramKeyPrefix, "\\Root\\");
    }
    Amcache10Parser.UnmatchedPathNoEvents(parseDate, key);
  }

  /** The stored hash of a test file: the four leading zeros of the value are cut off. */
  lemma StoredSha1Example()
    ensures Sha1Of(Str("0000" + "82274eef0911a948f91425f5e5b0e730517fe75e"))
            == Success("82274eef0911a948f91425f5e5b0e730517fe75e")
  {
    Sha1DropsPrefix("0000", "82274eef0911a948f91425f5e5b0e730517fe75e");
  }

  /** An integer language code or size is stored as it is; text is read in base 16 whatever its
      digits, and text that is not a base-16 numeral raises ValueError. */
  lemma HexFallbackExamples()
    ensures IntOrHex(Int(1033)) == Success(1033)
    ensures IntOrHex(Str("16")) == Success(22)
    ensures IntOrHex(Str("0x409")) == Success(1033)
    ensures IntOrHex(Str("zz")) == Failure(ValueError)
  {
    SixteenIsHex();
    PrefixedHexExample();
    ForeignCharacterRejected("zz", 0);
  }

  lemma SixteenIsHex()
    ensures ParseInt("16", 16) == Some(22)
  {
    assert NatText(1, 16) == "1";
    assert HexText(22) == NatText(1, 16) + [DigitChar(6)] == "16";
    HexTextParses(22);
  }

  lemma HexDigitsExample()
    ensures HexText(1033) == "409"
  {
    assert NatText(4, 16) == "4";
    assert NatText(64, 16) == NatText(4, 16) + [DigitChar(0)] == "40";
    assert HexText(1033) == NatText(64, 16) + [DigitChar(9)];
  }

  lemma PrefixedHexExample()
    ensures ParseInt("0x409", 16) == Some(1033)
  {
    HexDigitsExample();
    PrefixedHexTextParses(1033);
    assert "0x" + HexText(1033) == "0x409";
  }

  /** The Windows 10 program language code keeps text as it is. */
  lemma RawLanguageExample()
    ensures IntOrRaw(Str("1033")) == Success(Raw("1033"))
    ensures IntOrRaw(Int(1033)) == Success(Code(1033))
  {
  }
}
