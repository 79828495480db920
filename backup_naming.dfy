/**
 * Backup numbering of the backup operator (`VIEW3D_OT_rowdy_backup.execute`).
 *
 * File names are strings without path separators (directory entries and the
 * basename of the open blend file).  The regular expression
 * `'^' + base + postfix + '(\d+)'` is modelled as the literal prefix
 * `base + postfix` followed by a maximal run of ASCII digits.
 */
module BackupNaming {
  import opened Wrappers

  // ----- os.path.splitext -----

  /** Index of the last occurrence of `c` in `s`, or -1 if there is none. */
  function LastIndexOf(s: string, c: char): (i: int)
    ensures -1 <= i < |s|
    ensures i >= 0 ==> s[i] == c
    ensures forall j :: i < j < |s| ==> s[j] != c
  {
    if s == [] then -1
    else if s[|s| - 1] == c then |s| - 1
    else LastIndexOf(s[..|s| - 1], c)
  }

  predicate AllDots(s: string)
  {
    forall i :: 0 <= i < |s| ==> s[i] == '.'
  }

  /**
   * `os.path.splitext(name)[0]`: cut at the last dot, unless everything before
   * that dot is dots (a leading-dot name such as `.blend` has no extension).
   */
  function StripExt(name: string): (stem: string)
    ensures stem <= name
  {
    var dot := LastIndexOf(name, '.');
    if dot < 0 || AllDots(name[..dot]) then name else name[..dot]
  }

  /** A name with no dot has no extension to strip. */
  lemma StripExtNoDot(name: string)
    requires forall i :: 0 <= i < |name| ==> name[i] != '.'
    ensures StripExt(name) == name
  {
  }

  /** Stripping `stem + "." + ext` gives back `stem` when `ext` has no dot and `stem` is not all dots. */
  lemma StripExtDropsExtension(stem: string, ext: string)
    requires forall i :: 0 <= i < |ext| ==> ext[i] != '.'
    requires !AllDots(stem)
    ensures StripExt(stem + "." + ext) == stem
  {
    var name := stem + "." + ext;
    var dot := LastIndexOf(name, '.');
    assert name[|stem|] == '.';
    assert forall j :: |stem| < j < |name| ==> name[j] == ext[j - |stem| - 1];
    assert dot == |stem|;
    assert name[..dot] == stem;
  }

  // ----- decimal digits -----

  predicate IsDigit(c: char)
  {
    '0' <= c <= '9'
  }

  predicate AllDigits(s: string)
  {
    forall i :: 0 <= i < |s| ==> IsDigit(s[i])
  }

  /** The maximal leading run of digits of `s`: what `(\d+)` captures greedily. */
  function DigitRun(s: string): (run: string)
    ensures run <= s && AllDigits(run)
    ensures |run| < |s| ==> !IsDigit(s[|run|])
  {
    if s == [] || !IsDigit(s[0]) then [] else [s[0]] + DigitRun(s[1..])
  }

  /** `int(digits)` for a string of ASCII digits (leading zeros allowed). */
  function DecimalValue(digits: string): nat
    requires AllDigits(digits)
  {
    if digits == [] then 0
    else DecimalValue(digits[..|digits| - 1]) * 10 + (digits[|digits| - 1] as int - '0' as int)
  }

  /** `str(n)` for a natural number: its decimal rendering without leading zeros. */
  function DecimalString(n: nat): (s: string)
    ensures |s| >= 1 && AllDigits(s)
  {
    var last := [('0' as int + n % 10) as char];
    if n < 10 then last else DecimalString(n / 10) + last
  }

  /** Parsing the rendering of `n` gives back `n`. */
  lemma {:induction false} DecimalRoundTrip(n: nat)
    ensures DecimalValue(DecimalString(n)) == n
  {
    var s := DecimalString(n);
    if n >= 10 {
      DecimalRoundTrip(n / 10);
      assert s[..|s| - 1] == DecimalString(n / 10);
    }
  }

  /** A string made only of digits is its own maximal digit run. */
  lemma {:induction false} DigitRunOfDigits(s: string)
    requires AllDigits(s)
    ensures DigitRun(s) == s
  {
    if s != [] {
      DigitRunOfDigits(s[1..]);
    }
  }

  /** Cutting a string at a non-digit does not shorten its leading digit run. */
  lemma {:induction false} DigitRunCut(s: string, m: nat)
    requires m < |s| && !IsDigit(s[m])
    ensures DigitRun(s[..m]) == DigitRun(s)
  {
    if m > 0 && IsDigit(s[0]) {
      DigitRunCut(s[1..], m - 1);
      assert s[..m][1..] == s[1..][..m - 1];
    }
  }

  // ----- matching one listed name -----

  /**
   * The version a key carries: `Some(N)` when the key starts with `prefix`
   * followed by at least one digit, N being the value of the maximal digit run
   * (`re.findall('^' + prefix + '(\d+)', key)` finds exactly one match).
   */
  function VersionIn(prefix: string, key: string): Option<nat>
  {
    if |prefix| < |key| && key[..|prefix|] == prefix && IsDigit(key[|prefix|])
    then Some(DecimalValue(DigitRun(key[|prefix|..])))
    else None
  }

  /** The version a listed name contributes once its extension is stripped in the loop. */
  function FileVersion(prefix: string, file: string): Option<nat>
  {
    VersionIn(prefix, StripExt(file))
  }

  /** The largest version present in `versions`, 0 when none is. */
  function Highest(versions: seq<Option<nat>>): nat
  {
    if versions == [] then 0
    else
      var h := Highest(versions[..|versions| - 1]);
      match versions[|versions| - 1]
      case Some(v) => if v > h then v else h
      case None => h
  }

  /** Highest bounds every present version and is one of them unless it is 0. */
  lemma {:induction false} HighestIsMax(versions: seq<Option<nat>>)
    ensures forall i :: 0 <= i < |versions| && versions[i].Some? ==> versions[i].value <= Highest(versions)
    ensures Highest(versions) == 0 || exists i :: 0 <= i < |versions| && versions[i] == Some(Highest(versions))
  {
    if versions != [] {
      var init := versions[..|versions| - 1];
      HighestIsMax(init);
      assert forall i :: 0 <= i < |init| ==> init[i] == versions[i];
      var h := Highest(versions);
      if h != 0 && h != Highest(init) {
        assert versions[|versions| - 1] == Some(h);
      }
    }
  }

  /** The version each listed name contributes, in listing order. */
  function Versions(prefix: string, files: seq<string>): (versions: seq<Option<nat>>)
    ensures |versions| == |files|
  {
    seq(|files|, i requires 0 <= i < |files| => FileVersion(prefix, files[i]))
  }

  /** Largest version among `files`, 0 when none of them matches. */
  function HighestVersion(prefix: string, files: seq<string>): nat
  {
    Highest(Versions(prefix, files))
  }

  /**
   * HighestVersion bounds every listed version and is attained by one of them
   * unless it is 0.
   */
  lemma HighestVersionIsMax(prefix: string, files: seq<string>)
    ensures forall i :: 0 <= i < |files| && FileVersion(prefix, files[i]).Some? ==>
              FileVersion(prefix, files[i]).value <= HighestVersion(prefix, files)
    ensures HighestVersion(prefix, files) == 0 ||
            exists i :: 0 <= i < |files| && FileVersion(prefix, files[i]) == Some(HighestVersion(prefix, files))
  {
    var versions := Versions(prefix, files);
    HighestIsMax(versions);
    assert forall i :: 0 <= i < |files| ==> versions[i] == FileVersion(prefix, files[i]);
  }

  /**
   * The numbering loop: 1 + the largest version found among `files`, 1 when
   * nothing matches.
   */
  method NextVersion(prefix: string, files: seq<string>) returns (version: nat)
    ensures version == HighestVersion(prefix, files) + 1
  {
    ghost var versions := Versions(prefix, files);
    var highest: nat := 0;
    for i := 0 to |files|
      invariant highest == Highest(versions[..i])
    {
      assert versions[..i + 1][..i] == versions[..i];
      var v := FileVersion(prefix, files[i]);
      assert v == versions[i];
      if v.Some? && v.value > highest {
        highest := v.value;
      }
    }
    assert versions[..|files|] == versions;
    version := highest + 1;
  }

  // ----- the backup target -----

  /** The backup file name `base + postfix + str(version) + ".blend"`. */
  function BackupName(base: string, postfix: string, version: nat): string
  {
    base + postfix + DecimalString(version) + ".blend"
  }

  /** A backup name, stripped once, carries exactly the version it was built with. */
  lemma BackupNameVersion(base: string, postfix: string, version: nat)
    ensures FileVersion(base + postfix, BackupName(base, postfix, version)) == Some(version)
  {
    var prefix := base + postfix;
    var digits := DecimalString(version);
    var stem := prefix + digits;
    assert BackupName(base, postfix, version) == stem + "." + "blend";
    assert stem[|prefix|] == digits[0];
    StripExtDropsExtension(stem, "blend");
    assert stem[..|prefix|] == prefix;
    assert stem[|prefix|..] == digits;
    DigitRunOfDigits(digits);
    DecimalRoundTrip(version);
  }

  /** What the operator asks for: the save path and the name it reports. */
  datatype BackupResult = BackupResult(target: string, reported: string)

  /** `os.path.splitext(filename)[0]` applied to every name of a listing. */
  function Stems(names: seq<string>): (stems: seq<string>)
    ensures |stems| == |names|
  {
    seq(|names|, i requires 0 <= i < |names| => StripExt(names[i]))
  }

  /** The stripped listing of the last directory walked. */
  function LastListing(walk: seq<seq<string>>): seq<string>
  {
    if walk == [] then [] else Stems(walk[|walk| - 1])
  }

  /**
   * The `os.walk` loop: `walk` is the sequence of file-name listings the walk
   * yields, the blend file's own directory first.  `files` is reassigned on
   * every step, so only the last directory walked survives.
   */
  method LastWalkedListing(walk: seq<seq<string>>) returns (files: seq<string>)
    ensures files == LastListing(walk)
  {
    files := [];
    for i := 0 to |walk|
      invariant i == 0 ==> files == []
      invariant i > 0 ==> files == Stems(walk[i - 1])
    {
      files := Stems(walk[i]);
    }
  }

  /**
   * The backup operator as written: the listing of the last directory walked,
   * each name stripped once by the walk loop and once more by the numbering
   * loop.
   */
  method BackupAsWritten(dir: string, blendName: string, postfix: string, walk: seq<seq<string>>)
    returns (result: BackupResult)
    ensures var base := StripExt(blendName);
            result.reported == BackupName(base, postfix, HighestVersion(base + postfix, LastListing(walk)) + 1)
    ensures result.target == dir + result.reported
  {
    var base := StripExt(blendName);
    var files := LastWalkedListing(walk);
    assert files == LastListing(walk);
    var version := NextVersion(base + postfix, files);
    var name := BackupName(base, postfix, version);
    result := BackupResult(dir + name, name);
  }

  /** The listing of the blend file's own directory: the first one `os.walk` yields. */
  function TopListing(walk: seq<seq<string>>): seq<string>
  {
    if walk == [] then [] else walk[0]
  }

  /**
   * The backup operator as evidently intended: number against the blend
   * file's own directory, stripping each name's extension once.  The backup
   * never takes the name of a file already in that directory.
   */
  method Backup(dir: string, blendName: string, postfix: string, walk: seq<seq<string>>)
    returns (result: BackupResult)
    ensures var base := StripExt(blendName);
            result.reported == BackupName(base, postfix, HighestVersion(base + postfix, TopListing(walk)) + 1)
    ensures result.target == dir + result.reported
    ensures result.reported !in TopListing(walk)
  {
    var base := StripExt(blendName);
    var files := TopListing(walk);
    var version := NextVersion(base + postfix, files);
    var name := BackupName(base, postfix, version);
    BackupNameVersion(base, postfix, version);
    HighestVersionIsMax(base + postfix, files);
    result := BackupResult(dir + name, name);
  }

  // ----- where the two differ -----

  /**
   * Stripping a second extension does not change the version a key carries
   * when the prefix has no dot.
   */
  lemma StripKeepsVersion(prefix: string, key: string)
    requires forall i :: 0 <= i < |prefix| ==> prefix[i] != '.'
    ensures VersionIn(prefix, StripExt(key)) == VersionIn(prefix, key)
  {
    var stem := StripExt(key);
    if stem != key {
      var dot := LastIndexOf(key, '.');
      assert stem == key[..dot] && key[dot] == '.';
      if VersionIn(prefix, key).Some? {
        assert key[..|prefix|] == prefix;
        assert forall j :: 0 <= j < |prefix| ==> key[j] != '.';
        assert dot > |prefix|;
        assert stem[..|prefix|] == prefix;
        var tail := key[|prefix|..];
        DigitRunCut(tail, dot - |prefix|);
        assert tail[..dot - |prefix|] == stem[|prefix|..];
      } else if |prefix| < |stem| && stem[..|prefix|] == prefix {
        assert key[..|prefix|] == prefix;
        assert key[|prefix|] == stem[|prefix|];
      }
    }
  }

  /** With a dot-free prefix, stripping the listing first leaves the highest version unchanged. */
  lemma HighestVersionOfStems(prefix: string, names: seq<string>)
    requires forall i :: 0 <= i < |prefix| ==> prefix[i] != '.'
    ensures HighestVersion(prefix, Stems(names)) == HighestVersion(prefix, names)
  {
    forall i | 0 <= i < |names|
      ensures Versions(prefix, Stems(names))[i] == Versions(prefix, names)[i]
    {
      StripKeepsVersion(prefix, StripExt(names[i]));
    }
    assert Versions(prefix, Stems(names)) == Versions(prefix, names);
  }

  /**
   * The operator as written agrees with the intended one exactly in the
   * common case: a single directory walked and no dot in `base + postfix`.
   */
  lemma AsWrittenAgreesWithoutDotsOrSubfolders(blendName: string, postfix: string, walk: seq<seq<string>>)
    requires |walk| == 1
    requires var prefix := StripExt(blendName) + postfix;
             forall i :: 0 <= i < |prefix| ==> prefix[i] != '.'
    ensures var base := StripExt(blendName);
            HighestVersion(base + postfix, LastListing(walk)) == HighestVersion(base + postfix, TopListing(walk))
  {
    HighestVersionOfStems(StripExt(blendName) + postfix, walk[0]);
  }

  /** A listing none of whose names carries a version has highest version 0. */
  lemma HighestVersionNoMatch(prefix: string, files: seq<string>)
    requires forall i :: 0 <= i < |files| ==> FileVersion(prefix, files[i]).None?
    ensures HighestVersion(prefix, files) == 0
  {
    HighestVersionIsMax(prefix, files);
  }

  /**
   * A blend file whose base name holds a dot never sees its own backups:
   * next to `shot.v2_b1.blend` the operator as written again picks
   * `shot.v2_b1.blend` and overwrites it.
   */
  lemma DottedBaseOverwritesBackup()
    ensures var walk := [["shot.v2.blend", "shot.v2_b1.blend"]];
            var base := StripExt("shot.v2.blend");
            var name := BackupName(base, "_b", HighestVersion(base + "_b", LastListing(walk)) + 1);
            name == "shot.v2_b1.blend" && name in walk[0]
  {
    var walk := [["shot.v2.blend", "shot.v2_b1.blend"]];
    DottedNamesStripTwice();
    assert LastListing(walk) == Stems(walk[0]);
    assert "shot.v2" + "_b" == "shot.v2_b";
    HighestVersionNoMatch("shot.v2_b", ["shot.v2", "shot.v2_b1"]);
    assert DecimalString(1) == "1";
    assert BackupName("shot.v2", "_b", 1) == "shot.v2_b1.blend";
  }

  /** Stripped once, the dotted names keep their inner dot; stripped twice they collapse to `shot`. */
  lemma DottedNamesStripTwice()
    ensures StripExt("shot.v2.blend") == "shot.v2"
    ensures Stems(["shot.v2.blend", "shot.v2_b1.blend"]) == ["shot.v2", "shot.v2_b1"]
    ensures StripExt("shot.v2") == "shot" && StripExt("shot.v2_b1") == "shot"
  {
    assert "shot.v2"[0] == 's' && "shot.v2_b1"[0] == 's' && "shot"[0] == 's';
    assert "shot.v2.blend" == "shot.v2" + "." + "blend";
    StripExtDropsExtension("shot.v2", "blend");
    assert "shot.v2_b1.blend" == "shot.v2_b1" + "." + "blend";
    StripExtDropsExtension("shot.v2_b1", "blend");
    assert "shot.v2" == "shot" + "." + "v2";
    StripExtDropsExtension("shot", "v2");
    assert "shot.v2_b1" == "shot" + "." + "v2_b1";
    StripExtDropsExtension("shot", "v2_b1");
  }

  /**
   * A subfolder hides the blend file's own directory: with `shot_b1.blend`
   * beside the file and one subfolder holding `wood.png`, the operator as
   * written picks `shot_b1.blend` again.
   */
  lemma SubfolderHidesBackups()
    ensures var walk := [["shot.blend", "shot_b1.blend"], ["wood.png"]];
            var base := StripExt("shot.blend");
            var name := BackupName(base, "_b", HighestVersion(base + "_b", LastListing(walk)) + 1);
            name == "shot_b1.blend" && name in walk[0]
  {
    var walk := [["shot.blend", "shot_b1.blend"], ["wood.png"]];
    assert "shot"[0] == 's' && "wood"[0] == 'w';
    assert "shot.blend" == "shot" + "." + "blend";
    StripExtDropsExtension("shot", "blend");
    assert "wood.png" == "wood" + "." + "png";
    StripExtDropsExtension("wood", "png");
    StripExtNoDot("wood");
    var listing := LastListing(walk);
    assert listing == ["wood"];
    assert "shot" + "_b" == "shot_b";
    HighestVersionNoMatch("shot_b", listing);
    assert HighestVersion(StripExt("shot.blend") + "_b", listing) == 0;
    assert DecimalString(1) == "1";
    assert BackupName("shot", "_b", 1) == "shot_b1.blend";
  }
}
