/** internal/transport/transport.go: the string tests that decide which disk is which volume. World
    speaks of identities; this is why the tests on their spelling come to the same. */
module Identity {
  import opened Types

  const PURE_PREFIX := "naa.624a9370"

  /** transport.WWID. */
  function Wwid(serial: string): string {
    "3624a9370" + Lower(serial)
  }

  /** What Detach and findDevice look for in sysfs: the WWID without its leading 3. */
  function Needle(serial: string): string {
    Wwid(serial)[1..]
  }

  /** What the kernel shows in a FlashArray disk's wwid file. */
  function Sysfs(serial: string): string {
    PURE_PREFIX + serial + "\n"
  }

  /** strings.Contains. */
  ghost predicate Contains(s: string, part: string) {
    exists i | 0 <= i <= |s| - |part| :: At(s, part, i)
  }

  ghost predicate At(s: string, part: string, i: nat)
    requires i + |part| <= |s|
  {
    s[i..i + |part|] == part
  }

  /** transport.sysBlockMatching and sdCarries compare in lower case. */
  ghost predicate Carries(file: string, serial: string) {
    Contains(Lower(file), Lower(Needle(serial)))
  }

  predicate Hex(s: string) {
    forall i | 0 <= i < |s| :: '0' <= s[i] <= '9' || 'a' <= s[i] <= 'f' || 'A' <= s[i] <= 'F'
  }

  lemma LowerParts(serial: string)
    ensures Lower(Sysfs(serial)) == PURE_PREFIX + Lower(serial) + "\n"
    ensures Lower(Needle(serial)) == "624a9370" + Lower(serial)
    ensures Lower(PURE_PREFIX) == PURE_PREFIX
  {
  }

  /** Of two serials of one length the test tells disks apart exactly as the serials do, in any case
      of letters: no disk of another volume ever passes for this one's. */
  lemma CarriesIffSame(disk: string, serial: string)
    requires |disk| == |serial| > 0 && Hex(disk) && Hex(serial)
    ensures Carries(Sysfs(disk), serial) <==> Lower(disk) == Lower(serial)
  {
    LowerParts(disk);
    LowerParts(serial);
    var file, needle := PURE_PREFIX + Lower(disk) + "\n", "624a9370" + Lower(serial);
    if Lower(disk) == Lower(serial) {
      FoundAtFour(Lower(disk), Lower(serial));
    }
    if Contains(file, needle) {
      var i: nat :| i <= |file| - |needle| && At(file, needle, i);
      assert Lower(serial)[|serial| - 1] == LowerChar(serial[|serial| - 1]) != '\n';
      OnlyAtFour(Lower(disk), Lower(serial), i);
    }
  }

  lemma FoundAtFour(own: string, sought: string)
    requires sought <= own
    ensures Contains(PURE_PREFIX + own + "\n", "624a9370" + sought)
  {
    var file, needle := PURE_PREFIX + own + "\n", "624a9370" + sought;
    assert own[..|sought|] == sought;
    assert file[4..4 + |needle|] == needle;
    assert At(file, needle, 4);
  }

  /** The sysfs prefix has no earlier place for it, and the line's end rules out a later one. */
  lemma OnlyAtFour(own: string, sought: string, i: nat)
    requires |own| == |sought| > 0 && sought[|sought| - 1] != '\n'
    requires i + 8 + |sought| <= 13 + |own| && At(PURE_PREFIX + own + "\n", "624a9370" + sought, i)
    ensures own == sought
  {
    var file, needle := PURE_PREFIX + own + "\n", "624a9370" + sought;
    var part := file[i..i + |needle|];
    assert part[0] == file[i] && part[0] == needle[0] == '6';
    assert file[0] == 'n' && file[1] == 'a' && file[2] == 'a' && file[3] == '.';
    assert part[|needle| - 1] == file[i + |needle| - 1] && part[|needle| - 1] == needle[|needle| - 1] == sought[|sought| - 1];
    assert file[12 + |own|] == '\n';
    assert i == 4;
    assert part[8..] == own && needle[8..] == sought;
  }

  /** A serial that another begins with passes for it; the empty one passes for every FlashArray
      disk, which is why Detach refuses it. */
  lemma ShorterSerialCarries(disk: string, serial: string)
    requires Lower(serial) <= Lower(disk)
    ensures Carries(Sysfs(disk), serial)
  {
    LowerParts(disk);
    LowerParts(serial);
    FoundAtFour(Lower(disk), Lower(serial));
  }
}
