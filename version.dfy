/**
 * The library version word (src/lib.rs): its three fields and the call that reads it.
 */
module Versions {
  import opened Wrappers
  import opened D3xxErrors
  import opened NativeDriver
  import opened FfiUtil

  /**
   * `Version`: the 32-bit word the driver reports. Shifts of this unsigned word are divisions
   * by powers of two, and a truncating cast keeps the remainder modulo the narrower width.
   */
  datatype Version = Version(word: u32)

  /** `major`: bits 16 to 23. */
  function Major(v: Version): (b: u8) { (v.word / 0x1_0000) % 0x100 }

  /** `minor`: bits 8 to 15. */
  function Minor(v: Version): (b: u8) { (v.word / 0x100) % 0x100 }

  /** `build`: the low 16 bits. */
  function Build(v: Version): (b: u16) { v.word % 0x1_0000 }

  /**
   * The build number's high byte is the minor number again, and the three accessors together
   * expose exactly the low 24 bits of the word.
   */
  lemma VersionFields(v: Version)
    ensures Build(v) / 0x100 == Minor(v)
    ensures Major(v) * 0x1_0000 + Build(v) == v.word % 0x100_0000
  {
    var w := v.word;
    var q := w / 0x1_0000;
    assert w == q * 0x1_0000 + Build(v);
    assert q == (q / 0x100) * 0x100 + Major(v);
    assert w == (q / 0x100) * 0x100_0000 + (Major(v) * 0x1_0000 + Build(v));
    assert Major(v) * 0x1_0000 + Build(v) < 0x100_0000;
    assert (w / 0x100) == q * 0x100 + Build(v) / 0x100;
  }

  /** Two words that differ only in bits 24 to 31 have the same major, minor and build. */
  lemma TopByteIgnored(v: Version, w: Version)
    ensures Major(v) == Major(w) && Minor(v) == Minor(w) && Build(v) == Build(w)
        <==> v.word % 0x100_0000 == w.word % 0x100_0000
  {
    VersionFields(v);
    VersionFields(w);
    if v.word % 0x100_0000 == w.word % 0x100_0000 {
      assert Build(v) == v.word % 0x100_0000 % 0x1_0000;
      assert Build(w) == w.word % 0x100_0000 % 0x1_0000;
    }
  }

  /** `library_version`: the reported word on status 0, the status's error otherwise. */
  function LibraryVersion(status: Status, reported: u32): (t: Transfer<Version>)
    ensures t.call == GetLibraryVersion
    ensures t.result.Ok? <==> status == 0
    ensures t.result.Ok? ==> t.result.value.word == reported
    ensures t.result.Err? ==> t.result.error == FromStatus(status)
  {
    var res := TryD3xx(status);
    if res.Err? then Transfer(GetLibraryVersion, Err(res.error))
    else Transfer(GetLibraryVersion, Ok(Version(reported)))
  }
}
