/** The file names flite_exec builds with snprintf into fixed buffers: the
    temp base name (20 bytes), the raw temp name the wave is saved under
    (26 bytes) and the cache path (MAXLEN = 2048 bytes). */
module FliteNames {
  import opened CStrings
  import opened FliteConfig

  const TmpNameSize: nat := 20
  const RawTmpNameSize: nat := 26
  const MaxLen: nat := 2048
  const RandomModulus: nat := 99999999
  const TmpPrefix: string := "/tmp/flite_"
  /** Length of the hex string ast_md5_hash writes. */
  const DigestLength: nat := 32

  predicate IsHexDigit(c: char) {
    '0' <= c <= '9' || 'a' <= c <= 'f'
  }

  /** What ast_md5_hash produces: 32 lower-case hex characters. */
  predicate IsDigest(d: string) {
    |d| == DigestLength && forall i :: 0 <= i < |d| ==> IsHexDigit(d[i])
  }

  /** tmp_name: "/tmp/flite_%li" of random % 99999999, into 20 bytes. The
      number has at most 8 digits, so nothing is cut off. */
  function TmpName(random: int): (name: string)
    requires random >= 0
    ensures name == TmpPrefix + DecimalDigits(random % RandomModulus)
    ensures |name| < TmpNameSize
  {
    DecimalLength(random % RandomModulus, 8);
    Snprintf(TmpNameSize, TmpPrefix + DecimalDigits(random % RandomModulus))
  }

  /** The number in a temp name reads back as random % 99999999. */
  lemma TmpNameEncodesRandom(random: int)
    requires random >= 0
    ensures TmpName(random)[..|TmpPrefix|] == TmpPrefix
    ensures AllDigits(TmpName(random)[|TmpPrefix|..])
    ensures ParseDecimal(TmpName(random)[|TmpPrefix|..]) == random % RandomModulus
  {
    var name := TmpName(random);
    assert name[|TmpPrefix|..] == DecimalDigits(random % RandomModulus);
    ParseDecimalDigits(random % RandomModulus);
  }

  /** Two random values give the same temp name only when they agree
      modulo 99999999. */
  lemma TmpNameCollision(r1: int, r2: int)
    requires r1 >= 0 && r2 >= 0
    ensures TmpName(r1) == TmpName(r2) <==> r1 % RandomModulus == r2 % RandomModulus
  {
    if TmpName(r1) == TmpName(r2) {
      assert TmpName(r1)[|TmpPrefix|..] == DecimalDigits(r1 % RandomModulus);
      assert TmpName(r2)[|TmpPrefix|..] == DecimalDigits(r2 % RandomModulus);
      DecimalDigitsInjective(r1 % RandomModulus, r2 % RandomModulus);
    }
  }

  /** raw_tmp_name: tmp_name with ".sln" at 8000 Hz or ".sln16" at 16000 Hz,
      into 26 bytes; at any other rate neither snprintf runs and the buffer
      is left unassigned (None). */
  function RawTmpName(tmpName: string, rate: int): (raw: Option<string>)
    requires |tmpName| < TmpNameSize
    ensures raw.Some? <==> SupportedRate(rate)
    ensures rate == 8000 ==> raw == Some(tmpName + ".sln")
    ensures rate == 16000 ==> raw == Some(tmpName + ".sln16")
    ensures raw.Some? ==> |raw.value| < RawTmpNameSize && raw.value[..|tmpName|] == tmpName
  {
    if rate == 8000 then Some(Snprintf(RawTmpNameSize, tmpName + ".sln"))
    else if rate == 16000 then Some(Snprintf(RawTmpNameSize, tmpName + ".sln16"))
    else None
  }

  /** The guard in front of the cache mechanism. */
  predicate CacheGuard(cachedir: string) {
    |cachedir| + DigestLength + 6 <= MaxLen
  }

  /** cachefile: "cachedir/digest", built only when the guard passes. */
  function CachePath(cachedir: string, digest: string): (path: Option<string>)
    requires IsDigest(digest)
    ensures path.Some? <==> CacheGuard(cachedir)
    ensures path.Some? ==> path.value == cachedir + "/" + digest
    ensures path.Some? ==> |path.value| < MaxLen
  {
    if |cachedir| + |digest| + 6 <= MaxLen then
      Some(Snprintf(MaxLen, cachedir + "/" + digest))
    else None
  }

  /** Different texts hashed differently land on different cache files of
      the same directory. */
  lemma CachePathSeparatesDigests(cachedir: string, d1: string, d2: string)
    requires IsDigest(d1) && IsDigest(d2) && CacheGuard(cachedir)
    ensures CachePath(cachedir, d1) == CachePath(cachedir, d2) <==> d1 == d2
  {
    if CachePath(cachedir, d1) == CachePath(cachedir, d2) {
      var p1 := CachePath(cachedir, d1).value;
      assert p1[|cachedir| + 1..] == d1;
      assert CachePath(cachedir, d2).value[|cachedir| + 1..] == d2;
    }
  }
}
