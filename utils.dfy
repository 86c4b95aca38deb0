/** Identifier and signature helpers of the API client (instagram/utils.go).
  * Randomness, the clock, MD5 (RFC 1321), HMAC-SHA256 (RFC 2104) and base64 (RFC 4648)
  * are parameters: the bytes a random source delivered, the current Unix time, and
  * uninterpreted functions standing for the digests and the encoding. */
module InstagramUtils {
  import opened Errors
  import opened Text

  const VolatileSeed := "12345"
  const FallbackUUID := "cb479ee7-a50d-49e7-8b7b-60cc1a105e22"
  const UUIDLength := 36

  // ---------------------------------------------------------------------------
  // UUID version 4 (RFC 4122)

  /** Section 4.1.1 of RFC 4122: the two most significant bits of clock_seq_hi_and_reserved
    * (byte 8) become 1 0; the other six bits are kept. Written as Go's `b &^ 0xc0 | 0x80`. */
  function StampVariant(b: bv8): (r: bv8)
    ensures r >> 6 == 2
    ensures r & 0x3f == b & 0x3f
  {
    (b & !0xc0) | 0x80
  }

  /** Section 4.1.3 of RFC 4122: the high nibble of time_hi_and_version (byte 6) becomes the
    * version number 4; the low nibble is kept. Written as Go's `b &^ 0xf0 | 0x40`. */
  function StampVersion(b: bv8): (r: bv8)
    ensures r >> 4 == 4
    ensures r & 0x0f == b & 0x0f
  {
    (b & !0xf0) | 0x40
  }

  /** The 16 random bytes after newUUID has set the version and variant bits. */
  function Stamp(u: seq<bv8>): (r: seq<bv8>)
    requires |u| == 16
    ensures |r| == 16
    ensures r[6] >> 4 == 4 && r[6] & 0x0f == u[6] & 0x0f
    ensures r[8] >> 6 == 2 && r[8] & 0x3f == u[8] & 0x3f
    ensures forall i :: 0 <= i < 16 && i != 6 && i != 8 ==> r[i] == u[i]
  {
    u[8 := StampVariant(u[8])][6 := StampVersion(u[6])]
  }

  predicate IsLowerHex(c: char) {
    '0' <= c <= '9' || 'a' <= c <= 'f'
  }

  /** The lower-case hexadecimal digit Go's %x prints for a nibble. */
  function HexDigit(n: bv8): (c: char)
    requires n < 16
    ensures IsLowerHex(c)
  {
    if n < 10 then ('0' as int + n as int) as char else ('a' as int + n as int - 10) as char
  }

  /** The value of a lower-case hex digit (0 for any other character). */
  function HexValue(c: char): (n: bv8)
    ensures n < 16
  {
    if '0' <= c <= '9' then (c as int - '0' as int) as bv8
    else if 'a' <= c <= 'f' then (c as int - 'a' as int + 10) as bv8
    else 0
  }

  lemma HexDigitRoundTrip(n: bv8)
    requires n < 16
    ensures HexValue(HexDigit(n)) == n
  {
  }

  /** fmt's %x on a byte slice: two lower-case hex digits per byte, high nibble first. */
  function Hex(bs: seq<bv8>): (s: string)
    ensures |s| == 2 * |bs|
    ensures forall i :: 0 <= i < |s| ==> IsLowerHex(s[i])
  {
    if bs == [] then [] else [HexDigit(bs[0] >> 4), HexDigit(bs[0] & 0xf)] + Hex(bs[1..])
  }

  /** The first two characters of Hex(bs) print its first byte, high nibble first. */
  lemma HexFirst(bs: seq<bv8>)
    requires |bs| > 0
    ensures Hex(bs)[0] == HexDigit(bs[0] >> 4)
  {
    assert Hex(bs) == [HexDigit(bs[0] >> 4), HexDigit(bs[0] & 0xf)] + Hex(bs[1..]);
  }

  /** Reads back the bytes from an even-length string of lower-case hex digits. */
  function Unhex(s: string): (bs: seq<bv8>)
    requires |s| % 2 == 0
    ensures |bs| == |s| / 2
  {
    if s == [] then [] else [(HexValue(s[0]) << 4) | HexValue(s[1])] + Unhex(s[2..])
  }

  lemma {:induction false} UnhexHex(bs: seq<bv8>)
    ensures Unhex(Hex(bs)) == bs
  {
    if bs != [] {
      var b := bs[0];
      HexDigitRoundTrip(b >> 4);
      HexDigitRoundTrip(b & 0xf);
      assert ((b >> 4) << 4) | (b & 0xf) == b;
      UnhexHex(bs[1..]);
      assert Hex(bs)[2..] == Hex(bs[1..]);
    }
  }

  /** fmt.Sprintf("%x-%x-%x-%x-%x", u[0:4], u[4:6], u[6:8], u[8:10], u[10:]) */
  function FormatUUID(u: seq<bv8>): (s: string)
    requires |u| == 16
  {
    Hex(u[0..4]) + "-" + Hex(u[4..6]) + "-" + Hex(u[6..8]) + "-" + Hex(u[8..10]) + "-" + Hex(u[10..])
  }

  /** The 8-4-4-4-12 layout: 36 characters, '-' at 8, 13, 18 and 23, lower-case hex elsewhere. */
  predicate IsUUIDText(s: string) {
    |s| == UUIDLength &&
    forall i :: 0 <= i < |s| ==>
      if i == 8 || i == 13 || i == 18 || i == 23 then s[i] == '-' else IsLowerHex(s[i])
  }

  /** The layout of a version-4 UUID of the RFC 4122 variant. */
  predicate IsVersion4(s: string) {
    IsUUIDText(s) && s[14] == '4' && s[19] in "89ab"
  }

  /** The bytes written in a UUID text, the inverse of FormatUUID. */
  function ParseUUID(s: string): (u: seq<bv8>)
    requires |s| == UUIDLength
    ensures |u| == 16
  {
    Unhex(s[0..8]) + Unhex(s[9..13]) + Unhex(s[14..18]) + Unhex(s[19..23]) + Unhex(s[24..36])
  }

  /** Every character of a formatted UUID sits where the 8-4-4-4-12 layout expects it. */
  lemma FormatUUIDIsUUIDText(u: seq<bv8>)
    requires |u| == 16
    ensures IsUUIDText(FormatUUID(u))
  {
    var s := FormatUUID(u);
    var a, b, c, d, e := Hex(u[0..4]), Hex(u[4..6]), Hex(u[6..8]), Hex(u[8..10]), Hex(u[10..]);
    assert s == a + "-" + b + "-" + c + "-" + d + "-" + e;
    forall i | 0 <= i < |s|
      ensures if i == 8 || i == 13 || i == 18 || i == 23 then s[i] == '-' else IsLowerHex(s[i])
    {
      if i < 8 { assert s[i] == a[i]; }
      else if i == 8 { }
      else if i < 13 { assert s[i] == b[i - 9]; }
      else if i == 13 { }
      else if i < 18 { assert s[i] == c[i - 14]; }
      else if i == 18 { }
      else if i < 23 { assert s[i] == d[i - 19]; }
      else if i == 23 { }
      else { assert s[i] == e[i - 24]; }
    }
  }

  /** The five hex groups sit at 0..8, 9..13, 14..18, 19..23 and 24..36. */
  lemma FormatUUIDGroups(u: seq<bv8>)
    requires |u| == 16
    ensures |FormatUUID(u)| == UUIDLength
    ensures FormatUUID(u)[0..8] == Hex(u[0..4]) && FormatUUID(u)[9..13] == Hex(u[4..6])
    ensures FormatUUID(u)[14..18] == Hex(u[6..8]) && FormatUUID(u)[19..23] == Hex(u[8..10])
    ensures FormatUUID(u)[24..36] == Hex(u[10..])
  {
    var s := FormatUUID(u);
    var a, b, c, d, e := Hex(u[0..4]), Hex(u[4..6]), Hex(u[6..8]), Hex(u[8..10]), Hex(u[10..]);
    assert s == a + "-" + b + "-" + c + "-" + d + "-" + e;
  }

  /** Unhex reads back a Hex group wherever it sits in a string. */
  lemma UnhexGroup(s: string, lo: nat, bs: seq<bv8>)
    requires lo + 2 * |bs| <= |s| && s[lo..lo + 2 * |bs|] == Hex(bs)
    ensures Unhex(s[lo..lo + 2 * |bs|]) == bs
  {
    UnhexHex(bs);
  }

  /** ParseUUID undoes FormatUUID. */
  lemma FormatUUIDRoundTrip(u: seq<bv8>)
    requires |u| == 16
    ensures IsUUIDText(FormatUUID(u))
    ensures ParseUUID(FormatUUID(u)) == u
  {
    var s := FormatUUID(u);
    FormatUUIDIsUUIDText(u);
    FormatUUIDGroups(u);
    UnhexGroup(s, 0, u[0..4]);
    UnhexGroup(s, 9, u[4..6]);
    UnhexGroup(s, 14, u[6..8]);
    UnhexGroup(s, 19, u[8..10]);
    UnhexGroup(s, 24, u[10..]);
    assert u == u[0..4] + u[4..6] + u[6..8] + u[8..10] + u[10..];
  }

  /** The characters that carry the version (index 14) and the variant (index 19). */
  lemma FormatUUIDMarkers(u: seq<bv8>)
    requires |u| == 16
    ensures FormatUUID(u)[14] == HexDigit(u[6] >> 4)
    ensures FormatUUID(u)[19] == HexDigit(u[8] >> 4)
  {
    var s := FormatUUID(u);
    var a, b, c, d, e := Hex(u[0..4]), Hex(u[4..6]), Hex(u[6..8]), Hex(u[8..10]), Hex(u[10..]);
    assert s == a + "-" + b + "-" + c + "-" + d + "-" + e;
    assert s[14] == c[0];
    assert s[19] == d[0];
    HexFirst(u[6..8]);
    HexFirst(u[8..10]);
  }

  /** A stamped buffer always prints as a version-4 UUID whose bytes read back unchanged. */
  lemma StampedIsVersion4(u: seq<bv8>)
    requires |u| == 16
    ensures IsVersion4(FormatUUID(Stamp(u)))
    ensures ParseUUID(FormatUUID(Stamp(u))) == Stamp(u)
  {
    var r := Stamp(u);
    FormatUUIDRoundTrip(r);
    FormatUUIDMarkers(r);
    assert HexDigit(r[8] >> 4) in "89ab" by {
      assert 8 <= r[8] >> 4 <= 11;
    }
  }

  /** newUUID's in-place update of the 16-byte buffer (bytes 8 and 6). */
  method SetVersionAndVariant(uuid: array<bv8>)
    requires uuid.Length == 16
    modifies uuid
    ensures uuid[..] == Stamp(old(uuid[..]))
  {
    uuid[8] := (uuid[8] & !0xc0) | 0x80;
    uuid[6] := (uuid[6] & !0xf0) | 0x40;
  }

  /** newUUID. `filled` are the bytes io.ReadFull copied from the random source and `readErr`
    * the error it reported; io.ReadFull reports an error exactly when it filled fewer than 16. */
  method NewUUID(filled: seq<bv8>, readErr: Option<Error>) returns (s: string, err: Option<Error>)
    requires |filled| <= 16
    requires readErr.Some? <==> |filled| < 16
    ensures readErr.Some? ==> s == "" && err == readErr
    ensures readErr.None? ==> err.None? && IsVersion4(s) && ParseUUID(s) == Stamp(filled)
  {
    if |filled| != 16 || readErr.Some? {
      return "", readErr;
    }
    var uuid := new bv8[16];
    forall i | 0 <= i < 16 {
      uuid[i] := filled[i];
    }
    assert uuid[..] == filled;
    SetVersionAndVariant(uuid);
    StampedIsVersion4(filled);
    s, err := FormatUUID(uuid[..]), None;
  }

  /** The fallback constant has the version-4 layout too. */
  lemma FallbackIsVersion4()
    ensures IsVersion4(FallbackUUID)
  {
  }

  /** generateUUID: the fresh UUID, or the fixed fallback when the random read failed.
    * Either way the caller receives a version-4 UUID text. */
  method GenerateUUID(filled: seq<bv8>, readErr: Option<Error>) returns (s: string)
    requires |filled| <= 16
    requires readErr.Some? <==> |filled| < 16
    ensures readErr.Some? ==> s == FallbackUUID
    ensures IsVersion4(s)
    ensures readErr.None? ==> ParseUUID(s) == Stamp(filled)
  {
    var uuid, err := NewUUID(filled, readErr);
    if err.Some? {
      FallbackIsVersion4();
      return FallbackUUID;
    }
    return uuid;
  }

  // ---------------------------------------------------------------------------
  // Device ID and signatures

  /** generateDeviceID: "android-" and the first 16 characters of the MD5 hex digest of the
    * seed followed by the volatile seed. `md5Hex` stands for that digest (32 characters). */
  function GenerateDeviceID(seed: string, md5Hex: string -> string): (id: string)
    requires |md5Hex(seed + VolatileSeed)| == 32
    ensures |id| == 24
    ensures id[..8] == "android-"
    ensures id[8..] == md5Hex(seed + VolatileSeed)[..16]
  {
    "android-" + md5Hex(seed + VolatileSeed)[..16]
  }

  /** generateSignature: exactly the keys ig_sig_key_version and signed_body, the latter the
    * HMAC of the data, a dot, and the data. `keyVersion` and `sigKey` are the client constants
    * (their values are not part of this model); `hmacHex` stands for hex(HMAC-SHA256(text, key)). */
  function GenerateSignature(data: string, keyVersion: string, sigKey: string,
                             hmacHex: (string, string) -> string): (m: map<string, string>)
    ensures m.Keys == {"ig_sig_key_version", "signed_body"}
    ensures m["ig_sig_key_version"] == keyVersion
    ensures m["signed_body"] == hmacHex(data, sigKey) + "." + data
  {
    map["ig_sig_key_version" := keyVersion, "signed_body" := hmacHex(data, sigKey) + "." + data]
  }

  /** A hex digest holds no '.', so the signed data and its signature can be read back from
    * signed_body. */
  lemma SignedBodyRoundTrip(data: string, keyVersion: string, sigKey: string,
                            hmacHex: (string, string) -> string)
    requires forall i :: 0 <= i < |hmacHex(data, sigKey)| ==> IsLowerHex(hmacHex(data, sigKey)[i])
    ensures BeforeFirst(GenerateSignature(data, keyVersion, sigKey, hmacHex)["signed_body"], '.')
            == hmacHex(data, sigKey)
    ensures AfterFirst(GenerateSignature(data, keyVersion, sigKey, hmacHex)["signed_body"], '.')
            == data
  {
    var h := hmacHex(data, sigKey);
    assert '.' !in h;
    SplitJoin(h, '.', data);
  }

  // ---------------------------------------------------------------------------
  // Integer helpers

  /** max */
  function Max(x: int, y: int): (r: int)
    ensures r >= x && r >= y
    ensures r == x || r == y
  {
    if x < y then y else x
  }

  /** getRandom(min, max) = rand.Intn(max - min) + min. `draw` is what rand.Intn returned;
    * rand.Intn panics unless its bound is positive, hence max > min. */
  function GetRandom(min: int, max: int, draw: int): (r: int)
    requires max > min
    requires 0 <= draw < max - min
    ensures min <= r < max
  {
    draw + min
  }

  /** randInt(min, max) = rand.Intn(max - min + 1) + min: inclusive of both ends. */
  function RandInt(min: int, max: int, draw: int): (r: int)
    requires max >= min
    requires 0 <= draw < max - min + 1
    ensures min <= r <= max
  {
    draw + min
  }

  /** Go's integer division, which truncates toward zero. */
  function GoDiv(a: int, b: int): (q: int)
    requires b != 0
    ensures a >= 0 && b > 0 ==> q == a / b
    ensures q * b <= a || a < 0
  {
    if a >= 0 then (if b > 0 then a / b else -(a / -b))
    else (if b > 0 then -(-a / b) else -a / -b)
  }

  /** The base64 alphabet of RFC 4648 section 4, which has no line breaks. */
  predicate IsBase64Text(s: string) {
    forall i :: 0 <= i < |s| ==>
      'A' <= s[i] <= 'Z' || 'a' <= s[i] <= 'z' || '0' <= s[i] <= '9' ||
      s[i] == '+' || s[i] == '/' || s[i] == '='
  }

  datatype Breadcrumb = Breadcrumb(size: int, timeElapsed: int, textChangeEventCount: int, dt: int)

  /** The values generateBreadcrumb writes: `r1`, `r2` stand for the two randInt(500, 1500)
    * draws, `divisor` for randInt(3, 5), `nowUnix` for time.Now().Unix(). */
  function BreadcrumbValues(size: int, r1: int, r2: int, divisor: int, nowUnix: int): (b: Breadcrumb)
    requires 500 <= r1 <= 1500 && 500 <= r2 <= 1500 && 3 <= divisor <= 5
    ensures b.size == size
    ensures b.textChangeEventCount >= 1
    ensures size >= 0 ==> b.textChangeEventCount == Max(1, size / divisor)
    ensures b.timeElapsed - size >= 1000
    ensures b.dt == nowUnix * 1000
  {
    Breadcrumb(size, r1 + size + r2, Max(1, GoDiv(size, divisor)), nowUnix * 1000)
  }

  /** generateBreadcrumb: the base64 signature, a newline, and the base64 body.
    * `b64` stands for base64 standard encoding and `hmacRaw` for the raw HMAC-SHA256 digest. */
  function GenerateBreadcrumb(size: int, r1: int, r2: int, divisor: int, nowUnix: int,
                              breadcrumbKey: string, b64: string -> string,
                              hmacRaw: (string, string) -> string): (r: string)
    requires 500 <= r1 <= 1500 && 500 <= r2 <= 1500 && 3 <= divisor <= 5
  {
    var b := BreadcrumbValues(size, r1, r2, divisor, nowUnix);
    var data := FormatInt(b.size) + " " + FormatInt(b.timeElapsed) + " "
                + FormatInt(b.textChangeEventCount) + " " + FormatInt(b.dt);
    b64(hmacRaw(data, breadcrumbKey)) + "\n" + b64(data)
  }

  /** With a base64 encoder (no line breaks in its output), the breadcrumb splits at its
    * only newline into the signature and the encoded body. */
  lemma BreadcrumbShape(size: int, r1: int, r2: int, divisor: int, nowUnix: int,
                        breadcrumbKey: string, b64: string -> string,
                        hmacRaw: (string, string) -> string)
    requires 500 <= r1 <= 1500 && 500 <= r2 <= 1500 && 3 <= divisor <= 5
    requires forall t :: IsBase64Text(b64(t))
    ensures var r := GenerateBreadcrumb(size, r1, r2, divisor, nowUnix, breadcrumbKey, b64, hmacRaw);
            var b := BreadcrumbValues(size, r1, r2, divisor, nowUnix);
            var data := FormatInt(b.size) + " " + FormatInt(b.timeElapsed) + " "
                        + FormatInt(b.textChangeEventCount) + " " + FormatInt(b.dt);
            BeforeFirst(r, '\n') == b64(hmacRaw(data, breadcrumbKey)) &&
            AfterFirst(r, '\n') == b64(data)
  {
    var b := BreadcrumbValues(size, r1, r2, divisor, nowUnix);
    var data := FormatInt(b.size) + " " + FormatInt(b.timeElapsed) + " "
                + FormatInt(b.textChangeEventCount) + " " + FormatInt(b.dt);
    var sig := b64(hmacRaw(data, breadcrumbKey));
    assert IsBase64Text(sig);
    assert '\n' !in sig;
    SplitJoin(sig, '\n', b64(data));
  }
}
