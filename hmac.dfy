/** `lanplus_HMAC`: select the digest from the IPMI algorithm tag, then make a
    single call to the library's HMAC. Only the two SHA-1 based tags of
    section 13.28 of the IPMI v2.0 specification are accepted. */
module LanplusHmac {
  import opened Bits

  /** `IPMI_AUTH_RAKP_HMAC_SHA1`, the RAKP authentication algorithm number.
      Its value comes from a header that is not part of this model, so it is
      left uninterpreted. */
  const RakpHmacSha1: byte

  /** `IPMI_INTEGRITY_HMAC_SHA1_96`, the integrity algorithm number; left
      uninterpreted like `RakpHmacSha1`. */
  const IntegrityHmacSha1_96: byte

  /** Native output length of SHA-1, in bytes. */
  const Sha1DigestLength := 20

  /** The message digests the library offers: `EVP_sha1()`, the only one this
      file ever takes, and `OtherDigest` for every digest it never selects. */
  datatype DigestAlgorithm = Sha1 | OtherDigest

  /** Why `lanplus_HMAC` yields no digest. `UnsupportedAlgorithm`: an
      unrecognised tag, on which the C code prints a message and stops on
      `assert(0)`; here that stop is a value the caller sees. `HmacFailed`:
      the library's `HMAC` returned NULL, which `lanplus_HMAC` passes on. */
  datatype MacError = UnsupportedAlgorithm(mac: byte) | HmacFailed

  datatype Result<T> = Ok(value: T) | Err(error: MacError)

  datatype Option<T> = None | Some(value: T)

  /** The library's `HMAC(evp_md, key, key_len, d, n, md, md_len)`: the bytes
      it leaves in `md` (their count is `*md_len`), or `None` when it returns
      NULL. */
  type HmacEngine = (DigestAlgorithm, seq<byte>, seq<byte>) -> Option<seq<byte>>

  /** Every digest the library's HMAC-SHA-1 yields is 20 bytes long. */
  ghost predicate Sha1Sized(hmac: HmacEngine)
  {
    forall key, data :: hmac(Sha1, key, data).Some? ==> |hmac(Sha1, key, data).value| == Sha1DigestLength
  }

  predicate Supported(mac: byte)
  {
    mac == RakpHmacSha1 || mac == IntegrityHmacSha1_96
  }

  /** The `if` that picks `evp_md`: SHA-1 for the two supported tags and
      nothing otherwise. */
  function SelectDigest(mac: byte): (r: Result<DigestAlgorithm>)
    ensures r.Ok? <==> Supported(mac)
    ensures r.Ok? ==> r.value == Sha1
    ensures r.Err? ==> r.error == UnsupportedAlgorithm(mac)
  {
    if mac == RakpHmacSha1 || mac == IntegrityHmacSha1_96 then Ok(Sha1)
    else Err(UnsupportedAlgorithm(mac))
  }

  /** `lanplus_HMAC(mac, key, key_len, d, n, md, md_len)`: the digest written
      to `md`, the rejection of an unsupported tag, or the library's failure. */
  function Hmac(hmac: HmacEngine, mac: byte, key: seq<byte>, data: seq<byte>): (r: Result<seq<byte>>)
    ensures r.Ok? <==> Supported(mac) && hmac(Sha1, key, data).Some?
    ensures r.Ok? ==> hmac(Sha1, key, data) == Some(r.value)
    ensures r == Err(UnsupportedAlgorithm(mac)) <==> !Supported(mac)
    ensures r == Err(HmacFailed) <==> Supported(mac) && hmac(Sha1, key, data).None?
  {
    match SelectDigest(mac)
    case Err(e) => Err(e)
    case Ok(md) =>
      match hmac(md, key, data)
      case None => Err(HmacFailed)
      case Some(digest) => Ok(digest)
  }

  /** An unsupported tag never falls back to some digest: whatever the HMAC
      engine, key or data, the result is the rejection and no digest. */
  lemma UnsupportedNeverFallsBack(hmac: HmacEngine, mac: byte, key: seq<byte>, data: seq<byte>, alg: DigestAlgorithm)
    requires !Supported(mac)
    ensures hmac(alg, key, data).Some? ==> Hmac(hmac, mac, key, data) != Ok(hmac(alg, key, data).value)
    ensures Hmac(hmac, mac, key, data) == Err(UnsupportedAlgorithm(mac))
  {
  }

  /** A supported tag never uses another digest than SHA-1: the result is
      unchanged when the engine's behaviour for every other digest changes. */
  lemma OnlySha1Consulted(h1: HmacEngine, h2: HmacEngine, mac: byte, key: seq<byte>, data: seq<byte>)
    requires h1(Sha1, key, data) == h2(Sha1, key, data)
    ensures Hmac(h1, mac, key, data) == Hmac(h2, mac, key, data)
  {
  }

  /** The tag names a usage, not a construction: both tags give the same
      result for the same key and data, and neither is rejected. */
  lemma UsagesAgree(hmac: HmacEngine, key: seq<byte>, data: seq<byte>)
    ensures Hmac(hmac, RakpHmacSha1, key, data) == Hmac(hmac, IntegrityHmacSha1_96, key, data)
    ensures Hmac(hmac, RakpHmacSha1, key, data) != Err(UnsupportedAlgorithm(RakpHmacSha1))
  {
  }

  /** A successful call yields the 20 bytes of a SHA-1 HMAC in `md`, and
      `*md_len` is 20. */
  lemma DigestIsSha1Sized(hmac: HmacEngine, mac: byte, key: seq<byte>, data: seq<byte>)
    requires Sha1Sized(hmac)
    requires Hmac(hmac, mac, key, data).Ok?
    ensures Supported(mac)
    ensures |Hmac(hmac, mac, key, data).value| == Sha1DigestLength
  {
  }
}
