# ipmitool lanplus crypto primitives in Dafny

This project models `lanplus_crypt_impl.c`, the primitive layer under
ipmitool's IPMI v2.0 "LAN+" (RMCP+) session security. The file wraps three
library facilities. The model covers the logic the file adds around them:

- **`lanplus_rand`** fills a caller buffer. `IPMI_LANPLUS_FAKE_RAND` is defined
  right above its `#ifdef`, so the compiled function always writes the
  recognisable pattern `0x70 | i` and returns 0. The model is an in-place
  array method, `LanplusRand.Rand`. It is proved against the pattern function
  `FakePattern`, and the pattern is characterised by lemmas.
- **`lanplus_HMAC`** maps the IPMI algorithm tag to a digest and then calls the
  library's `HMAC` once. Only `IPMI_AUTH_RAKP_HMAC_SHA1` and
  `IPMI_INTEGRITY_HMAC_SHA1_96` are accepted. Both are algorithm numbers from
  section 13.28 of the IPMI v2.0 specification. The header that defines their
  values is not part of this model, so they are uninterpreted constants. The
  library HMAC is a function-valued parameter that may fail (NULL), and
  `lanplus_HMAC` passes that failure on. Determinism comes with the form:
  `Hmac` is a function of the engine, the tag, the key and the data.
- **`lanplus_encrypt_aes_cbc_128` / `lanplus_decrypt_aes_cbc_128`** set
  `*bytes_written` step by step around the engine's update and final steps.
  The engine is a datatype of two abstract functions. Each step reports an
  ok flag and the bytes it wrote. `LanplusCipher.Run` states the branch
  structure. The array methods `Transform`, `EncryptAesCbc128` and
  `DecryptAesCbc128` are proved to agree with `Run`. They agree on the
  reported length, on the output bytes and on the sequence of engine steps,
  and the output beyond what the engine wrote keeps its old contents.
  `EncryptAesCbc128` and `DecryptAesCbc128` use the context the code sets up,
  which keeps the library's default padding. `EncryptAesCbc128Unpadded` and
  `DecryptAesCbc128Unpadded` are the corrected forms, with padding off.

Bytes are integers in `0..255`, and `Bits.Or` is bitwise OR on naturals.
`uint32_t` results are reduced modulo 2^32 where the C code stores into one.

The library's own behaviour enters the cipher lemmas only as a named
hypothesis about the engine:

- `UnpaddedLengths`: with padding off, update passes whole blocks through and
  final adds nothing.
- `PaddedEncryptLengths` and `PaddedDecryptLengths`: with the library's
  default block padding on, encrypt adds one block and decrypt strips 1 to 16
  bytes.

`LengthModelEngine` is an engine that satisfies all three hypotheses, which
shows they are consistent.

Where the code and its own comments disagree about padding, the model follows
the code in `EncryptAesCbc128` and `DecryptAesCbc128` and in the as-written
lemmas. The `Unpadded` methods are the corrected forms (see "## Findings"). On an unknown tag the code stops on `assert(0)`. The
model returns `Err(UnsupportedAlgorithm(mac))` at that point instead, a
rejection with no fallback, as in the code.

## Model

| member | source | states |
|---|---|---|
| `LanplusRand.Rand` | ipmitool/src/plugins/lanplus/lanplus_crypt_impl.c:80-98 | returns 0; `buffer[0..num_bytes)` holds the fake pattern; every byte at index `>= num_bytes` is unchanged |
| `LanplusRand.FakePattern` | ipmitool/src/plugins/lanplus/lanplus_crypt_impl.c:90-92 | the pattern for `n` bytes has length `n` and byte `i` is `0x70 OR i` stored into a `uint8_t` |
| `LanplusRand.FakeByteLowByte` | ipmitool/src/plugins/lanplus/lanplus_crypt_impl.c:92 | `(0x70 OR i) mod 256 == 0x70 OR (i mod 256)`, and the byte is bit 7 of `i`, then bits 4-6 set, then the low nibble of `i` |
| `LanplusRand.FakeByteMarked` | ipmitool/src/plugins/lanplus/lanplus_crypt_impl.c:86-92 | every written byte has the bits of 0x70 set; OR-ing 0x70 into it again changes nothing |
| `LanplusRand.FakePatternPrefix` | ipmitool/src/plugins/lanplus/lanplus_crypt_impl.c:90-92 | the fill for `n` bytes is the prefix of the fill for any `m >= n`; the pattern does not depend on the requested length |
| `Bits.OrSeventyHex` | ipmitool/src/plugins/lanplus/lanplus_crypt_impl.c:92 | `0x70 OR y` on `int` sets bits 4-6 of `y` and keeps all its other bits |
| `LanplusHmac.SelectDigest` | ipmitool/src/plugins/lanplus/lanplus_crypt_impl.c:125-134 | a digest is selected iff the tag is one of the two SHA-1 tags; the digest selected is always SHA-1; any other tag is rejected with that tag |
| `LanplusHmac.Hmac` | ipmitool/src/plugins/lanplus/lanplus_crypt_impl.c:115-138 | succeeds iff the tag is supported and the library's SHA-1 HMAC succeeds, and then returns that digest; an unsupported tag gives the unsupported-tag error; a supported tag whose HMAC fails gives the library-failure error |
| `LanplusHmac.UnsupportedNeverFallsBack` | ipmitool/src/plugins/lanplus/lanplus_crypt_impl.c:130-134 | an unsupported tag yields the error and never the HMAC under any digest |
| `LanplusHmac.OnlySha1Consulted` | ipmitool/src/plugins/lanplus/lanplus_crypt_impl.c:127-137 | the result depends on the engine only through its SHA-1 HMAC of this key and data |
| `LanplusHmac.UsagesAgree` | ipmitool/src/plugins/lanplus/lanplus_crypt_impl.c:127-129 | the RAKP tag and the integrity tag give the same result for the same key and data, and neither is rejected as unsupported |
| `LanplusHmac.DigestIsSha1Sized` | ipmitool/src/plugins/lanplus/lanplus_crypt_impl.c:137 | a successful call had a supported tag, and with a library whose SHA-1 HMAC is 20 bytes its digest in `md` is 20 bytes |
| `LanplusCipher.EmptyInputWritesNothing` | ipmitool/src/plugins/lanplus/lanplus_crypt_impl.c:168-171 | a zero-length input reports 0 bytes written and reaches neither update nor final |
| `LanplusCipher.FailureWritesZero` | ipmitool/src/plugins/lanplus/lanplus_crypt_impl.c:189-203 | a failed update reports 0 and skips final; a failed final reports 0; no partial output is reported |
| `LanplusCipher.SuccessWritesSum` | ipmitool/src/plugins/lanplus/lanplus_crypt_impl.c:195-209 | on success `*bytes_written` is update length plus final length modulo 2^32, the output is the update bytes then the final bytes, and both steps ran in that order |
| `LanplusCipher.NoPaddingPreservesLength` | ipmitool/src/plugins/lanplus/lanplus_crypt_impl.c:181-186 | with padding off and whole blocks, a successful call reports exactly the input length and outputs that many bytes |
| `LanplusCipher.AsWrittenEncryptAddsBlock` | ipmitool/src/plugins/lanplus/lanplus_crypt_impl.c:163-186 | with the library default padding that the code keeps, successful encryption of whole blocks reports input length plus 16 |
| `LanplusCipher.AsWrittenDecryptLosesBytes` | ipmitool/src/plugins/lanplus/lanplus_crypt_impl.c:237-260 | with the library default padding that the code keeps, successful decryption reports between input length minus 16 and input length minus 1 |
| `LanplusCipher.LengthModelIsConsistent` | ipmitool/src/plugins/lanplus/lanplus_crypt_impl.c:181-184 | one engine satisfies the unpadded and both padded length hypotheses at once |
| `LanplusCipher.AsWrittenEncryptExample` | ipmitool/src/plugins/lanplus/lanplus_crypt_impl.c:163-207 | one zero block encrypted as written reports 32 bytes; unpadded it reports 16 |
| `LanplusCipher.AsWrittenDecryptExample` | ipmitool/src/plugins/lanplus/lanplus_crypt_impl.c:237-286 | one block ending in a 0 byte, decrypted as written, fails in final and reports 0; unpadded it reports 16 |
| `LanplusCipher.Transform` | ipmitool/src/plugins/lanplus/lanplus_crypt_impl.c:168-210 | `*bytes_written`, the engine steps made and the output bytes are exactly those of `Run` for the context and input; the rest of the output keeps its old contents, all of it after an empty input or a failed update |
| `LanplusCipher.EncryptAesCbc128` | ipmitool/src/plugins/lanplus/lanplus_crypt_impl.c:155-211 | for a 16-byte IV and key and block-aligned input, the result, steps and output match `Run` in the encrypt context the code sets up, with the library's default padding; output beyond the engine's bytes is unchanged |
| `LanplusCipher.DecryptAesCbc128` | ipmitool/src/plugins/lanplus/lanplus_crypt_impl.c:229-296 | for a 16-byte IV and key and block-aligned input, the result, steps and output match `Run` in the decrypt context the code sets up, with the library's default padding; output beyond the engine's bytes is unchanged |
| `LanplusCipher.EncryptAesCbc128Unpadded` | ipmitool/src/plugins/lanplus/lanplus_crypt_impl.c:181-186 | the corrected encrypt: matches `Run` in an unpadded context, and for an engine that passes whole blocks through, success reports exactly the input length and writes that many bytes |
| `LanplusCipher.DecryptAesCbc128Unpadded` | ipmitool/src/plugins/lanplus/lanplus_crypt_impl.c:255-260 | the corrected decrypt: matches `Run` in an unpadded context, and for an engine that passes whole blocks through, success reports exactly the input length and writes that many bytes |

## Left out

- `lanplus_seed_prng`: reads `/dev/urandom` into the library's global PRNG. That is I/O and global state, and its result mapping is one line.
- The `RAND_bytes` branch of `lanplus_rand` is dead code under the `#define` on line 83, so it is not modelled.
- Rand: the C loop counter is a signed `int` compared with a `uint32_t`, so a request for more than 2^31 - 1 bytes overflows it (undefined behaviour). The model's counter is unbounded and does not reproduce this.
- AES-128-CBC and HMAC-SHA-1 are library code, modelled as abstract engine functions. No property of the cipher itself is proved. In particular `decrypt(encrypt(x)) == x` is neither assumed nor proved.
- Hmac: the `assert(0)` stop is modelled as an error value. A build with `NDEBUG`, where the code would go on to call `HMAC` with an uninitialised digest, is not modelled.
- The values of the two IPMI tags are uninterpreted. Whether they are equal makes no difference to any lemma here.
- `key_len` and `n` of `lanplus_HMAC` are the lengths of the key and data sequences. Negative lengths cannot arise in the model.
- The block-size `assert` on lines 186 and 260 is a precondition (`|input| % BlockSize == 0`) of the cipher methods, not a modelled abort.
- Cipher context lifecycle is not modelled. This covers `EVP_CIPHER_CTX_init`, the ignored return value of `EVP_*Init_ex`, and `EVP_CIPHER_CTX_cleanup`, which is skipped on the empty and error paths.
- Diagnostics are output only and are not modelled: `verbose`, `printbuf`, `fprintf` and `ERR_error_string`/`ERR_get_error`. The decrypt failure message is therefore not part of the result.
- What the library writes into the output during a step that then fails is not modelled. In the model a failed step writes nothing, so after a failed final the update's bytes remain and the rest is unchanged.
- Transform: the final step's bytes are placed after the update bytes by their count. The C code places them at the `uint32_t` value of `*bytes_written`, which is the same unless the update output reaches 2^32 bytes.

## Findings

| source | as written | input that shows it | evidently intended | confidence | as-written member | corrected member |
|---|---|---|---|---|---|---|
| ipmitool/src/plugins/lanplus/lanplus_crypt_impl.c:163-186 | the encrypt context keeps the library's default block padding. The comment says the extra padding block for aligned input must be avoided, but nothing switches padding off. | one all-zero 16-byte block, with an engine that pads as the library does: `*bytes_written` is 32 and the output needs 32 bytes | padding switched off: `*bytes_written` equals the input length | medium, not executed; it rests on the library's default padding as the comment describes it | `LanplusCipher.AsWrittenEncryptAddsBlock` | `LanplusCipher.EncryptAesCbc128Unpadded` |
| ipmitool/src/plugins/lanplus/lanplus_crypt_impl.c:237-260 | the decrypt context keeps the library's default block padding, so final checks and strips padding the caller never added | one 16-byte block whose last plaintext byte is 0: final fails and `*bytes_written` is 0. When final does succeed, 1 to 16 bytes are missing | padding switched off: `*bytes_written` equals the input length | medium, not executed | `LanplusCipher.AsWrittenDecryptLosesBytes` | `LanplusCipher.DecryptAesCbc128Unpadded` |
