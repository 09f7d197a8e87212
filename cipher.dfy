/** `lanplus_encrypt_aes_cbc_128` and `lanplus_decrypt_aes_cbc_128`: the
    bookkeeping of `*bytes_written` around the library's cipher calls. AES-128
    in CBC mode is not modelled; the engine behind `EVP_*Update` and
    `EVP_*Final_ex` is a pair of abstract functions that report a success flag
    and the bytes they wrote. */
module LanplusCipher {
  import opened Bits

  /** `IPMI_CRYPT_AES_CBC_128_BLOCK_SIZE`. */
  const BlockSize := 16

  /** Length of the AES-128 key and of the CBC initialisation vector. */
  const KeyLength := 16
  const IvLength := 16

  datatype Direction = Encrypt | Decrypt

  /** A cipher context as left by `EVP_CIPHER_CTX_init` and
      `EVP_EncryptInit_ex`/`EVP_DecryptInit_ex` with `EVP_aes_128_cbc()`,
      `key` and `iv`; `padding` says whether the library's block padding is on. */
  datatype Context = Context(dir: Direction, key: seq<byte>, iv: seq<byte>, padding: bool)

  /** What one engine step reports: its success flag and the bytes it wrote to
      the output (their count is the length it stores through its `outl`). */
  datatype Step = Step(ok: bool, out: seq<byte>)

  /** The library's cipher engine: the update step over the whole input, and
      the final step of a context that has been given that input. */
  datatype Engine = Engine(update: (Context, seq<byte>) -> Step, final: (Context, seq<byte>) -> Step)

  /** A freshly initialised library context pads: the source never switches
      padding off. */
  const LibraryDefaultPadding := true

  /** The context the source's functions set up. */
  function AsWrittenContext(dir: Direction, key: seq<byte>, iv: seq<byte>): Context
  {
    Context(dir, key, iv, LibraryDefaultPadding)
  }

  /** The context the source's comments ask for: padding disabled, as a call
      `EVP_CIPHER_CTX_set_padding(ctx, 0)` after the init would leave it. */
  function UnpaddedContext(dir: Direction, key: seq<byte>, iv: seq<byte>): Context
  {
    Context(dir, key, iv, false)
  }

  /** The engine steps a call makes, in order. */
  datatype Call = UpdateCall | FinalCall

  /** What one call leaves behind: `*bytes_written`, the output bytes the
      engine produced on success, and the engine steps made. */
  datatype Outcome = Outcome(bytesWritten: uint32, written: seq<byte>, calls: seq<Call>)

  /** The branch structure shared by both functions: an empty input returns
      at once; otherwise update, then final, and any failure reports 0. */
  function Run(e: Engine, ctx: Context, input: seq<byte>): Outcome
  {
    if |input| == 0 then Outcome(0, [], [])
    else
      var u := e.update(ctx, input);
      if !u.ok then Outcome(0, [], [UpdateCall])
      else
        var f := e.final(ctx, input);
        if !f.ok then Outcome(0, [], [UpdateCall, FinalCall])
        else Outcome(ToUint32(ToUint32(|u.out|) + ToUint32(|f.out|)), u.out + f.out, [UpdateCall, FinalCall])
  }

  /** Both engine steps reported success on a non-empty input. */
  predicate Succeeded(e: Engine, ctx: Context, input: seq<byte>)
  {
    |input| > 0 && e.update(ctx, input).ok && e.final(ctx, input).ok
  }

  /** The caller's output buffer holds `n` bytes, enough for what each step
      that succeeds writes at its position. */
  predicate OutputFits(e: Engine, ctx: Context, input: seq<byte>, n: nat)
  {
    var u := e.update(ctx, input);
    var f := e.final(ctx, input);
    |input| > 0 && u.ok ==> |u.out| <= n && (f.ok ==> |u.out| + |f.out| <= n)
  }

  /** A zero-length input reports 0 bytes written and never reaches the
      engine's update or final step. */
  lemma EmptyInputWritesNothing(e: Engine, ctx: Context)
    ensures Run(e, ctx, []).bytesWritten == 0
    ensures Run(e, ctx, []).calls == []
  {
  }

  /** A failed update reports 0 and skips final; a failed final reports 0;
      no partial length is ever reported. */
  lemma FailureWritesZero(e: Engine, ctx: Context, input: seq<byte>)
    requires |input| > 0 && !Succeeded(e, ctx, input)
    ensures Run(e, ctx, input).bytesWritten == 0
    ensures Run(e, ctx, input).written == []
    ensures Run(e, ctx, input).calls
            == if e.update(ctx, input).ok then [UpdateCall, FinalCall] else [UpdateCall]
  {
  }

  /** On success `*bytes_written` is the update length plus the final length,
      in `uint32_t` arithmetic, and the output holds the update bytes followed
      by the final bytes. */
  lemma SuccessWritesSum(e: Engine, ctx: Context, input: seq<byte>)
    requires Succeeded(e, ctx, input)
    ensures Run(e, ctx, input).bytesWritten
            == ToUint32(|e.update(ctx, input).out| + |e.final(ctx, input).out|)
    ensures Run(e, ctx, input).written == e.update(ctx, input).out + e.final(ctx, input).out
    ensures Run(e, ctx, input).calls == [UpdateCall, FinalCall]
  {
  }

  /** With padding off and whole blocks of input, update passes every byte
      through and final adds nothing. */
  ghost predicate UnpaddedLengths(e: Engine)
  {
    (forall ctx: Context, x: seq<byte> :: !ctx.padding && |x| % BlockSize == 0 && e.update(ctx, x).ok ==>
      |e.update(ctx, x).out| == |x|) &&
    (forall ctx: Context, x: seq<byte> :: !ctx.padding && |x| % BlockSize == 0 && e.final(ctx, x).ok ==>
      e.final(ctx, x).out == [])
  }

  /** With padding on (the library default), encrypting whole blocks passes
      every byte through update and final appends one whole block of padding,
      the behaviour the comment above the block-size assert describes. */
  ghost predicate PaddedEncryptLengths(e: Engine)
  {
    (forall ctx: Context, x: seq<byte> :: ctx.padding && ctx.dir == Encrypt && |x| % BlockSize == 0 && e.update(ctx, x).ok ==>
      |e.update(ctx, x).out| == |x|) &&
    (forall ctx: Context, x: seq<byte> :: ctx.padding && ctx.dir == Encrypt && |x| % BlockSize == 0 && e.final(ctx, x).ok ==>
      |e.final(ctx, x).out| == BlockSize)
  }

  /** With padding on, decrypting whole blocks holds the last block back in
      update, and final succeeds only when that block ends in 1 to 16 bytes of
      block padding, which it strips. */
  ghost predicate PaddedDecryptLengths(e: Engine)
  {
    (forall ctx: Context, x: seq<byte> :: ctx.padding && ctx.dir == Decrypt && |x| % BlockSize == 0 && |x| > 0 && e.update(ctx, x).ok ==>
      |e.update(ctx, x).out| == |x| - BlockSize) &&
    (forall ctx: Context, x: seq<byte> :: ctx.padding && ctx.dir == Decrypt && |x| % BlockSize == 0 && |x| > 0 && e.final(ctx, x).ok ==>
      |e.final(ctx, x).out| < BlockSize)
  }

  /** With padding off, a successful call reports exactly the input length and
      the output is as long as the input: no padding block is added. */
  lemma NoPaddingPreservesLength(e: Engine, dir: Direction, key: seq<byte>, iv: seq<byte>, input: seq<byte>)
    requires UnpaddedLengths(e)
    requires |input| < 0x1_0000_0000 && |input| % BlockSize == 0
    requires Succeeded(e, UnpaddedContext(dir, key, iv), input)
    ensures Run(e, UnpaddedContext(dir, key, iv), input).bytesWritten == |input|
    ensures |Run(e, UnpaddedContext(dir, key, iv), input).written| == |input|
  {
  }

  /** As written, encryption keeps the library's default padding: a
      successful call on whole blocks reports one block more than the input,
      and the caller's buffer must hold that extra block. */
  lemma AsWrittenEncryptAddsBlock(e: Engine, key: seq<byte>, iv: seq<byte>, input: seq<byte>)
    requires PaddedEncryptLengths(e)
    requires |input| + BlockSize < 0x1_0000_0000 && |input| % BlockSize == 0
    requires Succeeded(e, AsWrittenContext(Encrypt, key, iv), input)
    ensures Run(e, AsWrittenContext(Encrypt, key, iv), input).bytesWritten == |input| + BlockSize
    ensures |Run(e, AsWrittenContext(Encrypt, key, iv), input).written| == |input| + BlockSize
  {
  }

  /** As written, decryption keeps the library's default padding: a
      successful call on whole blocks reports fewer bytes than the input,
      the trailing padding the library strips. */
  lemma AsWrittenDecryptLosesBytes(e: Engine, key: seq<byte>, iv: seq<byte>, input: seq<byte>)
    requires PaddedDecryptLengths(e)
    requires |input| < 0x1_0000_0000 && |input| % BlockSize == 0
    requires Succeeded(e, AsWrittenContext(Decrypt, key, iv), input)
    ensures |input| - BlockSize <= Run(e, AsWrittenContext(Decrypt, key, iv), input).bytesWritten < |input|
  {
  }

  /** An engine with the library's length behaviour and no cipher at all:
      payload bytes pass through unchanged. With padding on, encryption
      appends a block of sixteen 16s, and decryption holds the last block
      back and strips as many bytes as its last byte says (1 to 16), failing
      otherwise. It shows the three length predicates can hold together. */
  function LengthModelEngine(): Engine
  {
    Engine(
      (ctx: Context, x: seq<byte>) =>
        if ctx.padding && ctx.dir == Decrypt && |x| >= BlockSize then Step(true, x[..|x| - BlockSize])
        else Step(true, x),
      (ctx: Context, x: seq<byte>) =>
        if !ctx.padding then Step(true, [])
        else if ctx.dir == Encrypt then Step(true, seq(BlockSize, _ => BlockSize))
        else if |x| >= BlockSize && 1 <= x[|x| - 1] <= BlockSize then Step(true, x[|x| - BlockSize..|x| - x[|x| - 1]])
        else Step(false, []))
  }

  lemma LengthModelIsConsistent()
    ensures UnpaddedLengths(LengthModelEngine())
    ensures PaddedEncryptLengths(LengthModelEngine())
    ensures PaddedDecryptLengths(LengthModelEngine())
  {
  }

  /** One all-zero block: as written, encryption reports 32 bytes where the
      unpadded context reports 16. */
  lemma AsWrittenEncryptExample()
    ensures Run(LengthModelEngine(), AsWrittenContext(Encrypt, seq(16, _ => 0), seq(16, _ => 0)), seq(16, _ => 0)).bytesWritten == 32
    ensures Run(LengthModelEngine(), UnpaddedContext(Encrypt, seq(16, _ => 0), seq(16, _ => 0)), seq(16, _ => 0)).bytesWritten == 16
  {
  }

  /** One block whose last plaintext byte is 0: as written, decryption fails in
      final and reports 0 bytes, where the unpadded context returns the block. */
  lemma AsWrittenDecryptExample()
    ensures Run(LengthModelEngine(), AsWrittenContext(Decrypt, seq(16, _ => 0), seq(16, _ => 0)), seq(16, _ => 0)).bytesWritten == 0
    ensures Run(LengthModelEngine(), UnpaddedContext(Decrypt, seq(16, _ => 0), seq(16, _ => 0)), seq(16, _ => 0)).bytesWritten == 16
  {
  }

  /** What the output buffer holds after a call, given what it held before:
      on success the engine's bytes followed by the old tail; after a failed
      final the update's bytes followed by the old tail; after an empty input
      or a failed update the old contents. */
  ghost predicate OutputAfter(e: Engine, ctx: Context, input: seq<byte>, before: seq<byte>, after: seq<byte>)
  {
    var u := e.update(ctx, input);
    var w := if |input| == 0 || !u.ok then [] else if e.final(ctx, input).ok then u.out + e.final(ctx, input).out else u.out;
    |after| == |before| && |w| <= |after| &&
    after[..|w|] == w && after[|w|..] == before[|w|..] &&
    (Succeeded(e, ctx, input) ==> w == Run(e, ctx, input).written)
  }

  /** `lanplus_encrypt_aes_cbc_128(iv, key, input, input_length, output,
      bytes_written)` as written: the context keeps the library's default
      padding. */
  method EncryptAesCbc128(e: Engine, iv: seq<byte>, key: seq<byte>, input: seq<byte>, output: array<byte>)
    returns (bytesWritten: uint32, ghost calls: seq<Call>)
    requires |iv| == IvLength && |key| == KeyLength
    requires |input| < 0x1_0000_0000
    requires |input| % BlockSize == 0
    requires OutputFits(e, AsWrittenContext(Encrypt, key, iv), input, output.Length)
    modifies output
    ensures bytesWritten == Run(e, AsWrittenContext(Encrypt, key, iv), input).bytesWritten
    ensures calls == Run(e, AsWrittenContext(Encrypt, key, iv), input).calls
    ensures OutputAfter(e, AsWrittenContext(Encrypt, key, iv), input, old(output[..]), output[..])
  {
    bytesWritten, calls := Transform(e, AsWrittenContext(Encrypt, key, iv), input, output);
  }

  /** `lanplus_decrypt_aes_cbc_128(iv, key, input, input_length, output,
      bytes_written)` as written: the context keeps the library's default
      padding. */
  method DecryptAesCbc128(e: Engine, iv: seq<byte>, key: seq<byte>, input: seq<byte>, output: array<byte>)
    returns (bytesWritten: uint32, ghost calls: seq<Call>)
    requires |iv| == IvLength && |key| == KeyLength
    requires |input| < 0x1_0000_0000
    requires |input| % BlockSize == 0
    requires OutputFits(e, AsWrittenContext(Decrypt, key, iv), input, output.Length)
    modifies output
    ensures bytesWritten == Run(e, AsWrittenContext(Decrypt, key, iv), input).bytesWritten
    ensures calls == Run(e, AsWrittenContext(Decrypt, key, iv), input).calls
    ensures OutputAfter(e, AsWrittenContext(Decrypt, key, iv), input, old(output[..]), output[..])
  {
    bytesWritten, calls := Transform(e, AsWrittenContext(Decrypt, key, iv), input, output);
  }

  /** Encryption as its comments intend it: padding switched off after the
      init. For an engine that then passes whole blocks through, success
      reports exactly the input length. */
  method EncryptAesCbc128Unpadded(e: Engine, iv: seq<byte>, key: seq<byte>, input: seq<byte>, output: array<byte>)
    returns (bytesWritten: uint32, ghost calls: seq<Call>)
    requires |iv| == IvLength && |key| == KeyLength
    requires |input| < 0x1_0000_0000
    requires |input| % BlockSize == 0
    requires OutputFits(e, UnpaddedContext(Encrypt, key, iv), input, output.Length)
    modifies output
    ensures bytesWritten == Run(e, UnpaddedContext(Encrypt, key, iv), input).bytesWritten
    ensures calls == Run(e, UnpaddedContext(Encrypt, key, iv), input).calls
    ensures OutputAfter(e, UnpaddedContext(Encrypt, key, iv), input, old(output[..]), output[..])
    ensures UnpaddedLengths(e) && Succeeded(e, UnpaddedContext(Encrypt, key, iv), input) ==>
              bytesWritten == |input| && output[..|input|] == Run(e, UnpaddedContext(Encrypt, key, iv), input).written
  {
    bytesWritten, calls := Transform(e, UnpaddedContext(Encrypt, key, iv), input, output);
    if UnpaddedLengths(e) && Succeeded(e, UnpaddedContext(Encrypt, key, iv), input) {
      NoPaddingPreservesLength(e, Encrypt, key, iv, input);
    }
  }

  /** Decryption as its comments intend it: padding switched off after the
      init. For an engine that then passes whole blocks through, success
      reports exactly the input length. */
  method DecryptAesCbc128Unpadded(e: Engine, iv: seq<byte>, key: seq<byte>, input: seq<byte>, output: array<byte>)
    returns (bytesWritten: uint32, ghost calls: seq<Call>)
    requires |iv| == IvLength && |key| == KeyLength
    requires |input| < 0x1_0000_0000
    requires |input| % BlockSize == 0
    requires OutputFits(e, UnpaddedContext(Decrypt, key, iv), input, output.Length)
    modifies output
    ensures bytesWritten == Run(e, UnpaddedContext(Decrypt, key, iv), input).bytesWritten
    ensures calls == Run(e, UnpaddedContext(Decrypt, key, iv), input).calls
    ensures OutputAfter(e, UnpaddedContext(Decrypt, key, iv), input, old(output[..]), output[..])
    ensures UnpaddedLengths(e) && Succeeded(e, UnpaddedContext(Decrypt, key, iv), input) ==>
              bytesWritten == |input| && output[..|input|] == Run(e, UnpaddedContext(Decrypt, key, iv), input).written
  {
    bytesWritten, calls := Transform(e, UnpaddedContext(Decrypt, key, iv), input, output);
    if UnpaddedLengths(e) && Succeeded(e, UnpaddedContext(Decrypt, key, iv), input) {
      NoPaddingPreservesLength(e, Decrypt, key, iv, input);
    }
  }

  /** The body shared by both functions, for a context already initialised:
      `*bytes_written` is set to 0, the empty input returns, update stores its
      length through `bytes_written`, final's length is added to it, and each
      failure resets it to 0. The output holds what the successful steps wrote
      and nothing else of it changes. */
  method Transform(e: Engine, ctx: Context, input: seq<byte>, output: array<byte>)
    returns (bytesWritten: uint32, ghost calls: seq<Call>)
    requires |input| < 0x1_0000_0000
    requires |input| % BlockSize == 0
    requires OutputFits(e, ctx, input, output.Length)
    modifies output
    ensures bytesWritten == Run(e, ctx, input).bytesWritten
    ensures calls == Run(e, ctx, input).calls
    ensures OutputAfter(e, ctx, input, old(output[..]), output[..])
  {
    bytesWritten, calls := 0, [];
    if |input| == 0 {
      return;
    }
    var u := e.update(ctx, input);
    calls := calls + [UpdateCall];
    bytesWritten := ToUint32(|u.out|);
    if !u.ok {
      bytesWritten := 0;
      return;
    }
    forall j | 0 <= j < |u.out| {
      output[j] := u.out[j];
    }
    var f := e.final(ctx, input);
    calls := calls + [FinalCall];
    var tmplen := ToUint32(|f.out|);
    if !f.ok {
      bytesWritten := 0;
      return;
    }
    forall j | 0 <= j < |f.out| {
      output[|u.out| + j] := f.out[j];
    }
    bytesWritten := ToUint32(bytesWritten + tmplen);
    assert output[..|u.out| + |f.out|] == u.out + f.out;
  }
}
