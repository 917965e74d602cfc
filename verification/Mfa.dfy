/** `mfa.rs`: the Base32 seed codec and time-based one-time passwords. */
module Mfa {
  import opened Wrappers
  import opened Bits
  import opened Text

  datatype MfaError = InvalidSeed | InvalidCode | UnsupportedAlgorithm(name: string)

  datatype TotpConfig = TotpConfig(algorithm: string, digits: nat, periodSeconds: nat, secretBase32: string)

  // ---- Base32 (section 6 of RFC 4648, without padding) ----

  function Letter(index: nat): char
    requires index < 32
  {
    if index < 26 then 'A' + index as char else '2' + (index - 26) as char
  }

  function LetterIndex(c: char): Option<nat>
  {
    var u := Upper(c);
    if 'A' <= u <= 'Z' then Some((u - 'A') as int)
    else if '2' <= u <= '7' then Some((u - '2') as int + 26)
    else None
  }

  function Letters(indices: seq<nat>): string
    requires Below(indices, 32)
  {
    seq(|indices|, i requires 0 <= i < |indices| => Letter(indices[i]))
  }

  /** How many zero bits fill up the last five-bit symbol. */
  function Fill(bytes: nat): (r: nat)
    ensures r < 5 && (8 * bytes + r) % 5 == 0
  {
    (5 - 8 * bytes % 5) % 5
  }

  /** The five-bit blocks of the zero-filled bit string of `value`. */
  function Symbols(value: seq<byte>): (r: seq<nat>)
    ensures Below(r, 32)
  {
    var bs := Stream(value, 8) + Zeros(Fill(|value|));
    GroupsBounded(bs, 5);
    Powers();
    Groups(bs, 5)
  }

  function Base32Text(value: seq<byte>): string
  {
    Letters(Symbols(value))
  }

  /** Drops what the decoder skips. */
  function Significant(text: string): string
  {
    if text == "" then ""
    else (if IsSpace(text[0]) || text[0] == '=' then "" else [text[0]]) + Significant(text[1..])
  }

  /** The symbol values of `text`, if every character is in the alphabet. */
  function Indices(text: string): (r: Option<seq<nat>>)
    ensures r.Some? ==> |r.value| == |text| && Below(r.value, 32)
  {
    if text == "" then Some([])
    else match (Indices(text[..|text| - 1]), LetterIndex(text[|text| - 1]))
      case (Some(front), Some(i)) => Some(front + [i])
      case _ => None
  }

  /** The whole bytes in the bit string that the symbols of `text` spell. */
  function Base32Bytes(text: string): Result<seq<byte>, MfaError>
  {
    match Indices(Significant(text))
    case None => Err(InvalidSeed)
    case Some(indices) =>
      var bytes := Octets(Stream(indices, 5));
      if bytes == [] then Err(InvalidSeed) else Ok(bytes)
  }

  method Base32Encode(value: seq<byte>) returns (output: string)
    ensures output == Base32Text(value)
  {
    hide Repacked, Stream, Digits, Shr, Shl;
    NothingRead(5, 8);
    assert value[..0] == [];
    output := "";
    var buffer: nat, bits: nat := 0, 0;
    ghost var emitted: seq<nat> := [];
    for i := 0 to |value|
      invariant bits < 5
      invariant Below(emitted, 32) && output == Letters(emitted)
      invariant Repacked(emitted, 5, buffer, bits, value[..i], 8)
    {
      AbsorbByte(emitted, 5, buffer, bits, value[..i], value[i]);
      assert value[..i + 1] == value[..i] + [value[i]];
      buffer := Word(Shl(buffer, 8) + value[i]);
      bits := bits + 8;
      while bits >= 5
        invariant bits < 13
        invariant Below(emitted, 32) && output == Letters(emitted)
        invariant Repacked(emitted, 5, buffer, bits, value[..i + 1], 8)
      {
        var index := Shr(buffer, bits - 5) % 32;
        EmitSymbol(emitted, buffer, bits, value[..i + 1]);
        output := output + [Letter(index)];
        emitted := emitted + [index];
        bits := bits - 5;
      }
    }
    assert value[..|value|] == value;
    LastSymbol(emitted, buffer, bits, value);
    if bits > 0 {
      var index := Word(Shl(buffer, 5 - bits)) % 32;
      LettersPush(emitted, index);
      output := output + [Letter(index)];
    }
  }

  lemma EmitSymbol(emitted: seq<nat>, buffer: nat, bits: nat, read: seq<byte>)
    requires 5 <= bits && Below(emitted, 32) && Repacked(emitted, 5, buffer, bits, read, 8)
    ensures var index := Shr(buffer, bits - 5) % 32;
            Repacked(emitted + [index], 5, buffer, bits - 5, read, 8)
            && Letters(emitted + [index]) == Letters(emitted) + [Letter(index)]
  {
    Powers();
    Emit(emitted, 5, buffer, bits, read, 8, 32);
    LettersPush(emitted, Shr(buffer, bits - 5) % 32);
  }

  lemma LettersPush(indices: seq<nat>, x: nat)
    requires Below(indices, 32) && x < 32
    ensures Letters(indices + [x]) == Letters(indices) + [Letter(x)]
  {
  }

  lemma LastSymbol(emitted: seq<nat>, buffer: nat, bits: nat, value: seq<byte>)
    requires Below(emitted, 32) && bits < 5 && Repacked(emitted, 5, buffer, bits, value, 8)
    ensures Symbols(value) == if bits == 0 then emitted else emitted + [Word(Shl(buffer, 5 - bits)) % 32]
  {
    if bits == 0 {
      EmittedSymbols(emitted, value, 0);
    } else {
      var last := Word(Shl(buffer, 5 - bits)) % 32;
      FillSymbol(buffer, bits);
      StreamPush(emitted, last, 5);
      Regroup(Stream(emitted, 5), Digits(buffer, bits), Zeros(5 - bits));
      hide Digits, Stream, Shl, Word, Symbols, Zeros;
      EmittedSymbols(emitted + [last], value, 5 - bits);
    }
  }

  lemma Regroup(a: seq<bool>, b: seq<bool>, c: seq<bool>)
    ensures (a + b) + c == a + (b + c)
  {
  }

  lemma FillSymbol(buffer: nat, bits: nat)
    requires 0 < bits < 5
    ensures Digits(Word(Shl(buffer, 5 - bits)) % 32, 5) == Digits(buffer, bits) + Zeros(5 - bits)
  {
    Powers();
    ShiftIn(buffer, 0, bits, 5 - bits);
    DigitsMod(Shl(buffer, 5 - bits), 32, 5);
    DigitsMod(Word(Shl(buffer, 5 - bits)), 5, 5);
  }

  /** Symbols that spell `value` plus fewer than five zero bits are its symbols. */
  lemma EmittedSymbols(emitted: seq<nat>, value: seq<byte>, fill: nat)
    requires Below(emitted, 32) && fill < 5
    requires Stream(emitted, 5) == Stream(value, 8) + Zeros(fill)
    ensures emitted == Symbols(value)
  {
    Powers();
    StreamLength(emitted, 5);
    StreamLength(value, 8);
    FillUnique(|emitted|, |value|, fill);
    GroupsOfStream(emitted, [], 5);
    assert Stream(emitted, 5) + [] == Stream(emitted, 5);
  }

  lemma FillUnique(symbols: nat, bytes: nat, fill: nat)
    requires fill < 5 && 5 * symbols == 8 * bytes + fill
    ensures fill == Fill(bytes)
  {
  }

  method Base32Decode(text: string) returns (r: Result<seq<byte>, MfaError>)
    ensures r == Base32Bytes(text)
  {
    hide Repacked, Stream, Digits, Shr, Shl;
    NothingRead(8, 5);
    var buffer: nat, bits: nat := 0, 0;
    var output: seq<byte> := [];
    var symbols := Significant(text);
    ghost var read: seq<nat> := [];
    for i := 0 to |symbols|
      invariant bits < 8
      invariant Indices(symbols[..i]) == Some(read)
      invariant Repacked(output, 8, buffer, bits, read, 5)
    {
      IndicesPush(symbols, i);
      var letter := LetterIndex(symbols[i]);
      if letter == None {
        return Err(InvalidSeed);
      }
      var index := letter.value;
      AbsorbSymbol(output, buffer, bits, read, index);
      buffer := Word(Shl(buffer, 5) + index);
      bits := bits + 5;
      read := read + [index];
      if bits >= 8 {
        EmitByte(output, buffer, bits, read);
        output := output + [Shr(buffer, bits - 8) % 256];
        bits := bits - 8;
      }
    }
    assert symbols[..|symbols|] == symbols;
    WholeBytes(output, buffer, bits, read);
    if output == [] {
      return Err(InvalidSeed);
    }
    return Ok(output);
  }

  lemma AbsorbSymbol(output: seq<byte>, buffer: nat, bits: nat, read: seq<nat>, index: nat)
    requires bits < 8 && index < 32 && Repacked(output, 8, buffer, bits, read, 5)
    ensures Repacked(output, 8, Word(Shl(buffer, 5) + index), bits + 5, read + [index], 5)
  {
    Powers();
    Absorb(output, 8, buffer, bits, read, 5, index);
  }

  lemma EmitByte(output: seq<byte>, buffer: nat, bits: nat, read: seq<nat>)
    requires 8 <= bits && Repacked(output, 8, buffer, bits, read, 5)
    ensures Repacked(output + [Shr(buffer, bits - 8) % 256], 8, buffer, bits - 8, read, 5)
  {
    Powers();
    Emit(output, 8, buffer, bits, read, 5, 256);
  }

  lemma WholeBytes(output: seq<byte>, buffer: nat, bits: nat, read: seq<nat>)
    requires bits < 8 && Repacked(output, 8, buffer, bits, read, 5)
    ensures Octets(Stream(read, 5)) == output
  {
    Powers();
    GroupsOfStream(output, Digits(buffer, bits), 8);
  }

  lemma IndicesPush(text: string, i: nat)
    requires i < |text| && Indices(text[..i]).Some?
    ensures LetterIndex(text[i]) == None ==> Indices(text) == None
    ensures LetterIndex(text[i]).Some? ==>
              Indices(text[..i + 1]) == Some(Indices(text[..i]).value + [LetterIndex(text[i]).value])
  {
    assert text[..i + 1][..i] == text[..i];
    if Indices(text).Some? {
      IndicesOfPrefix(text, i + 1);
    }
  }

  lemma {:induction false} IndicesOfPrefix(text: string, i: nat)
    requires i <= |text| && Indices(text).Some?
    ensures Indices(text[..i]).Some?
  {
    if i < |text| {
      IndicesOfPrefix(text[..|text| - 1], i);
      assert text[..|text| - 1][..i] == text[..i];
    } else {
      assert text[..i] == text;
    }
  }

  lemma {:induction false} LettersIndices(indices: seq<nat>)
    requires Below(indices, 32)
    ensures Indices(Letters(indices)) == Some(indices)
  {
    if indices != [] {
      var front := indices[..|indices| - 1];
      LettersIndices(front);
      assert Letters(indices)[..|indices| - 1] == Letters(front);
      assert indices == front + [indices[|indices| - 1]];
    }
  }

  lemma {:induction false} LettersSignificant(indices: seq<nat>)
    requires Below(indices, 32)
    ensures Significant(Letters(indices)) == Letters(indices)
  {
    if indices != [] {
      LettersSignificant(indices[1..]);
      assert Letters(indices)[1..] == Letters(indices[1..]);
    }
  }

  /** Decoding inverts encoding on every non-empty seed; the empty encoding is refused. */
  lemma Base32RoundTrip(value: seq<byte>)
    ensures Base32Bytes(Base32Text(value)) == if value == [] then Err(InvalidSeed) else Ok(value)
  {
    Powers();
    LettersSignificant(Symbols(value));
    LettersIndices(Symbols(value));
    SymbolsSpell(value);
    GroupsOfStream(value, Zeros(Fill(|value|)), 8);
  }

  lemma SymbolsSpell(value: seq<byte>)
    ensures Stream(Symbols(value), 5) == Stream(value, 8) + Zeros(Fill(|value|))
  {
    var blocks := (8 * |value| + Fill(|value|)) / 5;
    StreamLength(value, 8);
    FillBlocks(|value|, blocks);
    WholeBlocks(Stream(value, 8) + Zeros(Fill(|value|)), 5, blocks);
  }

  lemma FillBlocks(bytes: nat, blocks: nat)
    requires blocks == (8 * bytes + Fill(bytes)) / 5
    ensures 8 * bytes + Fill(bytes) == 5 * blocks
  {
  }

  lemma Base32Length(value: seq<byte>)
    ensures |Base32Text(value)| == (8 * |value| + 4) / 5
  {
    SymbolsSpell(value);
    StreamLength(Symbols(value), 5);
    StreamLength(value, 8);
  }

  // ---- One-time passwords (RFC 4226, RFC 6238) ----

  /** HMAC-SHA-1 is any function with 20-byte results. */
  type Hmac = (seq<byte>, seq<byte>) -> seq<byte>

  ghost predicate IsHmacSha1(hmac: Hmac)
  {
    forall k: seq<byte>, m: seq<byte> :: |hmac(k, m)| == 20
  }

  function BigEndian64(step: nat): seq<byte>
  {
    Octets(Digits(step, 64))
  }

  function ZeroPad(s: string, width: nat): (r: string)
    ensures |r| == if |s| < width then width else |s|
    decreases width - |s|
  {
    if |s| < width then ZeroPad("0" + s, width) else s
  }

  /** Dynamic truncation (section 5.3 of RFC 4226): 31 bits at an offset the last byte gives. */
  function Truncate(digest: seq<nat>): (r: nat)
    requires |digest| == 20 && Below(digest, 256)
    ensures r < 0x8000_0000
  {
    var offset := digest[19] % 16;
    digest[offset] % 128 * 0x100_0000 + digest[offset + 1] * 0x1_0000 + digest[offset + 2] * 0x100 + digest[offset + 3]
  }

  /** The truncated HMAC to `digits` decimal places; ten or more digits overflow 32 bits. */
  function TotpAtStep(hmac: Hmac, secret: seq<byte>, step: nat, digits: nat): Result<string, MfaError>
    requires IsHmacSha1(hmac)
  {
    var binary := Truncate(hmac(secret, BigEndian64(step)));
    if Pow10(digits) > 0xFFFF_FFFF then Err(InvalidCode)
    else Ok(ZeroPad(Decimal(binary % Pow10(digits)), digits))
  }

  function WithoutSpace(code: string): string
  {
    if code == "" then ""
    else (if IsSpace(code[0]) then "" else [code[0]]) + WithoutSpace(code[1..])
  }

  function NormalizeCode(code: string): Result<string, MfaError>
  {
    var normalized := WithoutSpace(code);
    if normalized == "" || !AllDigits(normalized) then Err(InvalidCode) else Ok(normalized)
  }

  function StepAt(config: TotpConfig, time: nat): nat
  {
    time / (if config.periodSeconds == 0 then 1 else config.periodSeconds)
  }

  function AsI64(x: nat): int
    requires x < 0x1_0000_0000_0000_0000
  {
    if x < 0x8000_0000_0000_0000 then x else x - 0x1_0000_0000_0000_0000
  }

  ghost predicate InWindow(center: int, drift: int, step: nat)
  {
    center - drift <= step <= center + drift
  }

  ghost predicate AcceptedCode(hmac: Hmac, secret: seq<byte>, digits: nat, code: string, center: int, drift: int)
    requires IsHmacSha1(hmac)
  {
    exists step: nat :: InWindow(center, drift, step) && TotpAtStep(hmac, secret, step, digits) == Ok(code)
  }

  method VerifyTotpCode(hmac: Hmac, config: TotpConfig, code: string, time: nat, drift: int)
    returns (r: Result<bool, MfaError>)
    requires IsHmacSha1(hmac) && time < 0x1_0000_0000_0000_0000
    ensures UpperAll(config.algorithm) != "SHA1" ==> r == Err(UnsupportedAlgorithm(config.algorithm))
    ensures UpperAll(config.algorithm) == "SHA1" ==>
              match (NormalizeCode(code), Base32Bytes(config.secretBase32))
              case (Err(e), _) => r == Err(e)
              case (_, Err(e)) => r == Err(e)
              case (Ok(digits), Ok(secret)) =>
                var center := AsI64(StepAt(config, time));
                if Pow10(config.digits) <= 0xFFFF_FFFF
                then r == Ok(AcceptedCode(hmac, secret, config.digits, digits, center, drift))
                else r == if center + drift < 0 || drift < 0 then Ok(false) else Err(InvalidCode)
  {
    if UpperAll(config.algorithm) != "SHA1" {
      return Err(UnsupportedAlgorithm(config.algorithm));
    }
    var normalized := NormalizeCode(code);
    if normalized.Err? {
      return Err(normalized.error);
    }
    var secret := Base32Decode(config.secretBase32);
    if secret.Err? {
      return Err(secret.error);
    }
    r := MatchSteps(hmac, secret.value, config.digits, normalized.value, AsI64(StepAt(config, time)), drift);
  }

  /** The loop of `verify_totp_code` over the steps around `center`. */
  method MatchSteps(hmac: Hmac, secret: seq<byte>, digits: nat, code: string, center: int, drift: int)
    returns (r: Result<bool, MfaError>)
    requires IsHmacSha1(hmac)
    ensures Pow10(digits) <= 0xFFFF_FFFF ==> r == Ok(AcceptedCode(hmac, secret, digits, code, center, drift))
    ensures Pow10(digits) > 0xFFFF_FFFF ==>
              r == if center + drift < 0 || drift < 0 then Ok(false) else Err(InvalidCode)
  {
    var offset := -drift;
    while offset <= drift
      invariant offset <= drift + 1 || drift < 0
      invariant forall step: nat :: InWindow(center, drift, step) && step < center + offset ==>
          TotpAtStep(hmac, secret, step, digits) != Ok(code)
      invariant Pow10(digits) > 0xFFFF_FFFF ==> offset == -drift || center + offset <= 0
      decreases drift - offset
    {
      var candidateStep := center + offset;
      if candidateStep >= 0 {
        var candidate := TotpAtStep(hmac, secret, candidateStep, digits);
        if candidate.Err? {
          return Err(candidate.error);
        }
        if candidate.value == code {
          assert InWindow(center, drift, candidateStep);
          return Ok(true);
        }
      }
      offset := offset + 1;
    }
    return Ok(false);
  }

  lemma {:induction false} PaddedDigits(s: string, width: nat)
    requires AllDigits(s)
    ensures AllDigits(ZeroPad(s, width))
    decreases width - |s|
  {
    if |s| < width {
      PaddedDigits("0" + s, width);
    }
  }

  lemma {:induction false} DigitsNormalize(code: string)
    requires AllDigits(code)
    ensures WithoutSpace(code) == code
  {
    if code != "" {
      assert code[0] in code && forall c <- code[1..] :: c in code;
      DigitsNormalize(code[1..]);
    }
  }

  /** A generated code has exactly `digits` decimal places and is its own normal form. */
  lemma GeneratedCodeShape(hmac: Hmac, secret: seq<byte>, step: nat, digits: nat)
    requires IsHmacSha1(hmac) && 1 <= digits <= 9
    ensures var code := TotpAtStep(hmac, secret, step, digits);
            code.Ok? && |code.value| == digits && AllDigits(code.value) && NormalizeCode(code.value) == code
  {
    PowersFit(digits);
    var n := Truncate(hmac(secret, BigEndian64(step))) % Pow10(digits);
    DecimalLength(n, digits);
    PaddedDigits(Decimal(n), digits);
    DigitsNormalize(ZeroPad(Decimal(n), digits));
  }

  lemma PowersFit(digits: nat)
    requires digits <= 9
    ensures Pow10(digits) <= 1_000_000_000
  {
    if digits < 9 {
      PowersFit9(digits);
    }
  }

  lemma {:induction false} PowersFit9(digits: nat)
    requires digits <= 9
    ensures Pow10(digits) <= Pow10(9) == 1_000_000_000
    decreases 9 - digits
  {
    if digits < 9 {
      PowersFit9(digits + 1);
    }
  }

  lemma StepsWithinDrift(t0: nat, t: nat, period: nat, drift: nat)
    requires period > 0 && t <= t0 + drift * period
    ensures t / period <= t0 / period + drift
  {
    var q := t / period - t0 / period - drift;
    if q >= 1 {
      AtLeast(q, period);
    }
    DivisionParts(t, period);
    DivisionParts(t0, period);
    assert q * period == t / period * period - t0 / period * period - drift * period;
  }

  lemma DivisionParts(x: nat, d: nat)
    requires d > 0
    ensures x / d * d <= x < x / d * d + d
  {
  }

  /** A seed enrolled in Base32 yields codes that every clock within the drift accepts. */
  lemma GeneratedCodeAccepted(hmac: Hmac, config: TotpConfig, secret: seq<byte>, t0: nat, t: nat, drift: nat)
    requires IsHmacSha1(hmac) && secret != [] && config.secretBase32 == Base32Text(secret)
    requires 1 <= config.digits <= 9 && config.periodSeconds > 0
    requires t0 < 0x8000_0000_0000_0000 && t < 0x8000_0000_0000_0000
    requires t0 - drift * config.periodSeconds <= t <= t0 + drift * config.periodSeconds
    ensures var code := TotpAtStep(hmac, secret, StepAt(config, t0), config.digits);
            && code.Ok? && NormalizeCode(code.value) == code && Base32Bytes(config.secretBase32) == Ok(secret)
            && StepAt(config, t) < 0x8000_0000_0000_0000
            && AcceptedCode(hmac, secret, config.digits, code.value, AsI64(StepAt(config, t)), drift)
  {
    Base32RoundTrip(secret);
    GeneratedCodeShape(hmac, secret, StepAt(config, t0), config.digits);
    StepsWithinDrift(t0, t, config.periodSeconds, drift);
    StepsWithinDrift(t, t0, config.periodSeconds, drift);
    AtMostDividend(t, config.periodSeconds);
    assert InWindow(StepAt(config, t), drift, StepAt(config, t0));
  }

  lemma AtMostDividend(x: nat, d: nat)
    requires d > 0
    ensures x / d <= x
  {
    DivisionParts(x, d);
    NonNegativeProduct(x / d, d - 1);
    assert x / d * (d - 1) == x / d * d - x / d;
  }
}
