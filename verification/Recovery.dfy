/** `recovery.rs`: mnemonic recovery phrases. */
module Recovery {
  import opened Wrappers
  import opened Bits
  import opened Text

  /** `MNEMONIC_WORDS[index]`. */
  function MnemonicWord(index: nat): string
    requires index < 64
  {
    match index
    case 0 => "anchor" case 1 => "artist" case 2 => "atlas" case 3 => "autumn"
    case 4 => "beacon" case 5 => "binary" case 6 => "border" case 7 => "brisk"
    case 8 => "canyon" case 9 => "cedar" case 10 => "cipher" case 11 => "cobalt"
    case 12 => "comet" case 13 => "coral" case 14 => "delta" case 15 => "dune"
    case 16 => "ember" case 17 => "fabric" case 18 => "falcon" case 19 => "field"
    case 20 => "forest" case 21 => "frost" case 22 => "garden" case 23 => "harbor"
    case 24 => "hazel" case 25 => "honor" case 26 => "index" case 27 => "ivory"
    case 28 => "jacket" case 29 => "juniper" case 30 => "kernel" case 31 => "lantern"
    case 32 => "legend" case 33 => "magnet" case 34 => "meadow" case 35 => "mirror"
    case 36 => "nebula" case 37 => "nickel" case 38 => "onyx" case 39 => "orbit"
    case 40 => "prairie" case 41 => "quartz" case 42 => "raven" case 43 => "river"
    case 44 => "rocket" case 45 => "saffron" case 46 => "signal" case 47 => "silver"
    case 48 => "summit" case 49 => "temple" case 50 => "thunder" case 51 => "timber"
    case 52 => "ultra" case 53 => "velvet" case 54 => "violet" case 55 => "voyage"
    case 56 => "walnut" case 57 => "winter" case 58 => "xenon" case 59 => "yellow"
    case 60 => "zenith" case 61 => "zephyr" case 62 => "zinc" case 63 => "zircon"
  }

  const ENTROPY_BYTES := 18
  const PHRASE_WORDS := 24

  /** `words.join(" ")`. */
  function Join(words: seq<string>): string
  {
    if words == [] then "" else if |words| == 1 then words[0] else words[0] + " " + Join(words[1..])
  }

  function WordsAt(indices: seq<nat>): seq<string>
    requires Below(indices, 64)
  {
    seq(|indices|, i requires 0 <= i < |indices| => MnemonicWord(indices[i]))
  }

  /** The six-bit blocks of the entropy. */
  function PhraseIndices(entropy: seq<byte>): (r: seq<nat>)
    ensures Below(r, 64)
  {
    GroupsBounded(Stream(entropy, 8), 6);
    Powers();
    Groups(Stream(entropy, 8), 6)
  }

  function Phrase(entropy: seq<byte>): string
  {
    Join(WordsAt(PhraseIndices(entropy)))
  }

  /** The loop of `generate_mnemonic_phrase`; `entropy` is its random input. */
  method GenerateMnemonicPhrase(entropy: seq<byte>) returns (phrase: string)
    requires |entropy| == ENTROPY_BYTES
    ensures phrase == Phrase(entropy)
    ensures |PhraseIndices(entropy)| == PHRASE_WORDS
  {
    hide Repacked, Stream, Digits, Shr, Shl;
    NothingRead(6, 8);
    assert entropy[..0] == [];
    var words: seq<string> := [];
    var buffer: nat, bits: nat := 0, 0;
    ghost var indices: seq<nat> := [];
    for i := 0 to |entropy|
      invariant bits < 6
      invariant Below(indices, 64) && words == WordsAt(indices)
      invariant Repacked(indices, 6, buffer, bits, entropy[..i], 8)
    {
      AbsorbByte(indices, 6, buffer, bits, entropy[..i], entropy[i]);
      assert entropy[..i + 1] == entropy[..i] + [entropy[i]];
      buffer := Word(Shl(buffer, 8) + entropy[i]);
      bits := bits + 8;
      while bits >= 6
        invariant bits < 14
        invariant Below(indices, 64) && words == WordsAt(indices)
        invariant Repacked(indices, 6, buffer, bits, entropy[..i + 1], 8)
      {
        var index := Shr(buffer, bits - 6) % 64;
        EmitWord(indices, buffer, bits, entropy[..i + 1]);
        words := words + [MnemonicWord(index)];
        indices := indices + [index];
        bits := bits - 6;
      }
    }
    assert entropy[..|entropy|] == entropy;
    NothingPending(indices, buffer, bits, entropy);
    phrase := Join(words);
  }

  lemma EmitWord(indices: seq<nat>, buffer: nat, bits: nat, read: seq<byte>)
    requires 6 <= bits && Below(indices, 64) && Repacked(indices, 6, buffer, bits, read, 8)
    ensures var index := Shr(buffer, bits - 6) % 64;
            Repacked(indices + [index], 6, buffer, bits - 6, read, 8)
            && WordsAt(indices + [index]) == WordsAt(indices) + [MnemonicWord(index)]
  {
    hide Repacked, Stream, Digits, Shr;
    Powers();
    Emit(indices, 6, buffer, bits, read, 8, 64);
    WordsPush(indices, Shr(buffer, bits - 6) % 64);
  }

  lemma WordsPush(indices: seq<nat>, x: nat)
    requires Below(indices, 64) && x < 64
    ensures WordsAt(indices + [x]) == WordsAt(indices) + [MnemonicWord(x)]
  {
    var words := WordsAt(indices + [x]);
    assert words[..|indices|] == WordsAt(indices);
    assert words == words[..|indices|] + [words[|indices|]];
  }

  /** 144 bits fill 24 words exactly. */
  lemma NothingPending(indices: seq<nat>, buffer: nat, bits: nat, entropy: seq<byte>)
    requires |entropy| == ENTROPY_BYTES && Below(indices, 64) && bits < 6
    requires Repacked(indices, 6, buffer, bits, entropy, 8)
    ensures bits == 0 && |indices| == PHRASE_WORDS && indices == PhraseIndices(entropy)
  {
    Powers();
    hide Digits, Stream, Pow2, Groups;
    StreamLength(indices, 6);
    StreamLength(entropy, 8);
    assert 6 * |indices| + bits == |Stream(indices, 6) + Digits(buffer, bits)| == 144;
    GroupsOfStream(indices, Digits(buffer, bits), 6);
  }

  // ---- Distinct entropy gives distinct phrases ----

  /** The first three letters, as one number: strictly increasing along the word list. */
  function Initials(word: string): nat
    requires |word| >= 3
  {
    word[0] as nat * 0x1_0000 + word[1] as nat * 0x100 + word[2] as nat
  }

  predicate PlainWord(word: string)
  {
    |word| >= 3 && forall i :: 0 <= i < |word| ==> 'a' <= word[i] <= 'z'
  }

  lemma WordsArePlain(i: nat)
    requires i < 64
    ensures PlainWord(MnemonicWord(i))
  {
    if i < 16 {
      FirstWordsArePlain(i);
    } else if i < 32 {
      SecondWordsArePlain(i);
    } else if i < 48 {
      ThirdWordsArePlain(i);
    } else if i < 56 {
      FourthWordsArePlain(i);
    } else {
      LastWordsArePlain(i);
    }
  }

  lemma FirstWordsArePlain(i: nat)
    requires i < 16
    ensures PlainWord(MnemonicWord(i))
  {
  }

  lemma SecondWordsArePlain(i: nat)
    requires 16 <= i < 32
    ensures PlainWord(MnemonicWord(i))
  {
  }

  lemma ThirdWordsArePlain(i: nat)
    requires 32 <= i < 48
    ensures PlainWord(MnemonicWord(i))
  {
  }

  lemma FourthWordsArePlain(i: nat)
    requires 48 <= i < 56
    ensures PlainWord(MnemonicWord(i))
  {
  }

  lemma LastWordsArePlain(i: nat)
    requires 56 <= i < 64
    ensures PlainWord(MnemonicWord(i))
  {
  }

  lemma NeighboursIncrease(i: nat)
    requires i < 63
    ensures PlainWord(MnemonicWord(i)) && PlainWord(MnemonicWord(i + 1))
    ensures Initials(MnemonicWord(i)) < Initials(MnemonicWord(i + 1))
  {
    WordsArePlain(i);
    WordsArePlain(i + 1);
    if i < 16 {
      FirstNeighbours(i);
    } else if i < 32 {
      SecondNeighbours(i);
    } else if i < 48 {
      ThirdNeighbours(i);
    } else {
      LastNeighbours(i);
    }
  }

  lemma FirstNeighbours(i: nat)
    requires i < 16
    ensures |MnemonicWord(i)| >= 3 && |MnemonicWord(i + 1)| >= 3
    ensures Initials(MnemonicWord(i)) < Initials(MnemonicWord(i + 1))
  {
  }

  lemma SecondNeighbours(i: nat)
    requires 16 <= i < 32
    ensures |MnemonicWord(i)| >= 3 && |MnemonicWord(i + 1)| >= 3
    ensures Initials(MnemonicWord(i)) < Initials(MnemonicWord(i + 1))
  {
  }

  lemma ThirdNeighbours(i: nat)
    requires 32 <= i < 48
    ensures |MnemonicWord(i)| >= 3 && |MnemonicWord(i + 1)| >= 3
    ensures Initials(MnemonicWord(i)) < Initials(MnemonicWord(i + 1))
  {
  }

  lemma LastNeighbours(i: nat)
    requires 48 <= i < 63
    ensures |MnemonicWord(i)| >= 3 && |MnemonicWord(i + 1)| >= 3
    ensures Initials(MnemonicWord(i)) < Initials(MnemonicWord(i + 1))
  {
  }

  lemma {:induction false} WordsIncrease(i: nat, j: nat)
    requires i < j < 64
    ensures PlainWord(MnemonicWord(i)) && PlainWord(MnemonicWord(j))
    ensures Initials(MnemonicWord(i)) < Initials(MnemonicWord(j))
  {
    NeighboursIncrease(j - 1);
    if i < j - 1 {
      WordsIncrease(i, j - 1);
    }
  }

  /** The words of a phrase: maximal runs of characters that are not white space. */
  function SplitWords(value: string): seq<string>
    decreases |value|
  {
    if value == "" then []
    else if IsSpace(value[0]) then SplitWords(value[1..])
    else
      var n := RunLength(value);
      [value[..n]] + SplitWords(value[n..])
  }

  function RunLength(value: string): (n: nat)
    ensures n <= |value| && (value != "" && !IsSpace(value[0]) ==> n > 0)
    ensures forall i :: 0 <= i < n ==> !IsSpace(value[i])
  {
    if value == "" || IsSpace(value[0]) then 0 else 1 + RunLength(value[1..])
  }

  function LowerWords(words: seq<string>): seq<string>
  {
    seq(|words|, i requires 0 <= i < |words| => LowerAll(words[i]))
  }

  function NormalizeMnemonicPhrase(value: string): string
  {
    Join(LowerWords(SplitWords(value)))
  }

  predicate Solid(word: string)
  {
    word != "" && forall i :: 0 <= i < |word| ==> !IsSpace(word[i])
  }

  lemma {:induction false} RunOfWord(word: string, rest: string)
    requires forall i :: 0 <= i < |word| ==> !IsSpace(word[i])
    requires rest == "" || IsSpace(rest[0])
    ensures RunLength(word + rest) == |word|
  {
    if word == "" {
      assert word + rest == rest;
    } else {
      RunOfWord(word[1..], rest);
      assert (word + rest)[1..] == word[1..] + rest;
    }
  }

  lemma {:induction false} SplitOfJoin(words: seq<string>)
    requires forall i :: 0 <= i < |words| ==> Solid(words[i])
    ensures SplitWords(Join(words)) == words
  {
    if words == [] {
    } else if |words| == 1 {
      assert words[0] + "" == words[0];
      RunOfWord(words[0], "");
      assert words[0][..|words[0]|] == words[0];
      assert words[0][|words[0]|..] == "";
    } else {
      var w, tail := words[0], " " + Join(words[1..]);
      assert Join(words) == w + tail;
      RunOfWord(w, tail);
      assert (w + tail)[..|w|] == w;
      assert (w + tail)[|w|..] == tail;
      assert tail[1..] == Join(words[1..]);
      SplitOfJoin(words[1..]);
    }
  }

  lemma {:induction false} SplitIsSolid(value: string)
    ensures forall i :: 0 <= i < |SplitWords(value)| ==> Solid(SplitWords(value)[i])
    decreases |value|
  {
    if value == "" {
    } else if IsSpace(value[0]) {
      SplitIsSolid(value[1..]);
    } else {
      SplitIsSolid(value[RunLength(value)..]);
    }
  }

  /** Only the words matter, not their case or spacing: any rendering of the same words, in
      either case, normalizes to the same text. That text is the lower-cased words with single
      spaces between them, and a fixed point. */
  lemma NormalizationCanonical(value: string)
    ensures var normal := NormalizeMnemonicPhrase(value);
            && normal == Join(LowerWords(SplitWords(value)))
            && SplitWords(normal) == LowerWords(SplitWords(value))
            && InLower(normal) && SingleSpaced(normal)
            && NormalizeMnemonicPhrase(normal) == normal
    ensures forall v: string | LowerWords(SplitWords(v)) == LowerWords(SplitWords(value)) ::
              NormalizeMnemonicPhrase(v) == NormalizeMnemonicPhrase(value)
  {
    var words := SplitWords(value);
    var lowered := LowerWords(words);
    SplitIsSolid(value);
    LoweredSolid(words);
    SplitOfJoin(lowered);
    JoinSpaced(lowered);
  }

  lemma LoweredSolid(words: seq<string>)
    requires forall i :: 0 <= i < |words| ==> Solid(words[i])
    ensures forall i :: 0 <= i < |words| ==> Solid(LowerWords(words)[i]) && InLower(LowerWords(words)[i])
    ensures LowerWords(LowerWords(words)) == LowerWords(words)
  {
    var lowered := LowerWords(words);
    forall i | 0 <= i < |words| ensures Solid(lowered[i]) && InLower(lowered[i]) && LowerAll(lowered[i]) == lowered[i] {
      assert lowered[i] == LowerAll(words[i]);
    }
  }

  predicate InLower(s: string)
  {
    forall i :: 0 <= i < |s| ==> Lower(s[i]) == s[i]
  }

  /** No white space but single spaces between other characters. */
  predicate SingleSpaced(s: string)
  {
    forall i :: 0 <= i < |s| && IsSpace(s[i]) ==>
      s[i] == ' ' && 0 < i < |s| - 1 && !IsSpace(s[i - 1]) && !IsSpace(s[i + 1])
  }

  /** No space stands first, last or beside another. */
  lemma {:induction false} JoinSpaced(words: seq<string>)
    requires forall i :: 0 <= i < |words| ==> Solid(words[i]) && InLower(words[i])
    ensures InLower(Join(words)) && SingleSpaced(Join(words))
    ensures words != [] && words[0] != "" ==> Join(words) != "" && Join(words)[0] == words[0][0]
    decreases |words|
  {
    if |words| > 1 {
      JoinSpaced(words[1..]);
    }
  }

  lemma PhraseWords(entropy: seq<byte>)
    ensures SplitWords(Phrase(entropy)) == WordsAt(PhraseIndices(entropy))
  {
    var words := WordsAt(PhraseIndices(entropy));
    forall i | 0 <= i < |words| ensures Solid(words[i]) {
      WordsArePlain(PhraseIndices(entropy)[i]);
    }
    SplitOfJoin(words);
  }

  /** A phrase is its own normal form. */
  lemma PhraseNormal(entropy: seq<byte>)
    ensures NormalizeMnemonicPhrase(Phrase(entropy)) == Phrase(entropy)
  {
    var words := WordsAt(PhraseIndices(entropy));
    PhraseWords(entropy);
    forall i | 0 <= i < |words| ensures LowerAll(words[i]) == words[i] {
      WordsArePlain(PhraseIndices(entropy)[i]);
    }
    assert LowerWords(words) == words;
  }

  /** No entropy is lost: equal phrases come from equal entropy. */
  lemma PhraseInjective(a: seq<byte>, b: seq<byte>)
    requires |a| == |b| == ENTROPY_BYTES && Phrase(a) == Phrase(b)
    ensures a == b
  {
    var x, y := PhraseIndices(a), PhraseIndices(b);
    PhraseWords(a);
    PhraseWords(b);
    forall i | 0 <= i < |x| ensures i < |y| && x[i] == y[i] {
      assert WordsAt(x)[i] == WordsAt(y)[i];
      if x[i] < y[i] {
        WordsIncrease(x[i], y[i]);
      } else if y[i] < x[i] {
        WordsIncrease(y[i], x[i]);
      }
    }
    assert |x| == |WordsAt(x)| == |WordsAt(y)| == |y| && x == y;
    WholeEntropy(a);
    WholeEntropy(b);
    Powers();
    StreamInjective(a, b, 8);
  }

  lemma WholeEntropy(entropy: seq<byte>)
    requires |entropy| == ENTROPY_BYTES
    ensures Stream(PhraseIndices(entropy), 6) == Stream(entropy, 8)
  {
    StreamLength(entropy, 8);
    WholeBlocks(Stream(entropy, 8), 6, PHRASE_WORDS);
  }
}
