/** For which secrets the redaction of `broker_daemon.rs` is complete, exactly. The literal text of
    a secret is its shortest spelling, so it is replaced last, and markers put in its place can
    join with the text around them to spell it again. */
module RedactionLimits {
  import opened Wrappers
  import opened Bits
  import opened Redaction

  // ---- Markers laid over a word ----

  /** What of `w` precedes and follows a marker laid over it at offset `i`. */
  function Head(w: bytes, i: int): bytes
    requires i < |w|
  {
    if i <= 0 then [] else w[..i]
  }

  function Rest(w: bytes, i: int): bytes
    requires -|MARKER| < i
  {
    if i + |MARKER| >= |w| then [] else w[i + |MARKER|..]
  }

  predicate Over(w: bytes, i: int)
  {
    -|MARKER| < i < |w|
  }

  /** Marker and word agree wherever both have a byte. */
  predicate Fits(w: bytes, i: int)
  {
    Over(w, i) && forall p :: 0 <= p < |w| && 0 <= p - i < |MARKER| ==> w[p] == MARKER[p - i]
  }

  /** After its head the word is the leftmost match. */
  predicate ComesFirst(w: bytes, i: int)
    requires w != [] && Over(w, i)
  {
    !Contains(Head(w, i) + w[..|w| - 1], w)
  }

  /** Replacing the word in this text puts a marker where it fits over the word. */
  function Probe(w: bytes, i: int): bytes
    requires Over(w, i)
  {
    Head(w, i) + w + Rest(w, i)
  }

  lemma OneLater(t: bytes, q: int, w: bytes)
    requires t != [] && 0 <= q
    ensures At(t[1..], q, w) <==> At(t, q + 1, w)
  {
    assert q + |w| <= |t[1..]| ==> t[1..][q..q + |w|] == t[q + 1..q + 1 + |w|];
  }

  lemma KeepsByte(t: bytes, w: bytes)
    requires w != [] && |t| >= |w| && !(w <= t)
    ensures Replace(t, w) == [t[0]] + Replace(t[1..], w)
  {
  }

  lemma Cons(x: byte, y: bytes, z: bytes)
    ensures [x] + (y + z) == ([x] + y) + z
  {
  }

  lemma {:induction false} ReplaceAfter(a: bytes, t: bytes, w: bytes)
    requires w != [] && w <= t && forall p :: 0 <= p < |a| ==> !At(a + t, p, w)
    ensures Replace(a + t, w) == a + (MARKER + Replace(t[|w|..], w))
    decreases |a|
  {
    if a == [] {
      assert a + t == t;
    } else {
      assert !At(a + t, 0, w);
      assert (a + t)[1..] == a[1..] + t;
      forall p | 0 <= p < |a[1..]| ensures !At(a[1..] + t, p, w) {
        OneLater(a + t, p, w);
      }
      KeepsByte(a + t, w);
      hide At, Ascii, Replace;
      ReplaceAfter(a[1..], t, w);
      Cons(a[0], a[1..], MARKER + Replace(t[|w|..], w));
      assert [a[0]] + a[1..] == a;
    }
  }

  lemma NoneBefore(w: bytes, i: int)
    requires w != [] && Over(w, i) && ComesFirst(w, i)
    ensures var a, t := Head(w, i), w + Rest(w, i);
            forall p :: 0 <= p < |a| ==> !At(a + t, p, w)
  {
    var a, t := Head(w, i), w + Rest(w, i);
    var front := a + w[..|w| - 1];
    forall p | 0 <= p < |a| ensures !At(a + t, p, w) {
      assert front[p..p + |w|] == (a + t)[p..p + |w|];
      assert At(a + t, p, w) ==> At(front, p, w);
    }
  }

  /** Where a marker fits, and the word comes first, the word is back after its replacement. */
  lemma ProbeRespells(w: bytes, i: int)
    requires w != [] && Fits(w, i) && ComesFirst(w, i)
    ensures Contains(Replace(Probe(w, i), w), w)
  {
    hide Ascii, Replace, At, Contains;
    var a, b := Head(w, i), Rest(w, i);
    NoneBefore(w, i);
    assert Probe(w, i) == a + (w + b);
    ReplaceAfter(a, w + b, w);
    assert (w + b)[|w|..] == b;
    ReplaceShort(b, w);
    var from := if i < 0 then -i else 0;
    MarkerRespells(w, i, from);
  }

  lemma ReplaceShort(t: bytes, w: bytes)
    requires |t| < |w|
    ensures Replace(t, w) == t
  {
  }

  lemma MarkerRespells(w: bytes, i: int, from: nat)
    requires w != [] && Fits(w, i) && from == if i < 0 then -i else 0
    ensures Contains(Head(w, i) + (MARKER + Rest(w, i)), w)
  {
    hide Ascii;
    Overlaid(MARKER, w, i, Head(w, i), Rest(w, i), from);
    assert At(Head(w, i) + (MARKER + Rest(w, i)), from, w);
  }

  lemma Overlaid(m: bytes, w: bytes, i: int, a: bytes, b: bytes, from: nat)
    requires -|m| < i < |w| && forall p :: 0 <= p < |w| && 0 <= p - i < |m| ==> w[p] == m[p - i]
    requires a == (if i <= 0 then [] else w[..i]) && b == (if i + |m| >= |w| then [] else w[i + |m|..])
    requires from == if i < 0 then -i else 0
    ensures var r := a + (m + b); from + |w| <= |r| && r[from..from + |w|] == w
  {
    var r := a + (m + b);
    forall p | 0 <= p < |w| ensures r[from + p] == w[p] {
      if p < i {
        assert r[from + p] == a[p];
      } else if p < i + |m| {
        assert r[from + p] == m[p - i];
      } else {
        assert r[from + p] == b[p - i - |m|];
      }
    }
  }

  // ---- Every respelling has such a probe ----

  /** Bracket-free words longer than `w` that occur in the probe occur in `t`. */
  ghost predicate ProbeWithin(w: bytes, i: int, t: bytes)
    requires Over(w, i)
  {
    forall x :: BracketFree(x) && |x| > |w| && Contains(Probe(w, i), x) ==> Contains(t, x)
  }

  lemma ByteOf(t: bytes, x: bytes, q: int, k: int)
    ensures At(t, q, x) && q <= k < q + |x| ==> t[k] == x[k - q]
  {
  }

  /** A bracket in the rest of `w` keeps longer bracket-free words out of the text's end. */
  lemma BracketBlocks(a: bytes, w: bytes, b: bytes, x: bytes, q: int)
    requires |b| < |w| && w[|w| - |b|..] == b && !BracketFree(b)
    requires BracketFree(x) && |x| > |w| && At(a + w + b, q, x)
    ensures q + |x| <= |a| + |w| && At(a + w, q, x)
  {
    var t := a + w + b;
    var h :| 0 <= h < |b| && (b[h] == '[' as int || b[h] == ']' as int);
    var late, early := |a| + |w| + h, |a| + |w| - |b| + h;
    assert t[late] == b[h];
    assert t[early] == w[|w| - |b| + h] == w[|w| - |b|..][h];
    ByteOf(t, x, q, late);
    ByteOf(t, x, q, early);
    assert (a + w)[q..q + |x|] == t[q..q + |x|];
  }

  lemma RestIsSuffix(w: bytes, i: int)
    requires w != [] && Over(w, i)
    ensures |Rest(w, i)| < |w| && w[|w| - |Rest(w, i)|..] == Rest(w, i)
  {
  }

  lemma Within(t: bytes, u: bytes, x: bytes, q: int)
    requires At(u, q, x) && exists p :: At(t, p, u)
    ensures Contains(t, x)
  {
    var p :| At(t, p, u);
    assert At(u, q, x) && At(t, p, u);
    assert Contains(u, x) && Contains(t, u);
    ContainsTransitive(t, u, x);
  }

  /** What `t` holds of a probe: head and word, and the rest too unless it has a bracket. */
  lemma ProbeHeld(w: bytes, i: int, t: bytes, before: bytes, after: bytes)
    requires w != [] && Over(w, i)
    requires t == before + Head(w, i) + w + after
    requires BracketFree(Rest(w, i)) ==> Rest(w, i) <= after
    ensures ProbeWithin(w, i, t)
  {
    hide Ascii, At, BracketFree, Head, Rest;
    var a, b := Head(w, i), Rest(w, i);
    RestIsSuffix(w, i);
    forall x | BracketFree(x) && |x| > |w| && Contains(Probe(w, i), x) ensures Contains(t, x) {
      var q :| 0 <= q <= |Probe(w, i)| && At(Probe(w, i), q, x);
      if BracketFree(b) {
        Regrouped(before, a, w, b, after);
        Middle(before, a + w + b, after[|b|..]);
        Within(t, Probe(w, i), x, q);
      } else {
        BracketBlocks(a, w, b, x, q);
        assert t == before + (a + w) + after;
        Middle(before, a + w, after);
        Within(t, a + w, x, q);
      }
    }
  }

  lemma Middle(before: bytes, u: bytes, after: bytes)
    ensures At(before + u + after, |before|, u)
  {
  }

  lemma Regrouped(before: bytes, a: bytes, w: bytes, b: bytes, after: bytes)
    requires b <= after
    ensures before + a + w + after == before + (a + w + b) + after[|b|..]
  {
    assert after == b + after[|b|..];
  }

  /** The rest of a word found in a result after a marker was there before, if it has no bracket. */
  lemma RestSurvives(w: bytes, b: bytes, after: bytes)
    requires w != [] && b <= Replace(after, w) && BracketFree(b)
    ensures b <= after
  {
    MarkerBrackets();
    forall j | 0 <= j < |b| ensures !(b[j..] <= MARKER) && !(MARKER <= b[j..]) {
      assert b[j..][0] == b[j];
    }
    PrefixSurvives(after, w, b);
  }

  predicate Caught(w: bytes, i: int)
    requires w != []
  {
    Fits(w, i) && ComesFirst(w, i)
  }

  /** A marker stands in the result at `at`, and the word begins `i` places before it. */
  lemma FitsThere(r: bytes, at: int, w: bytes, i: int)
    requires At(r, at, MARKER) && At(r, at - i, w) && Over(w, i)
    ensures Fits(w, i)
    ensures At(r, at + |MARKER|, Rest(w, i))
  {
    forall p | 0 <= p < |w| && 0 <= p - i < |MARKER| ensures w[p] == MARKER[p - i] {
      ByteOf(r, w, at - i, at - i + p);
      ByteOf(r, MARKER, at, at - i + p);
    }
    var b := Rest(w, i);
    forall q | 0 <= q < |b| ensures r[at + |MARKER| + q] == b[q] {
      ByteOf(r, w, at - i, at + |MARKER| + q);
    }
    if b != [] {
      assert r[at + |MARKER|..at + |MARKER| + |b|] == b;
    }
  }

  /** The occurrence begins inside a marker. */
  lemma CaughtInMarker(t: bytes, w: bytes, i: int)
    requires w != [] && w <= t && -|MARKER| < i <= 0 && At(Replace(t, w), -i, w)
    ensures Caught(w, i) && ProbeWithin(w, i, t)
  {
    hide Ascii, Replace, At, Contains, ProbeWithin, Fits, ComesFirst, Head, Rest, BracketFree;
    var after, r := t[|w|..], Replace(t, w);
    ReplacedFirst(t, w, after);
    MarkerFirst(after, w, r, i);
    FirstInside(w, i);
    assert [] + (MARKER + Replace(after, w)) == MARKER + Replace(after, w);
    RestInTail(w, Rest(w, i), after, r, []);
    assert t == [] + Head(w, i) + w + after;
    ProbeHeld(w, i, t, [], after);
  }

  lemma ReplacedFirst(t: bytes, w: bytes, after: bytes)
    requires w != [] && w <= t && after == t[|w|..]
    ensures Replace(t, w) == MARKER + Replace(after, w)
  {
    hide Ascii;
  }

  lemma FirstInside(w: bytes, i: int)
    requires w != [] && Over(w, i) && i <= 0
    ensures ComesFirst(w, i) && Head(w, i) == []
  {
    hide Ascii;
  }

  lemma MarkerFirst(after: bytes, w: bytes, r: bytes, i: int)
    requires w != [] && r == MARKER + Replace(after, w) && -|MARKER| < i <= 0 && At(r, -i, w)
    ensures Fits(w, i) && At(r, |MARKER|, Rest(w, i))
  {
    hide Ascii, Replace;
    assert r[0..|MARKER|] == MARKER;
    FitsThere(r, 0, w, i);
  }

  lemma RestInTail(w: bytes, b: bytes, after: bytes, r: bytes, g: bytes)
    requires w != [] && r == g + (MARKER + Replace(after, w)) && At(r, |g| + |MARKER|, b)
    ensures BracketFree(b) ==> b <= after
  {
    var n := |g| + |MARKER|;
    assert r[n..] == Replace(after, w);
    assert b == r[n..n + |b|] == Replace(after, w)[..|b|];
    if BracketFree(b) {
      RestSurvives(w, b, after);
    }
  }

  lemma AtStart(t: bytes, w: bytes)
    ensures At(t, 0, w) <==> w <= t
  {
    assert |w| <= |t| ==> t[0..|w|] == t[..|w|];
  }

  lemma AtFits(t: bytes, p: int, w: bytes)
    requires At(t, p, w)
    ensures 0 <= p && p + |w| <= |t|
  {
  }

  lemma {:induction false} FirstMatch(t: bytes, w: bytes, p: nat) returns (f: nat)
    requires w != [] && At(t, p, w)
    ensures f + |w| <= |t| && At(t, f, w) && forall q :: 0 <= q < f ==> !At(t, q, w)
    decreases p
  {
    hide At;
    AtStart(t, w);
    AtFits(t, p, w);
    if At(t, 0, w) {
      f := 0;
    } else {
      OneLater(t, p - 1, w);
      var g := FirstMatch(t[1..], w, p - 1);
      f := g + 1;
      OneLater(t, g, w);
      forall q | 1 <= q < f ensures !At(t, q, w) {
        OneLater(t, q - 1, w);
      }
    }
  }

  /** The occurrence begins in text that was kept. */
  lemma CaughtInText(t: bytes, w: bytes) returns (i: int)
    requires w != [] && |t| >= |w| && !(w <= t) && w <= Replace(t, w)
    ensures Caught(w, i) && ProbeWithin(w, i, t)
  {
    assert Contains(t, w) by {
      if !Contains(t, w) {
        ReplaceAbsent(t, w);
      }
    }
    var p :| 0 <= p <= |t| && At(t, p, w);
    i := FirstMatch(t, w, p);
    SplitAtMatch(t, w, i);
    TextFits(t, w, i, Replace(t, w), t[i + |w|..]);
  }

  lemma PrefixOf(w: bytes, g: bytes, t: bytes)
    requires g <= t
    ensures w <= g ==> w <= t
  {
  }

  /** The kept text before the first match is a proper prefix of the word. */
  lemma GapShort(g: bytes, t: bytes, w: bytes, tail: bytes)
    requires g <= t && !(w <= t) && w <= g + tail
    ensures |g| < |w| && w[..|g|] == g
  {
    assert g <= g + tail;
    ComparablePrefixes(w, g, g + tail);
    PrefixOf(w, g, t);
  }

  lemma MarkerAfter(g: bytes, w: bytes, rest: bytes)
    requires w != [] && 0 < |g| < |w| && w <= g + (MARKER + rest)
    ensures Fits(w, |g|) && At(g + (MARKER + rest), |g| + |MARKER|, Rest(w, |g|))
  {
    hide Ascii;
    var r := g + (MARKER + rest);
    assert r[|g|..|g| + |MARKER|] == MARKER;
    assert r[0..|w|] == w;
    FitsThere(r, |g|, w, |g|);
  }

  lemma TextFits(t: bytes, w: bytes, f: nat, r: bytes, after: bytes)
    requires w != [] && !(w <= t) && f + |w| <= |t| && t == t[..f] + w + after
    requires At(t, f, w) && forall p :: 0 <= p < f ==> !At(t, p, w)
    requires r == t[..f] + (MARKER + Replace(after, w)) && w <= r
    ensures Caught(w, f) && ProbeWithin(w, f, t)
  {
    hide Replace, Ascii, ProbeWithin, Fits, Contains;
    var g := t[..f];
    GapShort(g, t, w, MARKER + Replace(after, w));
    assert f > 0 by {
      assert t[0..|w|] == t[..|w|];
    }
    MarkerAfter(g, w, Replace(after, w));
    hide At;
    assert Head(w, f) == g;
    hide Head;
    assert g + w <= t;
    NotEarlier(t, g, w, f);
    RestInTail(w, Rest(w, f), after, r, g);
    hide Rest;
    assert t == [] + Head(w, f) + w + after;
    ProbeHeld(w, f, t, [], after);
  }

  lemma SplitAtMatch(t: bytes, w: bytes, f: nat)
    requires w != [] && f + |w| <= |t| && At(t, f, w) && forall p :: 0 <= p < f ==> !At(t, p, w)
    ensures t == t[..f] + w + t[f + |w|..]
    ensures Replace(t, w) == t[..f] + (MARKER + Replace(t[f + |w|..], w))
  {
    var g, u := t[..f], t[f..];
    assert t == g + u && u[..|w|] == w;
    assert u[|w|..] == t[f + |w|..];
    ReplaceAfter(g, u, w);
  }

  lemma NotEarlier(t: bytes, g: bytes, w: bytes, f: nat)
    requires w != [] && |g| == f && g + w <= t && forall p :: 0 <= p < f ==> !At(t, p, w)
    ensures !Contains(g + w[..|w| - 1], w)
  {
    var front := g + w[..|w| - 1];
    forall p | 0 <= p <= |front| ensures !At(front, p, w) {
      assert p + |w| <= |front| ==> t[p..p + |w|] == front[p..p + |w|];
      assert At(front, p, w) ==> At(t, p, w);
    }
  }

  lemma DropAt(r: bytes, w: bytes, pos: nat, n: nat)
    requires At(r, pos, w) && n <= pos
    ensures n <= |r| && At(r[n..], pos - n, w)
  {
    assert r[n..][pos - n..pos - n + |w|] == r[pos..pos + |w|];
  }

  lemma KeptShort(t: bytes, w: bytes, pos: nat)
    requires w != [] && !(w <= t) && At(Replace(t, w), pos, w)
    ensures |t| >= |w| && (pos == 0 ==> w <= Replace(t, w))
  {
  }

  lemma WithinSuffix(w: bytes, i: int, t: bytes, n: nat)
    requires Over(w, i) && n <= |t| && ProbeWithin(w, i, t[n..])
    ensures ProbeWithin(w, i, t)
  {
    forall x | BracketFree(x) && |x| > |w| && Contains(Probe(w, i), x) ensures Contains(t, x) {
      ContainsInSuffix(t, n, x);
    }
  }

  /** However the word is spelt again by its own replacement, some fitting marker explains it, and
      the probe of that marker brings no longer bracket-free word that the text did not have. */
  lemma {:induction false} RespellingCaught(t: bytes, w: bytes, pos: nat) returns (i: int)
    requires w != [] && At(Replace(t, w), pos, w)
    ensures Caught(w, i) && ProbeWithin(w, i, t)
    decreases |t|
  {
    hide ComesFirst, ProbeWithin, Contains, At, Ascii;
    var r := Replace(t, w);
    if w <= t {
      if pos < |MARKER| {
        i := 0 - pos;
        CaughtInMarker(t, w, i);
      } else {
        var after := t[|w|..];
        assert r[|MARKER|..] == Replace(after, w);
        DropAt(r, w, pos, |MARKER|);
        i := RespellingCaught(after, w, pos - |MARKER|);
        WithinSuffix(w, i, t, |w|);
      }
    } else if pos == 0 {
      KeptShort(t, w, pos);
      i := CaughtInText(t, w);
    } else {
      KeptShort(t, w, pos);
      KeepsByte(t, w);
      assert r[1..] == Replace(t[1..], w);
      DropAt(r, w, pos, 1);
      i := RespellingCaught(t[1..], w, pos - 1);
      WithinSuffix(w, i, t, 1);
    }
  }

  // ---- The literal text is replaced last ----

  lemma {:induction false} PercentLength(value: bytes)
    ensures |PercentText(value)| >= |value|
    ensures |PercentText(value)| == |value| ==> PercentText(value) == value && BracketFree(value)
  {
    if value != [] {
      var front := value[..|value| - 1];
      PercentLength(front);
      assert value == front + [value[|value| - 1]];
    }
  }

  lemma Base64Longer(secret: bytes)
    requires secret != []
    ensures |Base64(secret)| > |secret| && |Base64UrlNoPadding(secret)| > |secret|
  {
    CoreLonger(secret, false);
    CoreLonger(secret, true);
    hide Base64Core;
  }

  lemma CoreLonger(secret: bytes, url: bool)
    requires secret != []
    ensures |Base64Core(secret, url)| > |secret|
  {
    hide Groups, Stream, Digits, Zeros;
    var fill := (6 - 8 * |secret| % 6) % 6;
    WholeSixes(8 * |secret|, fill);
    var bs := Stream(secret, 8) + Zeros(fill);
    GroupsBounded(bs, 6);
    StreamLength(secret, 8);
    SixBitCount(|bs|, |Groups(bs, 6)|, |secret|);
  }

  lemma WholeSixes(bits: nat, fill: nat)
    requires fill == (6 - bits % 6) % 6
    ensures (bits + fill) % 6 == 0
  {
  }

  lemma SixBitCount(bits: nat, symbols: nat, n: nat)
    requires bits >= 8 * n && n > 0 && bits < symbols * 6 + 6 && bits % 6 == 0 && symbols * 6 <= bits
    ensures symbols > n
  {
  }

  /** Every other spelling is longer than the literal. */
  lemma OthersLonger(secret: bytes)
    requires secret != []
    ensures forall x <- Spellings(secret) :: x != secret ==> |x| > |secret| && BracketFree(x)
  {
    Base64Longer(secret);
    EncodedBracketFree(secret);
    PercentLength(secret);
    PercentBracketFree(secret);
    hide Base64, Base64UrlNoPadding, PercentText, BracketFree;
  }

  lemma EncodedBracketFree(secret: bytes)
    ensures BracketFree(Base64(secret)) && BracketFree(Base64UrlNoPadding(secret))
  {
  }

  lemma {:induction false} InsertLexMultiset(x: bytes, xs: seq<bytes>)
    ensures multiset(InsertLex(x, xs)) == multiset([x]) + multiset(xs)
  {
    if xs != [] && !LexBelow(x, xs[0]) {
      InsertLexMultiset(x, xs[1..]);
      assert xs == [xs[0]] + xs[1..];
    }
  }

  lemma {:induction false} SortLexMultiset(xs: seq<bytes>)
    ensures multiset(SortLex(xs)) == multiset(xs)
  {
    hide InsertLex, LexBelow;
    if xs != [] {
      SortLexMultiset(xs[..|xs| - 1]);
      InsertLexMultiset(xs[|xs| - 1], SortLex(xs[..|xs| - 1]));
      assert xs == xs[..|xs| - 1] + [xs[|xs| - 1]];
    }
  }

  lemma {:induction false} DedupMultiset(xs: seq<bytes>)
    ensures multiset(Dedup(xs)) <= multiset(xs)
  {
    if |xs| >= 2 {
      DedupMultiset(xs[1..]);
      assert xs == [xs[0]] + xs[1..];
    }
  }

  lemma {:induction false} DropEmptyMultiset(xs: seq<bytes>)
    ensures multiset(DropEmpty(xs)) <= multiset(xs)
  {
    if xs != [] {
      DropEmptyMultiset(xs[1..]);
      assert xs == [xs[0]] + xs[1..];
    }
  }

  lemma {:induction false} InsertLongerMultiset(x: bytes, xs: seq<bytes>)
    ensures multiset(InsertLonger(x, xs)) == multiset([x]) + multiset(xs)
  {
    if xs != [] && |x| <= |xs[0]| {
      InsertLongerMultiset(x, xs[1..]);
      assert xs == [xs[0]] + xs[1..];
    }
  }

  lemma {:induction false} LongestFirstMultiset(xs: seq<bytes>)
    ensures multiset(LongestFirst(xs)) == multiset(xs)
  {
    if xs != [] {
      LongestFirstMultiset(xs[..|xs| - 1]);
      InsertLongerMultiset(xs[|xs| - 1], LongestFirst(xs[..|xs| - 1]));
      assert xs == xs[..|xs| - 1] + [xs[|xs| - 1]];
    }
  }

  lemma SpelledOnce(secret: bytes)
    requires Utf8(secret) && !BracketFree(secret)
    ensures multiset(LongestFirst(SecretRepresentations(secret)))[secret] <= 1
  {
    hide Spellings, Utf8, SortLex, Dedup, DropEmpty, LongestFirst;
    var sorted := SortLex(Spellings(secret));
    OnceSpelt(secret);
    SortLexMultiset(Spellings(secret));
    DedupMultiset(sorted);
    DropEmptyMultiset(Dedup(sorted));
    LongestFirstMultiset(SecretRepresentations(secret));
  }

  lemma NotLonger(xs: seq<bytes>, i: int, j: int)
    requires Descending(xs)
    ensures 0 <= i < j < |xs| ==> |xs[i]| >= |xs[j]|
  {
  }

  lemma OnlyLast(xs: seq<bytes>, j: nat)
    requires Descending(xs) && j < |xs| && forall i :: 0 <= i < |xs| ==> i == j || |xs[i]| > |xs[j]|
    ensures |xs| == j + 1
  {
    NotLonger(xs, j, j + 1);
  }

  lemma ShortestLast(xs: seq<bytes>, w: bytes) returns (front: seq<bytes>)
    requires w in xs && multiset(xs)[w] <= 1 && Descending(xs)
    requires forall x <- xs :: x != w ==> |x| > |w|
    ensures xs == front + [w] && forall x :: x in front <==> x in xs && x != w
  {
    var j :| 0 <= j < |xs| && xs[j] == w;
    front := xs[..j];
    OnceIn(xs, j);
    forall i | 0 <= i < |xs| ensures i == j || |xs[i]| > |w| {
      assert xs[i] in xs;
    }
    OnlyLast(xs, j);
    assert xs == front + [w];
    forall x ensures x in front <==> x in xs && x != w {
      InFront(front, w, x);
    }
  }

  lemma InFront(front: seq<bytes>, w: bytes, x: bytes)
    requires forall i :: 0 <= i < |front| ==> front[i] != w
    ensures x in front <==> x in front + [w] && x != w
  {
  }

  /** A bracketed text is replaced once, after all its other spellings. */
  lemma LiteralLast(secret: bytes) returns (front: seq<bytes>)
    requires Utf8(secret) && !BracketFree(secret)
    ensures LongestFirst(SecretRepresentations(secret)) == front + [secret]
    ensures forall x :: x in front <==> x in Spellings(secret) && x != [] && x != secret
    ensures NonEmpty(front) && forall i :: 0 <= i < |front| ==> BracketFree(front[i]) && |front[i]| > |secret|
  {
    var ordered := LongestFirst(SecretRepresentations(secret));
    assert secret in Spellings(secret) && secret != [];
    hide Spellings, Utf8, LongestFirst, SecretRepresentations, BracketFree;
    OthersLonger(secret);
    RepresentationMembers(secret);
    LongestFirstDescending(SecretRepresentations(secret));
    SpelledOnce(secret);
    front := ShortestLast(ordered, secret);
    assert forall i :: 0 <= i < |front| ==> front[i] in front;
  }

  lemma OnceSpelt(secret: bytes)
    requires Utf8(secret) && !BracketFree(secret)
    ensures multiset(Spellings(secret))[secret] == 1
  {
    Base64Longer(secret);
    PercentLength(secret);
    assert PercentText(secret) != secret by {
      PercentBracketFree(secret);
    }
    assert Spellings(secret) == [Base64(secret), Base64UrlNoPadding(secret), secret, PercentText(secret)];
  }

  lemma OnceIn(xs: seq<bytes>, j: nat)
    requires j < |xs| && multiset(xs)[xs[j]] <= 1
    ensures forall i :: 0 <= i < |xs| && i != j ==> xs[i] != xs[j]
  {
    forall i | 0 <= i < |xs| && i != j ensures xs[i] != xs[j] {
      var a, b := if i < j then i else j, if i < j then j else i;
      assert xs == xs[..a] + [xs[a]] + xs[a + 1..b] + [xs[b]] + xs[b + 1..];
    }
  }

  lemma {:induction false} RedactSplits(t: bytes, front: seq<bytes>, w: bytes)
    requires NonEmpty(front) && w != []
    ensures NonEmpty(front + [w]) && RedactAll(t, front + [w]) == Replace(RedactAll(t, front), w)
    decreases |front|
  {
    if front == [] {
      assert front + [w] == [w] && [w][1..] == [];
      assert RedactAll(t, [w]) == RedactAll(Replace(t, w), []);
    } else {
      assert (front + [w])[1..] == front[1..] + [w];
      assert NonEmpty(front[1..]);
      RedactSplits(Replace(t, front[0]), front[1..], w);
    }
  }

  // ---- The exact condition ----

  /** Replacing `w` in the probe at `i` spells `w` again, and nothing is replaced there before. */
  predicate Respells(w: bytes, i: int)
    requires w != []
  {
    Caught(w, i) && forall x <- Spellings(w) :: x != w ==> !Contains(Probe(w, i), x)
  }

  /** What can be checked of a secret beforehand: no encoded spelling lies in the marker, and no
      marker laid over the literal text respells it. */
  predicate Redactable(secret: bytes)
  {
    && (forall x <- Spellings(secret) :: x != [] && x != secret ==> !Contains(MARKER, x))
    && (Utf8(secret) && secret != [] ==> forall i: int :: -|MARKER| < i < |secret| ==> !Respells(secret, i))
  }

  /** No text keeps or gains a representation. */
  ghost predicate Safe(secret: bytes)
  {
    forall value: bytes :: Utf8(value) ==> !ContainsSecret(Redacted(value, secret), secret)
  }

  // ---- Well-formed UTF-8 ----

  lemma {:induction false} AsciiUtf8(s: bytes)
    requires forall i :: 0 <= i < |s| ==> s[i] < 0x80
    ensures Utf8(s)
  {
    if s != [] {
      AsciiUtf8(s[1..]);
    }
  }

  /** The number of bytes of the first character. */
  function CharBytes(s: bytes): (n: nat)
    requires s != [] && Utf8(s)
    ensures 0 < n <= |s|
  {
    if s[0] < 0x80 then 1 else if s[0] <= 0xDF then 2 else if s[0] <= 0xEF then 3 else 4
  }

  lemma CharFirst(s: bytes, t: bytes)
    requires s != [] && Utf8(s) && t != [] && CharBytes(s) <= |t| && t[..CharBytes(s)] == s[..CharBytes(s)]
    ensures Utf8(t) <==> Utf8(t[CharBytes(s)..])
    ensures Utf8(s[CharBytes(s)..]) && forall j :: 0 < j < CharBytes(s) ==> s[j] >= 0x80
  {
    var n := CharBytes(s);
    assert forall j :: 0 <= j < n ==> t[j] == t[..n][j] == s[..n][j] == s[j];
  }

  lemma {:induction false} Utf8Joins(s: bytes, t: bytes)
    requires Utf8(s) && Utf8(t)
    ensures Utf8(s + t)
    decreases |s|
  {
    if s == [] {
      assert s + t == t;
    } else {
      var n := CharBytes(s);
      assert (s + t)[..n] == s[..n];
      CharFirst(s, s + t);
      assert (s + t)[n..] == s[n..] + t;
      Utf8Joins(s[n..], t);
    }
  }

  lemma EmptyUtf8()
    ensures Utf8([])
  {
  }

  lemma SameDrop(s: bytes, n: nat, i: nat)
    requires n <= i <= |s|
    ensures s[n..][..i - n] == s[..i][n..] && s[n..][i - n..] == s[i..] && s[..i][..n] == s[..n]
  {
  }

  lemma CutInRest(s: bytes, n: nat, i: nat)
    requires 0 < n <= |s| && 0 < i <= |s| && (i < |s| ==> s[i] < 0x80)
    requires forall j :: 0 < j < n ==> s[j] >= 0x80
    ensures n <= i && |s[n..]| == |s| - n && (i - n < |s[n..]| ==> s[n..][i - n] < 0x80)
  {
  }

  /** Cutting before an ASCII byte cuts between characters. */
  lemma {:induction false} Utf8Cuts(s: bytes, i: nat)
    requires Utf8(s) && i <= |s| && (i < |s| ==> s[i] < 0x80)
    ensures Utf8(s[..i]) && Utf8(s[i..])
    decreases |s|
  {
    hide Utf8, CharBytes;
    if i == 0 || s == [] {
      EmptyUtf8();
      assert s[..i] == [] && s[i..] == s;
    } else {
      var n := CharBytes(s);
      CharFirst(s, s);
      CutInRest(s, n, i);
      Utf8Cuts(s[n..], i - n);
      SameDrop(s, n, i);
      CharFirst(s, s[..i]);
    }
  }

  lemma HeadUtf8(w: bytes, i: int)
    requires Utf8(w) && Fits(w, i)
    ensures Utf8(Head(w, i))
  {
    MarkerBrackets();
    if i > 0 {
      assert w[i] == MARKER[0];
      Utf8Cuts(w, i);
    }
  }

  lemma RestUtf8(w: bytes, i: int)
    requires Utf8(w) && Fits(w, i)
    ensures Utf8(Rest(w, i))
  {
    MarkerBrackets();
    if i + |MARKER| < |w| {
      var p := i + |MARKER| - 1;
      assert w[p] == MARKER[p - i];
      Utf8Cuts(w, p);
      assert w[p..][1..] == w[p + 1..];
    }
  }

  lemma ProbeUtf8(w: bytes, i: int)
    requires Utf8(w) && Fits(w, i)
    ensures Utf8(Probe(w, i))
  {
    HeadUtf8(w, i);
    RestUtf8(w, i);
    Utf8Joins(Head(w, i), w);
    Utf8Joins(Head(w, i) + w, Rest(w, i));
  }

  lemma {:induction false} PercentAscii(value: bytes)
    ensures forall i :: 0 <= i < |PercentText(value)| ==> PercentText(value)[i] < 0x80
  {
    if value != [] {
      PercentAscii(value[..|value| - 1]);
    }
  }

  lemma SpellingUtf8(secret: bytes, x: bytes)
    requires x in Spellings(secret)
    ensures Utf8(x)
  {
    if x == Base64(secret) || x == Base64UrlNoPadding(secret) {
      AsciiUtf8(x);
    } else if x == PercentText(secret) {
      PercentAscii(secret);
      AsciiUtf8(x);
    }
  }

  // ---- The theorem ----

  lemma ContainsOrdered(t: bytes, secret: bytes)
    ensures ContainsSecret(t, secret) <==> ContainsAny(t, LongestFirst(SecretRepresentations(secret)))
  {
    RepresentationMembers(secret);
    SameMembersContain(t, LongestFirst(SecretRepresentations(secret)), SecretRepresentations(secret));
  }

  /** A bracket-free word is respelt by a marker exactly when it lies in it. */
  lemma BracketFreeRespells(w: bytes)
    requires w != [] && BracketFree(w)
    ensures (exists i: int :: -|MARKER| < i < |w| && Respells(w, i)) <==> Contains(MARKER, w)
  {
    MarkerBrackets();
    if i: int :| -|MARKER| < i < |w| && Respells(w, i) {
      FitsInside(w, i);
    }
    if p :| 0 <= p <= |MARKER| && At(MARKER, p, w) {
      InsideRespells(w, -p);
    }
  }

  lemma FitsEnds(w: bytes, i: int)
    requires Fits(w, i)
    ensures i > 0 ==> w[i] == MARKER[0]
    ensures i + |MARKER| - 1 < |w| ==> w[i + |MARKER| - 1] == MARKER[|MARKER| - 1]
  {
    MarkerBrackets();
    var last := i + |MARKER| - 1;
    assert last < |w| ==> w[last] == MARKER[last - i];
  }

  lemma FitsInside(w: bytes, i: int)
    requires w != [] && BracketFree(w) && Fits(w, i)
    ensures Contains(MARKER, w)
  {
    MarkerBrackets();
    FitsEnds(w, i);
    assert MARKER[-i..-i + |w|] == w;
    assert At(MARKER, -i, w);
  }

  lemma InsideRespells(w: bytes, i: int)
    requires w != [] && At(MARKER, -i, w)
    ensures Over(w, i) && Respells(w, i)
  {
    hide Ascii, Spellings;
    InsideFits(w, i);
    assert Head(w, i) == [] && Rest(w, i) == [];
    assert Probe(w, i) == w;
    ShortOfItself(w);
    OthersLonger(w);
    forall x <- Spellings(w) | x != w ensures !Contains(w, x) {
    }
  }

  lemma InsideFits(w: bytes, i: int)
    requires w != [] && At(MARKER, -i, w)
    ensures Fits(w, i)
  {
    hide Ascii;
    assert forall p :: 0 <= p < |w| && 0 <= p - i < |MARKER| ==> w[p] == MARKER[-i..-i + |w|][p];
  }

  lemma ShortOfItself(w: bytes)
    requires w != []
    ensures !Contains([] + w[..|w| - 1], w)
  {
  }

  /** Bracket-free spellings: the condition says that the marker holds none. */
  lemma BracketFreeCondition(secret: bytes)
    requires Utf8(secret) ==> BracketFree(secret)
    ensures Redactable(secret) <==> !ContainsSecret(MARKER, secret)
  {
    RepresentationMembers(secret);
    var reps := SecretRepresentations(secret);
    assert forall i :: 0 <= i < |reps| ==> reps[i] in reps;
    if Utf8(secret) && secret != [] {
      BracketFreeRespells(secret);
    }
    hide Spellings, Respells, Contains;
    if x :| x in Spellings(secret) && x != [] && Contains(MARKER, x) {
      assert x in reps;
      var k :| 0 <= k < |reps| && reps[k] == x;
    }
    if Utf8(secret) {
      LiteralSpelled(secret);
    } else {
      NotSpelled(secret);
    }
  }

  lemma LiteralSpelled(secret: bytes)
    requires Utf8(secret)
    ensures secret in Spellings(secret)
  {
  }

  lemma NotSpelled(secret: bytes)
    requires !Utf8(secret)
    ensures secret !in Spellings(secret)
  {
    if secret in Spellings(secret) {
      SpellingUtf8(secret, secret);
    }
  }

  lemma SafeBracketFree(secret: bytes)
    requires Utf8(secret) ==> BracketFree(secret)
    ensures !ContainsSecret(MARKER, secret) ==> forall value: bytes :: !ContainsSecret(Redacted(value, secret), secret)
    ensures ContainsSecret(MARKER, secret) ==> !Safe(secret)
  {
    var ordered := LongestFirst(SecretRepresentations(secret));
    RepresentationMembers(secret);
    SpellingsBracketFree(secret);
    assert forall i :: 0 <= i < |ordered| ==> ordered[i] in ordered;
    hide Spellings, Utf8, LongestFirst, SecretRepresentations, BracketFree;
    ContainsOrdered(MARKER, secret);
    if ContainsSecret(MARKER, secret) {
      var s := MarkerSpells(ordered);
      SpellingUtf8(secret, s);
      ContainsOrdered(Redacted(s, secret), secret);
      assert !(Utf8(s) ==> !ContainsSecret(Redacted(s, secret), secret));
    } else {
      CompleteIff(ordered);
      forall value: bytes ensures !ContainsSecret(Redacted(value, secret), secret) {
        ContainsOrdered(Redacted(value, secret), secret);
      }
    }
  }

  lemma FrontClear(front: seq<bytes>)
    requires NonEmpty(front) && forall i :: 0 <= i < |front| ==> BracketFree(front[i])
    requires forall x <- front :: !Contains(MARKER, x)
    ensures AllClear(front)
  {
    forall i | 0 <= i < |front| ensures NoOverlap(front[i]) {
      assert front[i] in front;
      BracketFreeIsClear(front[i]);
    }
  }

  /** With a bracketed literal: nothing is left if no marker respells it. */
  lemma BracketedSafe(value: bytes, secret: bytes, front: seq<bytes>)
    requires Utf8(secret) && !BracketFree(secret) && Redactable(secret)
    requires LongestFirst(SecretRepresentations(secret)) == front + [secret]
    requires forall x :: x in front <==> x in Spellings(secret) && x != [] && x != secret
    requires NonEmpty(front) && forall i :: 0 <= i < |front| ==> BracketFree(front[i]) && |front[i]| > |secret|
    ensures !ContainsSecret(Redacted(value, secret), secret)
  {
    FrontClear(front);
    hide Spellings, Utf8, BracketFree, LongestFirst, SecretRepresentations, Ascii, Redactable, AllClear, Contains;
    var t := RedactAll(value, front);
    RedactSplits(value, front, secret);
    NothingLeft(value, front);
    ContainsOrdered(Replace(t, secret), secret);
    OthersStayAway(t, secret, front);
    NeverRespelt(t, secret, front);
    ContainsLast(Replace(t, secret), front, secret);
  }

  lemma ContainsLast(t: bytes, front: seq<bytes>, w: bytes)
    ensures ContainsAny(t, front + [w]) <==> ContainsAny(t, front) || Contains(t, w)
  {
    hide Contains;
    var all := front + [w];
    assert all[|front|] == w;
    assert forall k :: 0 <= k < |front| ==> all[k] == front[k];
  }

  lemma OthersStayAway(t: bytes, w: bytes, front: seq<bytes>)
    requires w != [] && NonEmpty(front) && AllClear(front) && !ContainsAny(t, front)
    ensures !ContainsAny(Replace(t, w), front)
  {
    hide NoOverlap, Replace;
    forall k | 0 <= k < |front| ensures !Contains(Replace(t, w), front[k]) {
      if p :| 0 <= p <= |Replace(t, w)| && At(Replace(t, w), p, front[k]) {
        OccurrenceSurvives(t, w, front[k], p);
      }
    }
  }

  lemma NeverRespelt(t: bytes, secret: bytes, front: seq<bytes>)
    requires Utf8(secret) && secret != [] && Redactable(secret)
    requires forall x :: x in front <==> x in Spellings(secret) && x != [] && x != secret
    requires forall i :: 0 <= i < |front| ==> BracketFree(front[i]) && |front[i]| > |secret|
    requires !ContainsAny(t, front)
    ensures !Contains(Replace(t, secret), secret)
  {
    hide Spellings, Utf8, BracketFree, Ascii;
    var after := Replace(t, secret);
    if p :| 0 <= p <= |after| && At(after, p, secret) {
      var i := RespellingCaught(t, secret, p);
      EncodedNotEmpty(secret);
      forall x <- Spellings(secret) | x != secret ensures !Contains(Probe(secret, i), x) {
        assert x in front;
        var k :| 0 <= k < |front| && front[k] == x;
      }
      assert Respells(secret, i);
    }
  }

  lemma EncodedNotEmpty(secret: bytes)
    requires secret != []
    ensures forall x <- Spellings(secret) :: x != []
  {
    OthersLonger(secret);
  }

  /** With a bracketed literal: a marker that respells it, or holds an encoded form, shows a text
      that keeps a representation. */
  lemma BracketedUnsafe(secret: bytes, front: seq<bytes>)
    requires Utf8(secret) && !BracketFree(secret) && !Redactable(secret)
    requires LongestFirst(SecretRepresentations(secret)) == front + [secret]
    requires forall x :: x in front <==> x in Spellings(secret) && x != [] && x != secret
    requires NonEmpty(front)
    ensures !Safe(secret)
  {
    hide Spellings, Utf8, LongestFirst, SecretRepresentations, Ascii, Respells;
    var all := front + [secret];
    if x :| x in Spellings(secret) && x != [] && x != secret && Contains(MARKER, x) {
      var k :| 0 <= k < |front| && front[k] == x;
      assert all[k] == x;
      RepresentationMembers(secret);
      var s := MarkerSpells(all);
      assert s in SecretRepresentations(secret);
      SpellingUtf8(secret, s);
      ContainsOrdered(Redacted(s, secret), secret);
      assert !(Utf8(s) ==> !ContainsSecret(Redacted(s, secret), secret));
    } else {
      var i: int :| -|MARKER| < i < |secret| && Respells(secret, i);
      ProbeFails(secret, front, i);
    }
  }

  lemma ProbeFails(secret: bytes, front: seq<bytes>, i: int)
    requires Utf8(secret) && secret != [] && Over(secret, i) && Respells(secret, i)
    requires LongestFirst(SecretRepresentations(secret)) == front + [secret]
    requires forall x :: x in front <==> x in Spellings(secret) && x != [] && x != secret
    requires NonEmpty(front)
    ensures Utf8(Probe(secret, i)) && ContainsSecret(Redacted(Probe(secret, i), secret), secret)
  {
    hide Spellings, Utf8, LongestFirst, SecretRepresentations, Ascii;
    var t := Probe(secret, i);
    ProbeUtf8(secret, i);
    forall k | 0 <= k < |front| ensures !Contains(t, front[k]) {
      assert front[k] in front;
    }
    RedactAbsent(t, front);
    RedactSplits(t, front, secret);
    ProbeRespells(secret, i);
    var all := front + [secret];
    assert all[|front|] == secret;
    ContainsOrdered(Replace(t, secret), secret);
  }

  /** Redaction keeps its promise on every text exactly for the secrets that can be checked
      beforehand: no encoded spelling lies in the marker, and no marker laid over the literal text
      respells it. For those it keeps it on any bytes. */
  lemma RedactionPromise(secret: bytes)
    ensures Safe(secret) <==> Redactable(secret)
    ensures Redactable(secret) ==> forall value: bytes :: !ContainsSecret(Redacted(value, secret), secret)
  {
    if Utf8(secret) && !BracketFree(secret) {
      var front := LiteralLast(secret);
      if Redactable(secret) {
        forall value: bytes ensures !ContainsSecret(Redacted(value, secret), secret) {
          BracketedSafe(value, secret, front);
        }
      } else {
        BracketedUnsafe(secret, front);
      }
    } else {
      hide Redactable;
      BracketFreeCondition(secret);
      SafeBracketFree(secret);
    }
  }

  /** Text without the secret is never touched. For a redactable secret, redaction is idempotent and
      reports a change exactly when the secret was there. */
  lemma RedactionChanges(value: bytes, secret: bytes)
    ensures !ContainsSecret(value, secret) ==> Redacted(value, secret) == value
    ensures Redactable(secret) ==>
              && (Redacted(value, secret) != value <==> ContainsSecret(value, secret))
              && Redacted(Redacted(value, secret), secret) == Redacted(value, secret)
  {
    hide Redactable, Safe;
    Untouched(value, secret);
    RedactionPromise(secret);
    Untouched(Redacted(value, secret), secret);
  }

  lemma Untouched(value: bytes, secret: bytes)
    ensures !ContainsSecret(value, secret) ==> Redacted(value, secret) == value
  {
    RepresentationMembers(secret);
    ContainsOrdered(value, secret);
    if !ContainsSecret(value, secret) {
      RedactAbsent(value, LongestFirst(SecretRepresentations(secret)));
    }
  }

  // ---- Secrets it fails for, and one it does not ----

  /** The secret `[` lies in the marker that replaces it. */
  lemma OpeningBracketSurvives()
    ensures var secret := Ascii("["); !Redactable(secret) && ContainsSecret(Redacted(secret, secret), secret)
  {
    hide Respells, Spellings, Contains, ContainsSecret, Redacted, LongestFirst, SecretRepresentations, Probe;
    var secret := Ascii("[");
    BracketMarked(secret);
    InsideRespells(secret, 0);
    var front := LiteralLast(secret);
    ProbeFails(secret, front, 0);
  }

  lemma BracketMarked(secret: bytes)
    requires secret == Ascii("[")
    ensures At(MARKER, 0, secret) && Utf8(secret) && !BracketFree(secret) && Probe(secret, 0) == secret
  {
    assert MARKER[0..1] == secret;
    assert secret[0] == '[' as int;
  }

  /** The secret `]x` lies in no marker, but the end of one and the text after it spell it. */
  lemma ClosingBracketSurvives()
    ensures var secret := Ascii("]x");
            && !Contains(MARKER, secret) && !Redactable(secret)
            && ContainsSecret(Redacted(Ascii("]xx"), secret), secret)
  {
    var secret, value := Ascii("]x"), Ascii("]xx");
    assert secret == [']' as int, 'x' as int];
    assert Utf8(secret) && !BracketFree(secret);
    MarkerBrackets();
    var i := 1 - |MARKER|;
    assert Fits(secret, i);
    assert Head(secret, i) == [] && Rest(secret, i) == Ascii("x");
    assert Probe(secret, i) == value;
    OthersLonger(secret);
    forall x <- Spellings(secret) | x != secret ensures !Contains(value, x) {
      TooLong(value, x);
    }
    assert ComesFirst(secret, i);
    ClosingNotInMarker(secret);
    assert Respells(secret, i);
    var front := LiteralLast(secret);
    ProbeFails(secret, front, i);
  }

  lemma TooLong(value: bytes, x: bytes)
    requires |value| == 3 && value[0] == ']' as int && |x| > 2 && BracketFree(x)
    ensures !Contains(value, x)
  {
    forall p | 0 <= p <= |value| ensures !At(value, p, x) {
      ByteOf(value, x, p, 0);
    }
  }

  lemma ClosingNotInMarker(w: bytes)
    requires |w| == 2 && w[0] == ']' as int
    ensures !Contains(MARKER, w)
  {
    assert forall k :: 0 <= k < |MARKER| - 1 ==> MARKER[k] != ']' as int;
    forall p | 0 <= p <= |MARKER| ensures !At(MARKER, p, w) {
      ByteOf(MARKER, w, p, p);
    }
  }
}
