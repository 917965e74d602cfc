/** The literal redaction of `broker_daemon.rs`: every representation of a known secret is
    replaced by a marker before a response leaves the broker. Text is UTF-8 bytes, on which
    Rust's substring search and `replace` act exactly as on characters. */
module Redaction {
  import opened Wrappers
  import opened Bits

  type bytes = seq<byte>

  function Ascii(s: string): bytes
    requires forall i :: 0 <= i < |s| ==> s[i] < 128 as char
  {
    seq(|s|, i requires 0 <= i < |s| => s[i] as int)
  }

  const MARKER: bytes := Ascii("[REDACTED:hbse-secret]")

  predicate At(t: bytes, i: int, w: bytes)
  {
    0 <= i && i + |w| <= |t| && t[i..i + |w|] == w
  }

  predicate Contains(t: bytes, w: bytes)
  {
    exists i :: 0 <= i <= |t| && At(t, i, w)
  }

  /** `str::replace(r, MARKER)`: leftmost matches, left to right, without overlap. */
  function Replace(t: bytes, r: bytes): bytes
    requires r != []
    decreases |t|
  {
    if |t| < |r| then t
    else if r <= t then MARKER + Replace(t[|r|..], r)
    else [t[0]] + Replace(t[1..], r)
  }

  predicate NonEmpty(reps: seq<bytes>)
  {
    forall i :: 0 <= i < |reps| ==> reps[i] != []
  }

  function RedactAll(t: bytes, reps: seq<bytes>): bytes
    requires NonEmpty(reps)
    decreases |reps|
  {
    if reps == [] then t else RedactAll(Replace(t, reps[0]), reps[1..])
  }

  ghost predicate ContainsAny(t: bytes, reps: seq<bytes>)
  {
    exists i :: 0 <= i < |reps| && Contains(t, reps[i])
  }

  // ---- Replacement leaves no trace ----

  /** Every suffix of `x` differs from the marker within their common length. */
  ghost predicate ClearOfMarkerStart(x: bytes)
  {
    forall i :: 0 <= i < |x| ==> !(x[i..] <= MARKER) && !(MARKER <= x[i..])
  }

  /** `w` can neither lie in the marker, contain it, nor straddle either of its ends. */
  ghost predicate NoOverlap(w: bytes)
  {
    && w != []
    && ClearOfMarkerStart(w)
    && forall i :: 0 <= i < |MARKER| ==> !(w <= MARKER[i..]) && !(MARKER[i..] <= w)
  }

  lemma {:induction false} PrefixSurvives(t: bytes, r: bytes, x: bytes)
    requires r != [] && ClearOfMarkerStart(x) && x <= Replace(t, r)
    ensures x <= t
    decreases |t|
  {
    if x != [] && |t| >= |r| {
      assert x[0..] == x;
      if r <= t {
        ComparablePrefixes(x, MARKER, MARKER + Replace(t[|r|..], r));
      } else {
        var y := x[1..];
        assert Replace(t, r)[1..] == Replace(t[1..], r);
        forall i | 0 <= i < |y| ensures !(y[i..] <= MARKER) && !(MARKER <= y[i..]) {
          assert y[i..] == x[i + 1..];
        }
        PrefixSurvives(t[1..], r, y);
        assert x == [x[0]] + y && t == [t[0]] + t[1..];
      }
    }
  }

  lemma ComparablePrefixes(x: bytes, y: bytes, t: bytes)
    requires x <= t && y <= t
    ensures x <= y || y <= x
  {
    if |x| <= |y| {
      assert x == t[..|x|] == y[..|x|];
    } else {
      assert y == t[..|y|] == x[..|y|];
    }
  }

  lemma NotInMarker(tail: bytes, w: bytes, i: int)
    requires NoOverlap(w) && At(MARKER + tail, i, w)
    ensures i >= |MARKER| && At(tail, i - |MARKER|, w)
  {
    var after := MARKER + tail;
    assert after[i..] == w + after[i + |w|..];
    if i < |MARKER| {
      assert after[i..] == MARKER[i..] + tail;
      ComparablePrefixes(w, MARKER[i..], after[i..]);
      assert false;
    }
    assert after[|MARKER|..] == tail;
  }

  /** What does not overlap the marker and occurs after a replacement occurred before it,
      unless it is what was replaced, which occurs nowhere. */
  lemma {:induction false} OccurrenceSurvives(t: bytes, r: bytes, w: bytes, i: int)
    requires r != [] && NoOverlap(w) && At(Replace(t, r), i, w)
    ensures Contains(t, w) && w != r
    decreases |t|
  {
    var after := Replace(t, r);
    if |t| < |r| {
      assert At(t, i, w);
    } else if r <= t {
      var rest := t[|r|..];
      NotInMarker(Replace(rest, r), w, i);
      OccurrenceSurvives(rest, r, w, i - |MARKER|);
      ContainsInSuffix(t, |r|, w);
    } else {
      var rest := t[1..];
      assert after[1..] == Replace(rest, r);
      if i == 0 {
        PrefixSurvives(t, r, w);
        assert At(t, 0, w);
      } else {
        assert At(Replace(rest, r), i - 1, w);
        OccurrenceSurvives(rest, r, w, i - 1);
        ContainsInSuffix(t, 1, w);
      }
    }
  }

  lemma ContainsInSuffix(t: bytes, n: nat, w: bytes)
    requires n <= |t| && Contains(t[n..], w)
    ensures Contains(t, w)
  {
    var i :| 0 <= i <= |t[n..]| && At(t[n..], i, w);
    assert At(t, n + i, w);
  }

  ghost predicate AllClear(reps: seq<bytes>)
  {
    forall i :: 0 <= i < |reps| ==> NoOverlap(reps[i])
  }

  /** Completeness, for any list of representations in any order: if none overlaps the marker,
      none is left, and nothing else that is clear of the marker can appear. */
  lemma {:induction false} RedactionComplete(t: bytes, reps: seq<bytes>, w: bytes)
    requires NonEmpty(reps) && NoOverlap(w) && Contains(RedactAll(t, reps), w)
    ensures Contains(t, w) && w !in reps
    decreases |reps|
  {
    if reps != [] {
      var next := Replace(t, reps[0]);
      RedactionComplete(next, reps[1..], w);
      var i :| 0 <= i <= |next| && At(next, i, w);
      OccurrenceSurvives(t, reps[0], w, i);
    }
  }

  lemma NothingLeft(t: bytes, reps: seq<bytes>)
    requires NonEmpty(reps) && AllClear(reps)
    ensures !ContainsAny(RedactAll(t, reps), reps)
  {
    if i :| 0 <= i < |reps| && Contains(RedactAll(t, reps), reps[i]) {
      RedactionComplete(t, reps, reps[i]);
    }
  }

  // ---- What is not there is not replaced ----

  lemma {:induction false} ReplaceAbsent(t: bytes, r: bytes)
    requires r != [] && !Contains(t, r)
    ensures Replace(t, r) == t
    decreases |t|
  {
    if |t| >= |r| {
      assert r <= t ==> At(t, 0, r);
      forall i | 0 <= i <= |t[1..]| ensures !At(t[1..], i, r) {
        assert At(t[1..], i, r) ==> At(t, i + 1, r);
      }
      ReplaceAbsent(t[1..], r);
    }
  }

  lemma {:induction false} RedactAbsent(t: bytes, reps: seq<bytes>)
    requires NonEmpty(reps) && !ContainsAny(t, reps)
    ensures RedactAll(t, reps) == t
    decreases |reps|
  {
    if reps != [] {
      assert Contains(t, reps[0]) ==> ContainsAny(t, reps);
      ReplaceAbsent(t, reps[0]);
      forall i | 0 <= i < |reps[1..]| ensures !Contains(t, reps[1..][i]) {
        assert reps[1..][i] == reps[i + 1];
      }
      RedactAbsent(t, reps[1..]);
    }
  }

  // ---- When the marker itself holds a representation ----

  lemma {:induction false} ReplacePresent(t: bytes, r: bytes)
    requires r != []
    ensures Contains(t, r) ==> Contains(Replace(t, r), MARKER)
    decreases |t|
  {
    if |t| >= |r| {
      if r <= t {
        assert At(MARKER + Replace(t[|r|..], r), 0, MARKER);
      } else if i :| 0 <= i <= |t| && At(t, i, r) {
        assert At(t[1..], i - 1, r);
        ReplacePresent(t[1..], r);
        assert Replace(t, r)[1..] == Replace(t[1..], r);
        ContainsInSuffix(Replace(t, r), 1, MARKER);
      }
    }
  }

  lemma {:induction false} MarkerPersists(t: bytes, reps: seq<bytes>)
    requires NonEmpty(reps) && Contains(t, MARKER)
    ensures Contains(RedactAll(t, reps), MARKER)
    decreases |reps|
  {
    if reps != [] {
      ReplacePresent(t, reps[0]);
      if !Contains(t, reps[0]) {
        ReplaceAbsent(t, reps[0]);
      }
      MarkerPersists(Replace(t, reps[0]), reps[1..]);
    }
  }

  lemma ContainsTransitive(t: bytes, u: bytes, w: bytes)
    requires Contains(t, u) && Contains(u, w)
    ensures Contains(t, w)
  {
    var i :| 0 <= i <= |t| && At(t, i, u);
    var j :| 0 <= j <= |u| && At(u, j, w);
    assert t[i..i + |u|] == u && u[j..j + |w|] == w;
    forall k | 0 <= k < |w| ensures t[i + j..i + j + |w|][k] == w[k] {
      assert u[j..j + |w|][k] == u[j + k] == t[i..i + |u|][j + k];
    }
    assert At(t, i + j, w);
  }

  /** A text that is a representation containing no other one ends up holding the marker. */
  lemma {:induction false} RedactToMarker(r: bytes, reps: seq<bytes>)
    requires NonEmpty(reps) && r in reps
    requires forall x <- reps :: Contains(r, x) ==> x == r
    ensures Contains(RedactAll(r, reps), MARKER)
    decreases |reps|
  {
    assert reps[0] in reps;
    if reps[0] == r {
      assert At(r, 0, r);
      ReplacePresent(r, r);
      MarkerPersists(Replace(r, r), reps[1..]);
    } else {
      ReplaceAbsent(r, reps[0]);
      assert forall x <- reps[1..] :: x in reps;
      RedactToMarker(r, reps[1..]);
    }
  }

  lemma {:induction false} ShortestInMarker(reps: seq<bytes>, r: bytes) returns (s: bytes)
    requires r in reps && Contains(MARKER, r)
    ensures s in reps && Contains(MARKER, s)
    ensures forall x <- reps :: Contains(s, x) ==> x == s
    decreases |r|
  {
    if x :| x in reps && Contains(r, x) && x != r {
      ContainsTransitive(MARKER, r, x);
      var i :| 0 <= i <= |r| && At(r, i, x);
      assert r[0..|r|] == r;
      s := ShortestInMarker(reps, x);
    } else {
      s := r;
    }
  }

  // ---- Brackets ----

  predicate BracketFree(w: bytes)
  {
    forall i :: 0 <= i < |w| ==> w[i] != '[' as int && w[i] != ']' as int
  }

  lemma MarkerBrackets()
    ensures |MARKER| == 22 && MARKER[0] == '[' as int && MARKER[21] == ']' as int
  {
  }

  lemma BracketFreeIsClear(w: bytes)
    requires w != [] && BracketFree(w) && !Contains(MARKER, w)
    ensures NoOverlap(w)
  {
    MarkerBrackets();
    forall i | 0 <= i < |w| ensures !(w[i..] <= MARKER) && !(MARKER <= w[i..]) {
      assert w[i..][0] == w[i];
    }
    forall i | 0 <= i < |MARKER| ensures !(w <= MARKER[i..]) && !(MARKER[i..] <= w) {
      assert MARKER[i..][21 - i] == MARKER[21];
      if w <= MARKER[i..] {
        assert At(MARKER, i, w);
      }
    }
  }

  /** A marker that holds a representation brings one back. */
  lemma MarkerSpells(reps: seq<bytes>) returns (s: bytes)
    requires NonEmpty(reps) && ContainsAny(MARKER, reps)
    ensures s in reps && ContainsAny(RedactAll(s, reps), reps)
  {
    var i :| 0 <= i < |reps| && Contains(MARKER, reps[i]);
    s := ShortestInMarker(reps, reps[i]);
    RedactToMarker(s, reps);
    ContainsTransitive(RedactAll(s, reps), MARKER, s);
    var k :| 0 <= k < |reps| && reps[k] == s;
  }

  ghost predicate Complete(reps: seq<bytes>)
    requires NonEmpty(reps)
  {
    forall t: bytes :: !ContainsAny(RedactAll(t, reps), reps)
  }

  /** For bracket-free representations, redaction is complete on all texts exactly when the
      marker contains none of them. */
  lemma CompleteIff(reps: seq<bytes>)
    requires NonEmpty(reps) && forall i :: 0 <= i < |reps| ==> BracketFree(reps[i])
    ensures Complete(reps) <==> !ContainsAny(MARKER, reps)
  {
    if ContainsAny(MARKER, reps) {
      var s := MarkerSpells(reps);
    } else {
      forall i | 0 <= i < |reps| ensures NoOverlap(reps[i]) {
        BracketFreeIsClear(reps[i]);
      }
      forall t: bytes ensures !ContainsAny(RedactAll(t, reps), reps) {
        NothingLeft(t, reps);
      }
    }
  }

  // ---- The representations of a secret ----

  function Base64Byte(x: nat, url: bool): byte
    requires x < 64
  {
    if x < 26 then 'A' as int + x
    else if x < 52 then 'a' as int + (x - 26)
    else if x < 62 then '0' as int + (x - 52)
    else if x == 62 then (if url then '-' else '+') as int
    else (if url then '_' else '/') as int
  }

  /** Base64 (RFC 4648, sections 4 and 5) before padding. */
  function Base64Core(secret: bytes, url: bool): bytes
  {
    var bs := Stream(secret, 8) + Zeros((6 - 8 * |secret| % 6) % 6);
    GroupsBounded(bs, 6);
    Powers();
    var xs := Groups(bs, 6);
    seq(|xs|, i requires 0 <= i < |xs| => Base64Byte(xs[i], url))
  }

  function Base64(secret: bytes): bytes
  {
    var core := Base64Core(secret, false);
    core + seq((4 - |core| % 4) % 4, i => '=' as int)
  }

  function Base64UrlNoPadding(secret: bytes): bytes
  {
    Base64Core(secret, true)
  }

  predicate Unreserved(b: byte)
  {
    || 'a' as int <= b <= 'z' as int || 'A' as int <= b <= 'Z' as int || '0' as int <= b <= '9' as int
    || b == '-' as int || b == '_' as int || b == '.' as int || b == '~' as int
  }

  function HexDigit(x: nat): byte
    requires x < 16
  {
    if x < 10 then '0' as int + x else 'A' as int + (x - 10)
  }

  function PercentByte(b: byte): bytes
  {
    if Unreserved(b) then [b] else ['%' as int, HexDigit(b / 16), HexDigit(b % 16)]
  }

  function PercentText(value: bytes): bytes
  {
    if value == [] then [] else PercentText(value[..|value| - 1]) + PercentByte(value[|value| - 1])
  }

  method PercentEncode(value: bytes) returns (encoded: bytes)
    ensures encoded == PercentText(value)
  {
    encoded := [];
    for i := 0 to |value|
      invariant encoded == PercentText(value[..i])
    {
      assert value[..i + 1][..i] == value[..i];
      if Unreserved(value[i]) {
        encoded := encoded + [value[i]];
      } else {
        encoded := encoded + ['%' as int, HexDigit(value[i] / 16), HexDigit(value[i] % 16)];
      }
    }
    assert value[..|value|] == value;
  }

  predicate Tail(s: bytes, i: nat)
  {
    i < |s| && 0x80 <= s[i] <= 0xBF
  }

  /** Well-formed UTF-8 (section 4 of RFC 3629). */
  predicate Utf8(s: bytes)
  {
    if s == [] then true
    else if s[0] < 0x80 then Utf8(s[1..])
    else if 0xC2 <= s[0] <= 0xDF then Tail(s, 1) && Utf8(s[2..])
    else if 0xE0 <= s[0] <= 0xEF then
      && Tail(s, 1) && Tail(s, 2)
      && (s[0] == 0xE0 ==> s[1] >= 0xA0) && (s[0] == 0xED ==> s[1] <= 0x9F)
      && Utf8(s[3..])
    else if 0xF0 <= s[0] <= 0xF4 then
      && Tail(s, 1) && Tail(s, 2) && Tail(s, 3)
      && (s[0] == 0xF0 ==> s[1] >= 0x90) && (s[0] == 0xF4 ==> s[1] <= 0x8F)
      && Utf8(s[4..])
    else false
  }

  predicate LexBelow(a: bytes, b: bytes)
  {
    a != b && (a == [] || (b != [] && (a[0] < b[0] || (a[0] == b[0] && LexBelow(a[1..], b[1..])))))
  }

  /** Inserts before the first element that is greater, keeping equals in order. */
  function InsertLex(x: bytes, xs: seq<bytes>): seq<bytes>
  {
    if xs == [] || LexBelow(x, xs[0]) then [x] + xs else [xs[0]] + InsertLex(x, xs[1..])
  }

  function SortLex(xs: seq<bytes>): seq<bytes>
  {
    if xs == [] then [] else InsertLex(xs[|xs| - 1], SortLex(xs[..|xs| - 1]))
  }

  function Dedup(xs: seq<bytes>): seq<bytes>
  {
    if |xs| < 2 then xs else if xs[0] == xs[1] then Dedup(xs[1..]) else [xs[0]] + Dedup(xs[1..])
  }

  function DropEmpty(xs: seq<bytes>): seq<bytes>
  {
    if xs == [] then [] else (if xs[0] == [] then [] else [xs[0]]) + DropEmpty(xs[1..])
  }

  function InsertLonger(x: bytes, xs: seq<bytes>): seq<bytes>
  {
    if xs == [] || |x| > |xs[0]| then [x] + xs else [xs[0]] + InsertLonger(x, xs[1..])
  }

  /** A stable sort, longest first. */
  function LongestFirst(xs: seq<bytes>): seq<bytes>
  {
    if xs == [] then [] else InsertLonger(xs[|xs| - 1], LongestFirst(xs[..|xs| - 1]))
  }

  function Spellings(secret: bytes): seq<bytes>
  {
    [Base64(secret), Base64UrlNoPadding(secret)] + (if Utf8(secret) then [secret, PercentText(secret)] else [])
  }

  function SecretRepresentations(secret: bytes): seq<bytes>
  {
    DropEmpty(Dedup(SortLex(Spellings(secret))))
  }

  ghost predicate ContainsSecret(value: bytes, secret: bytes)
  {
    ContainsAny(value, SecretRepresentations(secret))
  }

  ghost predicate SameMembers(xs: seq<bytes>, ys: seq<bytes>)
  {
    forall x :: x in xs <==> x in ys
  }

  lemma {:induction false} InsertLexMembers(x: bytes, xs: seq<bytes>)
    ensures SameMembers(InsertLex(x, xs), [x] + xs)
  {
    if xs != [] && !LexBelow(x, xs[0]) {
      InsertLexMembers(x, xs[1..]);
      assert xs == [xs[0]] + xs[1..];
    }
  }

  lemma {:induction false} SortLexMembers(xs: seq<bytes>)
    ensures SameMembers(SortLex(xs), xs)
  {
    if xs != [] {
      SortLexMembers(xs[..|xs| - 1]);
      InsertLexMembers(xs[|xs| - 1], SortLex(xs[..|xs| - 1]));
      assert xs == xs[..|xs| - 1] + [xs[|xs| - 1]];
    }
  }

  lemma {:induction false} DedupMembers(xs: seq<bytes>)
    ensures SameMembers(Dedup(xs), xs)
  {
    if |xs| >= 2 {
      DedupMembers(xs[1..]);
      assert xs == [xs[0]] + xs[1..];
      assert xs[1] in xs[1..];
    }
  }

  lemma {:induction false} DropEmptyMembers(xs: seq<bytes>)
    ensures forall x :: x in DropEmpty(xs) <==> x in xs && x != []
  {
    if xs != [] {
      DropEmptyMembers(xs[1..]);
      assert xs == [xs[0]] + xs[1..];
    }
  }

  lemma {:induction false} InsertLongerMembers(x: bytes, xs: seq<bytes>)
    ensures SameMembers(InsertLonger(x, xs), [x] + xs)
  {
    if xs != [] && |x| <= |xs[0]| {
      InsertLongerMembers(x, xs[1..]);
      assert xs == [xs[0]] + xs[1..];
    }
  }

  lemma {:induction false} LongestFirstMembers(xs: seq<bytes>)
    ensures SameMembers(LongestFirst(xs), xs)
  {
    if xs != [] {
      LongestFirstMembers(xs[..|xs| - 1]);
      InsertLongerMembers(xs[|xs| - 1], LongestFirst(xs[..|xs| - 1]));
      assert xs == xs[..|xs| - 1] + [xs[|xs| - 1]];
    }
  }

  /** The representations are the non-empty spellings, each once per sort and filter step. */
  lemma RepresentationMembers(secret: bytes)
    ensures forall x :: x in SecretRepresentations(secret) <==> x in Spellings(secret) && x != []
    ensures NonEmpty(SecretRepresentations(secret))
    ensures SameMembers(LongestFirst(SecretRepresentations(secret)), SecretRepresentations(secret))
    ensures NonEmpty(LongestFirst(SecretRepresentations(secret)))
  {
    var sorted := SortLex(Spellings(secret));
    SortLexMembers(Spellings(secret));
    DedupMembers(sorted);
    DropEmptyMembers(Dedup(sorted));
    var reps := SecretRepresentations(secret);
    assert forall i :: 0 <= i < |reps| ==> reps[i] in reps;
    LongestFirstMembers(reps);
    var ordered := LongestFirst(reps);
    assert forall i :: 0 <= i < |ordered| ==> ordered[i] in ordered;
  }

  ghost predicate Descending(xs: seq<bytes>)
  {
    forall i, j :: 0 <= i < j < |xs| ==> |xs[i]| >= |xs[j]|
  }

  lemma {:induction false} InsertLongerDescending(x: bytes, xs: seq<bytes>)
    requires Descending(xs)
    ensures Descending(InsertLonger(x, xs))
  {
    if xs != [] && |x| <= |xs[0]| {
      InsertLongerDescending(x, xs[1..]);
      InsertLongerMembers(x, xs[1..]);
      var rest := InsertLonger(x, xs[1..]);
      forall j | 0 <= j < |rest| ensures |rest[j]| <= |xs[0]| {
        assert rest[j] in rest && rest[j] in [x] + xs[1..];
      }
    }
  }

  lemma {:induction false} LongestFirstDescending(xs: seq<bytes>)
    ensures Descending(LongestFirst(xs))
  {
    if xs != [] {
      LongestFirstDescending(xs[..|xs| - 1]);
      InsertLongerDescending(xs[|xs| - 1], LongestFirst(xs[..|xs| - 1]));
    }
  }

  /** Longest first means that a representation is replaced whole, even if it contains
      shorter ones: nothing of it remains beside the marker. */
  lemma {:induction false} RepresentationVanishes(r: bytes, reps: seq<bytes>)
    requires NonEmpty(reps) && Descending(reps) && r in reps && !ContainsAny(MARKER, reps)
    ensures RedactAll(r, reps) == MARKER
    decreases |reps|
  {
    assert forall x <- reps[1..] :: x in reps;
    forall i | 0 <= i < |reps[1..]| ensures !Contains(MARKER, reps[1..][i]) {
      assert reps[1..][i] == reps[i + 1];
    }
    if reps[0] == r {
      assert r[|r|..] == [];
      assert Replace(r, r) == MARKER + [] == MARKER;
      RedactAbsent(MARKER, reps[1..]);
    } else {
      var k :| 0 <= k < |reps| && reps[k] == r;
      assert r[0..|r|] == r;
      ReplaceAbsent(r, reps[0]);
      assert reps[1..][k - 1] == r;
      RepresentationVanishes(r, reps[1..]);
    }
  }

  function Redacted(value: bytes, secret: bytes): bytes
  {
    RepresentationMembers(secret);
    RedactAll(value, LongestFirst(SecretRepresentations(secret)))
  }

  method RedactKnownSecret(value: bytes, secret: bytes) returns (redacted: bytes, changed: bool)
    ensures redacted == Redacted(value, secret)
    ensures changed <==> redacted != value
  {
    redacted := value;
    var representations := LongestFirst(SecretRepresentations(secret));
    RepresentationMembers(secret);
    for i := 0 to |representations|
      invariant RedactAll(redacted, representations[i..]) == RedactAll(value, representations)
    {
      assert representations[i..][1..] == representations[i + 1..];
      redacted := Replace(redacted, representations[i]);
    }
    changed := redacted != value;
  }

  lemma SameMembersContain(t: bytes, xs: seq<bytes>, ys: seq<bytes>)
    requires SameMembers(xs, ys)
    ensures ContainsAny(t, xs) <==> ContainsAny(t, ys)
  {
    if i :| 0 <= i < |xs| && Contains(t, xs[i]) {
      assert xs[i] in xs && xs[i] in ys;
      var j :| 0 <= j < |ys| && ys[j] == xs[i];
    }
    if j :| 0 <= j < |ys| && Contains(t, ys[j]) {
      assert ys[j] in ys && ys[j] in xs;
      var i :| 0 <= i < |xs| && xs[i] == ys[j];
    }
  }

  lemma {:induction false} PercentBracketFree(value: bytes)
    ensures BracketFree(PercentText(value))
  {
    if value != [] {
      PercentBracketFree(value[..|value| - 1]);
    }
  }

  /** Only the literal text of a UTF-8 secret can carry brackets. */
  lemma SpellingsBracketFree(secret: bytes)
    requires Utf8(secret) ==> BracketFree(secret)
    ensures forall x <- Spellings(secret) :: BracketFree(x)
  {
    PercentBracketFree(secret);
  }

  /** Each representation on its own is reduced to exactly the marker. */
  lemma SecretBecomesMarker(r: bytes, secret: bytes)
    requires r in SecretRepresentations(secret) && !ContainsSecret(MARKER, secret)
    ensures Redacted(r, secret) == MARKER
  {
    var reps := SecretRepresentations(secret);
    RepresentationMembers(secret);
    LongestFirstDescending(reps);
    SameMembersContain(MARKER, LongestFirst(reps), reps);
    RepresentationVanishes(r, LongestFirst(reps));
  }
}
