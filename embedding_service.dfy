/**
 * The embedding service: the text a post is embedded from, the hash-based fallback embedding,
 * cosine similarity, and the choice between the remote provider and the fallback.
 *
 * `Math.sqrt` is a parameter `sqrt`; a lemma that needs it to be exact at a point says so with
 * `SqrtAt`. Numbers are exact reals.
 */
module EmbeddingService {
  import opened Wrappers
  import opened Seqs
  import opened Strings
  import opened OrganizationPostsContext

  /** The length of the fallback embedding, `new Array(384)`. */
  const FallbackDimension: nat := 384

  /** An embedding. The provider's vectors are taken to have the fallback's length. */
  type Vector = v: seq<real> | |v| == FallbackDimension witness seq(FallbackDimension, _ => 0.0)

  function Zeros(): Vector {
    seq(FallbackDimension, _ => 0.0)
  }

  /** `sqrt` is exact at `x`: it yields the non-negative root. */
  predicate SqrtAt(sqrt: real -> real, x: real) {
    sqrt(x) >= 0.0 && sqrt(x) * sqrt(x) == x
  }

  // ---------------------------------------------------------------------------------------
  // The token hash

  const TwoTo31: int := 0x8000_0000
  const TwoTo32: int := 0x1_0000_0000

  /** ECMAScript ToInt32 on an integer: the one value in [-2^31, 2^31) congruent to `x` modulo 2^32. */
  function ToInt32(x: int): (r: int)
    ensures -TwoTo31 <= r < TwoTo31
    ensures (x - r) % TwoTo32 == 0
  {
    var m := (x + TwoTo31) % TwoTo32;
    assert x + TwoTo31 == TwoTo32 * ((x + TwoTo31) / TwoTo32) + m;
    m - TwoTo31
  }

  /** `acc << 5`: `acc` goes through ToInt32, and the shifted value is again a 32-bit integer. */
  function ShiftLeft5(acc: int): (r: int)
    ensures -TwoTo31 <= r < TwoTo31
    ensures (r - 32 * acc) % TwoTo32 == 0
  {
    var a := ToInt32(acc);
    var r := ToInt32(a * 32);
    assert acc - a == TwoTo32 * ((acc - a) / TwoTo32);
    assert a * 32 - r == TwoTo32 * ((a * 32 - r) / TwoTo32);
    assert r - 32 * acc == TwoTo32 * ((a * 32 - r) / TwoTo32 * -1 - 32 * ((acc - a) / TwoTo32));
    r
  }

  /** One step of the fold, `((acc << 5) - acc) + char.charCodeAt(0)`: the subtraction and the addition do not wrap. */
  function HashStep(acc: int, unit: int): int {
    ShiftLeft5(acc) - acc + unit
  }

  /** The fold of `HashStep` from 0 over a sequence of code units, first to last. */
  function HashUnits(units: seq<int>): int {
    if units == [] then 0 else HashStep(HashUnits(units[..|units| - 1]), units[|units| - 1])
  }

  /** The fold's steps for one character: one step per UTF-16 code unit. */
  function HashChar(acc: int, c: char): int {
    var units := CodeUnitsOf(c);
    if |units| == 1 then HashStep(acc, units[0]) else HashStep(HashStep(acc, units[0]), units[1])
  }

  /** A token's hash, the fold from 0 taken character by character. */
  function Hash(w: string): int {
    if w == [] then 0 else HashChar(Hash(w[..|w| - 1]), w[|w| - 1])
  }

  /** `split('')` yields the token's UTF-16 code units, and the hash is the fold over them. */
  lemma {:induction false} HashIsFoldOverCodeUnits(w: string)
    ensures Hash(w) == HashUnits(Utf16(w))
  {
    if w != [] {
      var pre := w[..|w| - 1];
      var units := CodeUnitsOf(w[|w| - 1]);
      HashIsFoldOverCodeUnits(pre);
      var u := Utf16(w);
      assert u == Utf16(pre) + units;
      assert u[..|u| - 1] == Utf16(pre) + units[..|units| - 1];
      if |units| == 2 {
        assert (Utf16(pre) + units)[..|u| - 2] == Utf16(pre);
        assert u[..|u| - 1][..|u| - 2] == Utf16(pre);
      } else {
        assert u[..|u| - 1] == Utf16(pre);
      }
    }
  }

  /** The largest code unit. */
  const MaxCodeUnit: int := 0xFFFF

  lemma {:induction false} HashUnitsBound(units: seq<int>)
    requires forall i :: 0 <= i < |units| ==> IsCodeUnit(units[i])
    ensures -|units| * (TwoTo31 + MaxCodeUnit) <= HashUnits(units) <= |units| * (TwoTo31 + MaxCodeUnit)
  {
    if units != [] {
      PrefixIndex(units, |units| - 1);
      HashUnitsBound(units[..|units| - 1]);
      assert (|units| - 1) * (TwoTo31 + MaxCodeUnit) + (TwoTo31 + MaxCodeUnit) == |units| * (TwoTo31 + MaxCodeUnit);
    }
  }

  /**
   * The fold's value grows at most linearly with the token's length in code units, so for any
   * token shorter than 2^20 code units it stays far inside the range where double arithmetic on
   * integers is exact.
   */
  lemma HashBound(w: string)
    ensures -(Length(w) as int) * (TwoTo31 + MaxCodeUnit) <= Hash(w) <= Length(w) * (TwoTo31 + MaxCodeUnit)
  {
    HashIsFoldOverCodeUnits(w);
    Utf16AreCodeUnits(w);
    HashUnitsBound(Utf16(w));
  }

  /** Examples: worked values of the hash; the emoji U+1F600 is hashed as its two surrogates. */
  lemma HashExamples()
    ensures Hash("") == 0
    ensures Hash("a") == 97
    ensures Hash("ab") == 97 * 31 + 98
    ensures Hash("\U{1F600}") == 0xD83D * 31 + 0xDE00
  {
    assert "a"[..0] == "";
    assert "ab"[..1] == "a";
    assert "\U{1F600}"[..0] == "";
    assert Utf16("\U{1F600}") == [0xD83D, 0xDE00];
    assert [0xD83D, 0xDE00][..1] == [0xD83D];
    assert [0xD83D][..0] == [];
  }

  function Abs(x: int): nat {
    if x < 0 then -x else x
  }

  /** The slot a token lands in, `Math.abs(hash) % 384`. */
  function TokenIndex(w: string): (r: nat)
    ensures r < FallbackDimension
  {
    Abs(Hash(w)) % FallbackDimension
  }

  /** The weight of the token at position `i`, `1 / (i + 1)`. */
  function TokenWeight(i: nat): (r: real)
    ensures 0.0 < r <= 1.0
  {
    1.0 / (i + 1) as real
  }

  /** `text.toLowerCase().split(/\s+/)`: at least one token, none holding whitespace, possibly empty ones. */
  function Tokens(text: string): (r: seq<string>)
    ensures |r| >= 1
    ensures forall i :: 0 <= i < |r| ==> NoWhitespace(r[i])
  {
    SplitWhitespace(ToLower(text))
  }

  lemma EmptyTextHasOneEmptyToken()
    ensures Tokens("") == [""]
  {
  }

  // ---------------------------------------------------------------------------------------
  // Accumulating token weights

  /** The array after the first `n` tokens have each added their weight at their slot. */
  function Accumulate(tokens: seq<string>, n: nat): Vector
    requires n <= |tokens|
  {
    if n == 0 then Zeros()
    else
      var prev := Accumulate(tokens, n - 1);
      var j := TokenIndex(tokens[n - 1]);
      prev[j := prev[j] + TokenWeight(n - 1)]
  }

  /** What slot `j` receives from the first `n` tokens: the weights of those tokens that land there. */
  function Contribution(tokens: seq<string>, n: nat, j: nat): real
    requires n <= |tokens|
  {
    if n == 0 then 0.0
    else Contribution(tokens, n - 1, j) + (if TokenIndex(tokens[n - 1]) == j then TokenWeight(n - 1) else 0.0)
  }

  /** Tokens that land in the same slot add up; none overwrites another. */
  lemma {:induction false} AccumulateIsContribution(tokens: seq<string>, n: nat, j: nat)
    requires n <= |tokens| && j < FallbackDimension
    ensures Accumulate(tokens, n)[j] == Contribution(tokens, n, j)
  {
    if n > 0 {
      AccumulateIsContribution(tokens, n - 1, j);
    }
  }

  lemma {:induction false} AccumulateNonNegative(tokens: seq<string>, n: nat)
    requires n <= |tokens|
    ensures forall j :: 0 <= j < FallbackDimension ==> Accumulate(tokens, n)[j] >= 0.0
  {
    if n > 0 {
      AccumulateNonNegative(tokens, n - 1);
    }
  }

  /** The slot of token `i` holds at least that token's weight once it has been added. */
  lemma {:induction false} AccumulateAtLeast(tokens: seq<string>, n: nat, i: nat)
    requires i < n <= |tokens|
    ensures Accumulate(tokens, n)[TokenIndex(tokens[i])] >= TokenWeight(i)
  {
    AccumulateNonNegative(tokens, n - 1);
    if i < n - 1 {
      AccumulateAtLeast(tokens, n - 1, i);
    }
  }

  function Sum(v: seq<real>): real {
    if v == [] then 0.0 else Sum(v[..|v| - 1]) + v[|v| - 1]
  }

  lemma {:induction false} SumUpdate(v: seq<real>, j: nat, d: real)
    requires j < |v|
    ensures Sum(v[j := v[j] + d]) == Sum(v) + d
  {
    var u := v[j := v[j] + d];
    assert u[..|u| - 1] == if j == |v| - 1 then v[..|v| - 1] else v[..|v| - 1][j := v[j] + d];
    if j < |v| - 1 {
      SumUpdate(v[..|v| - 1], j, d);
    }
  }

  /** The harmonic number H(n), the total weight of `n` tokens. */
  function Harmonic(n: nat): real {
    if n == 0 then 0.0 else Harmonic(n - 1) + TokenWeight(n - 1)
  }

  /** The weights of all tokens are in the array: its components add up to H(n). */
  lemma {:induction false} AccumulateTotal(tokens: seq<string>, n: nat)
    requires n <= |tokens|
    ensures Sum(Accumulate(tokens, n)) == Harmonic(n)
  {
    if n == 0 {
      SumZero(Zeros());
    } else {
      AccumulateTotal(tokens, n - 1);
      SumUpdate(Accumulate(tokens, n - 1), TokenIndex(tokens[n - 1]), TokenWeight(n - 1));
    }
  }

  lemma {:induction false} SumZero(v: seq<real>)
    requires forall i :: 0 <= i < |v| ==> v[i] == 0.0
    ensures Sum(v) == 0.0
  {
    if v != [] {
      SumZero(v[..|v| - 1]);
    }
  }

  // ---------------------------------------------------------------------------------------
  // Dot products and normalising

  /** The dot product, accumulated first index to last. */
  function Dot(a: seq<real>, b: seq<real>): real
    requires |a| == |b|
  {
    if a == [] then 0.0 else Dot(a[..|a| - 1], b[..|b| - 1]) + a[|a| - 1] * b[|b| - 1]
  }

  lemma {:induction false} DotSymmetric(a: seq<real>, b: seq<real>)
    requires |a| == |b|
    ensures Dot(a, b) == Dot(b, a)
  {
    if a != [] {
      DotSymmetric(a[..|a| - 1], b[..|b| - 1]);
    }
  }

  lemma {:induction false} DotSelfAtLeast(v: seq<real>, j: nat)
    requires j < |v|
    ensures Dot(v, v) >= v[j] * v[j] >= 0.0
  {
    var p := v[..|v| - 1];
    DotSelfNonNegative(p);
    if j < |v| - 1 {
      DotSelfAtLeast(p, j);
    }
  }

  lemma {:induction false} DotSelfNonNegative(v: seq<real>)
    ensures Dot(v, v) >= 0.0
  {
    if v != [] {
      DotSelfNonNegative(v[..|v| - 1]);
    }
  }

  lemma {:induction false} DotZero(a: seq<real>, b: seq<real>)
    requires |a| == |b|
    requires forall i :: 0 <= i < |a| ==> a[i] == 0.0
    ensures Dot(a, b) == 0.0
  {
    if a != [] {
      DotZero(a[..|a| - 1], b[..|b| - 1]);
    }
  }

  lemma {:induction false} DotNonNegative(a: seq<real>, b: seq<real>)
    requires |a| == |b|
    requires forall i :: 0 <= i < |a| ==> a[i] >= 0.0 && b[i] >= 0.0
    ensures Dot(a, b) >= 0.0
  {
    if a != [] {
      DotNonNegative(a[..|a| - 1], b[..|b| - 1]);
    }
  }

  /** A vector that is zero except for `x` at `j` has squared length `x * x`. */
  lemma {:induction false} DotSelfSingle(v: seq<real>, j: nat)
    requires j < |v|
    requires forall i :: 0 <= i < |v| && i != j ==> v[i] == 0.0
    ensures Dot(v, v) == v[j] * v[j]
  {
    var p := v[..|v| - 1];
    if j < |v| - 1 {
      DotSelfSingle(p, j);
    } else {
      DotZero(p, p);
    }
  }

  /** `v.map(val => m > 0 ? val / m : 0)`. */
  function Normalize(v: seq<real>, m: real): seq<real> {
    seq(|v|, i requires 0 <= i < |v| => if m > 0.0 then v[i] / m else 0.0)
  }

  /** Dividing every component by `m` divides the squared length by `k`, which is `m * m`. */
  lemma {:induction false} DotNormalize(v: seq<real>, m: real, k: real)
    requires m > 0.0 && m * m == k
    ensures Dot(Normalize(v, m), Normalize(v, m)) * k == Dot(v, v)
  {
    if v != [] {
      var n := Normalize(v, m);
      var p := v[..|v| - 1];
      assert n[..|n| - 1] == Normalize(p, m);
      DotNormalize(p, m, k);
      var x, y := v[|v| - 1], n[|n| - 1];
      assert y * m == x;
      assert y * y * k == (y * m) * (y * m);
      var d := Dot(Normalize(p, m), Normalize(p, m));
      assert (d + y * y) * k == d * k + y * y * k;
    }
  }

  lemma ProductIsOne(d: real, k: real)
    requires k > 0.0 && d * k == k
    ensures d == 1.0
  {
  }

  /** A square root that is exact at `x * x` for a non-negative `x` yields `x`. */
  lemma SqrtOfSquare(sqrt: real -> real, x: real)
    requires x >= 0.0 && SqrtAt(sqrt, x * x)
    ensures sqrt(x * x) == x
  {
    var s := sqrt(x * x);
    assert (s - x) * (s + x) == 0.0;
    ProductZero(s - x, s + x);
  }

  lemma ProductZero(a: real, b: real)
    requires a * b == 0.0
    ensures a == 0.0 || b == 0.0
  {
  }

  lemma PositiveRoot(sqrt: real -> real, x: real)
    requires SqrtAt(sqrt, x) && x > 0.0
    ensures sqrt(x) > 0.0
  {
    assert sqrt(x) != 0.0;
  }

  /** Divided by its exact magnitude, a non-zero vector has length 1. */
  lemma NormalizeIsUnit(v: seq<real>, sqrt: real -> real)
    requires SqrtAt(sqrt, Dot(v, v)) && Dot(v, v) > 0.0
    ensures Dot(Normalize(v, sqrt(Dot(v, v))), Normalize(v, sqrt(Dot(v, v)))) == 1.0
  {
    var m := sqrt(Dot(v, v));
    PositiveRoot(sqrt, Dot(v, v));
    var k := Dot(v, v);
    DotNormalize(v, m, k);
    var d := Dot(Normalize(v, m), Normalize(v, m));
    calc {
      d * k;
      Dot(v, v);
      k;
    }
    ProductIsOne(d, k);
  }

  lemma NormalizeNonNegative(v: seq<real>, m: real)
    requires forall i :: 0 <= i < |v| ==> v[i] >= 0.0
    ensures forall i :: 0 <= i < |v| ==> Normalize(v, m)[i] >= 0.0
  {
    forall i | 0 <= i < |v|
      ensures Normalize(v, m)[i] >= 0.0
    {
      if m > 0.0 {
        assert v[i] / m >= 0.0;
      }
    }
  }

  // ---------------------------------------------------------------------------------------
  // The fallback embedding

  /** The fallback array before normalising. */
  function FallbackRaw(text: string): Vector {
    var tokens := Tokens(text);
    Accumulate(tokens, |tokens|)
  }

  /** `generateFallbackEmbedding(text)`. */
  function FallbackSpec(text: string, sqrt: real -> real): Vector {
    var v := FallbackRaw(text);
    Normalize(v, sqrt(Dot(v, v)))
  }

  /** `generateFallbackEmbedding`: fills a 384-slot array token by token, then normalises it. */
  method FallbackEmbedding(text: string, sqrt: real -> real) returns (r: Vector)
    ensures r == FallbackSpec(text, sqrt)
  {
    var words := Tokens(text);
    var embedding := new real[FallbackDimension](_ => 0.0);
    var i := 0;
    while i < |words|
      invariant 0 <= i <= |words|
      invariant forall k :: 0 <= k < FallbackDimension ==> embedding[k] == Accumulate(words, i)[k]
    {
      var index := TokenIndex(words[i]);
      embedding[index] := embedding[index] + TokenWeight(i);
      i := i + 1;
    }
    assert embedding[..] == Accumulate(words, |words|);
    var v := embedding[..];
    var magnitude := sqrt(Dot(v, v));
    r := Normalize(v, magnitude);
  }

  /** The first token alone puts weight 1 in the array, so the fallback is never all zero. */
  lemma FallbackRawIsNonZero(text: string)
    ensures Dot(FallbackRaw(text), FallbackRaw(text)) >= 1.0
  {
    var tokens := Tokens(text);
    var v := FallbackRaw(text);
    AccumulateAtLeast(tokens, |tokens|, 0);
    var j := TokenIndex(tokens[0]);
    DotSelfAtLeast(v, j);
    assert v[j] >= 1.0;
    assert v[j] * v[j] >= 1.0;
  }

  /** Every component of the fallback embedding is at least 0. */
  lemma FallbackNonNegative(text: string, sqrt: real -> real)
    ensures forall i :: 0 <= i < FallbackDimension ==> FallbackSpec(text, sqrt)[i] >= 0.0
  {
    var tokens := Tokens(text);
    AccumulateNonNegative(tokens, |tokens|);
    var v := FallbackRaw(text);
    NormalizeNonNegative(v, sqrt(Dot(v, v)));
  }

  /** With an exact square root, the fallback embedding has length 1. */
  lemma FallbackIsUnit(text: string, sqrt: real -> real)
    requires SqrtAt(sqrt, Dot(FallbackRaw(text), FallbackRaw(text)))
    ensures Dot(FallbackSpec(text, sqrt), FallbackSpec(text, sqrt)) == 1.0
  {
    FallbackRawIsNonZero(text);
    NormalizeIsUnit(FallbackRaw(text), sqrt);
  }

  function UnitAt(j: nat): Vector
    requires j < FallbackDimension
  {
    Zeros()[j := 1.0]
  }

  /** The empty text is one empty token, which hashes to 0 and carries weight 1: the result is the first unit vector. */
  lemma EmptyTextEmbedding(sqrt: real -> real)
    requires SqrtAt(sqrt, 1.0)
    ensures FallbackSpec("", sqrt) == UnitAt(0)
  {
    EmptyTextHasOneEmptyToken();
    assert Hash("") == 0;
    var v := FallbackRaw("");
    assert v == UnitAt(0);
    DotSelfSingle(v, 0);
    SqrtOfSquare(sqrt, 1.0);
  }

  // ---------------------------------------------------------------------------------------
  // Cosine similarity

  /** `cosineSimilarity(a, b)`: 0 for different lengths or a zero magnitude, else the dot product over both magnitudes. */
  function Cosine(a: seq<real>, b: seq<real>, sqrt: real -> real): real {
    if |a| != |b| then 0.0
    else
      var m1 := sqrt(Dot(a, a));
      var m2 := sqrt(Dot(b, b));
      if m1 == 0.0 || m2 == 0.0 then 0.0 else Dot(a, b) / (m1 * m2)
  }

  /** `cosineSimilarity`: one loop accumulating the dot product and both squared magnitudes. */
  method CosineSimilarity(a: seq<real>, b: seq<real>, sqrt: real -> real) returns (r: real)
    ensures r == Cosine(a, b, sqrt)
  {
    if |a| != |b| {
      return 0.0;
    }
    var dotProduct, magnitude1, magnitude2 := 0.0, 0.0, 0.0;
    var i := 0;
    while i < |a|
      invariant 0 <= i <= |a|
      invariant dotProduct == Dot(a[..i], b[..i])
      invariant magnitude1 == Dot(a[..i], a[..i])
      invariant magnitude2 == Dot(b[..i], b[..i])
    {
      assert a[..i + 1][..i] == a[..i] && b[..i + 1][..i] == b[..i];
      dotProduct := dotProduct + a[i] * b[i];
      magnitude1 := magnitude1 + a[i] * a[i];
      magnitude2 := magnitude2 + b[i] * b[i];
      i := i + 1;
    }
    assert a[..i] == a && b[..i] == b;
    magnitude1 := sqrt(magnitude1);
    magnitude2 := sqrt(magnitude2);
    if magnitude1 == 0.0 || magnitude2 == 0.0 {
      return 0.0;
    }
    r := dotProduct / (magnitude1 * magnitude2);
  }

  lemma CosineLengthMismatch(a: seq<real>, b: seq<real>, sqrt: real -> real)
    requires |a| != |b|
    ensures Cosine(a, b, sqrt) == 0.0
  {
  }

  /** A zero vector, whose exact magnitude is 0, is similar to nothing. */
  lemma CosineZeroVector(a: seq<real>, b: seq<real>, sqrt: real -> real)
    requires forall i :: 0 <= i < |a| ==> a[i] == 0.0
    requires SqrtAt(sqrt, 0.0)
    ensures Cosine(a, b, sqrt) == 0.0 && Cosine(b, a, sqrt) == 0.0
  {
    if |a| == |b| {
      DotZero(a, a);
      SqrtOfSquare(sqrt, 0.0);
    }
  }

  lemma CosineSymmetric(a: seq<real>, b: seq<real>, sqrt: real -> real)
    ensures Cosine(a, b, sqrt) == Cosine(b, a, sqrt)
  {
    if |a| == |b| {
      DotSymmetric(a, b);
      var m1 := sqrt(Dot(a, a));
      var m2 := sqrt(Dot(b, b));
      assert m1 * m2 == m2 * m1;
    }
  }

  /** A non-zero vector is fully similar to itself. */
  lemma CosineSelf(a: seq<real>, sqrt: real -> real)
    requires SqrtAt(sqrt, Dot(a, a)) && Dot(a, a) > 0.0
    ensures Cosine(a, a, sqrt) == 1.0
  {
    PositiveRoot(sqrt, Dot(a, a));
    var m := sqrt(Dot(a, a));
    assert m * m == Dot(a, a) > 0.0;
    assert Dot(a, a) / (m * m) == 1.0;
  }

  /** Vectors with no negative component, such as fallback embeddings, are never dissimilar. */
  lemma CosineNonNegative(a: seq<real>, b: seq<real>, sqrt: real -> real)
    requires |a| == |b|
    requires forall i :: 0 <= i < |a| ==> a[i] >= 0.0 && b[i] >= 0.0
    requires SqrtAt(sqrt, Dot(a, a)) && SqrtAt(sqrt, Dot(b, b))
    ensures Cosine(a, b, sqrt) >= 0.0
  {
    DotNonNegative(a, b);
    var m1 := sqrt(Dot(a, a));
    var m2 := sqrt(Dot(b, b));
    if m1 != 0.0 && m2 != 0.0 {
      assert m1 * m2 > 0.0;
      assert Dot(a, b) / (m1 * m2) >= 0.0;
    }
  }

  // ---------------------------------------------------------------------------------------
  // The text a post is embedded from

  function IsNonEmpty(s: string): bool {
    s != []
  }

  /** The candidate parts: title, description, category or `''`, and the tags joined by spaces. */
  function EmbeddingParts(post: OrganizationPost): seq<string> {
    [post.title, post.description, post.category.GetOr(""), Join(post.tags, " ")]
  }

  /** `getPostEmbeddingText`: the non-empty parts, in order, joined by single spaces. */
  function EmbeddingText(post: OrganizationPost): string {
    Join(Filter(EmbeddingParts(post), IsNonEmpty), " ")
  }

  lemma {:induction false} JoinEmpty(xs: seq<string>, sep: string)
    requires xs != [] && forall i :: 0 <= i < |xs| ==> xs[i] != []
    ensures Join(xs, sep) != []
  {
    assert |xs[0]| >= 1;
    if |xs| > 1 {
      JoinEmpty(xs[1..], sep);
    }
  }

  /** The text is empty exactly when every part is. */
  lemma EmbeddingTextEmpty(post: OrganizationPost)
    ensures EmbeddingText(post) == [] <==> forall i :: 0 <= i < 4 ==> EmbeddingParts(post)[i] == []
  {
    var parts := EmbeddingParts(post);
    var kept := Filter(parts, IsNonEmpty);
    if kept != [] {
      JoinEmpty(kept, " ");
      FilterMembers(parts, IsNonEmpty, kept[0]);
    } else {
      forall i | 0 <= i < 4
        ensures parts[i] == []
      {
        FilterMembers(parts, IsNonEmpty, parts[i]);
      }
    }
  }

  /** With every part present, the text is the four parts separated by single spaces. */
  lemma EmbeddingTextAllParts(post: OrganizationPost)
    requires forall i :: 0 <= i < 4 ==> EmbeddingParts(post)[i] != []
    ensures EmbeddingText(post) ==
      post.title + " " + post.description + " " + post.category.GetOr("") + " " + Join(post.tags, " ")
  {
    var parts := EmbeddingParts(post);
    FilterAll(parts, IsNonEmpty);
    var a, b, c, d := parts[0], parts[1], parts[2], parts[3];
    assert parts[1..] == [b, c, d] && [b, c, d][1..] == [c, d] && [c, d][1..] == [d];
    assert Join([c, d], " ") == c + " " + d;
    assert Join([b, c, d], " ") == b + " " + (c + " " + d);
  }

  /** Example case: a post with an empty title and no category or tags is embedded from its description alone. */
  lemma EmbeddingTextDescriptionOnly(post: OrganizationPost)
    requires post.title == [] && post.category.GetOr("") == [] && post.tags == []
    ensures EmbeddingText(post) == post.description
  {
    var parts := EmbeddingParts(post);
    assert Join(post.tags, " ") == [];
    assert parts[1..] == [parts[1], parts[2], parts[3]];
    assert parts[1..][1..] == [parts[2], parts[3]] && [parts[2], parts[3]][1..] == [parts[3]];
    assert Filter(parts[1..][1..], IsNonEmpty) == [];
    if post.description == [] {
      assert Filter(parts, IsNonEmpty) == [];
    } else {
      assert Filter(parts, IsNonEmpty) == [post.description];
    }
  }

  // ---------------------------------------------------------------------------------------
  // Choosing the provider or the fallback

  /** What the remote embedding request produced: an error of any kind, or a vector. */
  datatype ProviderReply = Failed | Embedded(vector: Vector)

  /**
   * The configuration `generateEmbedding` reads: the API key (`""` when unset, which `!apiKey`
   * treats alike) and the remote provider, as the reply it gives for a text.
   */
  datatype Embedder = Embedder(apiKey: string, provider: string -> ProviderReply)

  function EmbeddingSpec(e: Embedder, text: string, sqrt: real -> real): Vector {
    if e.apiKey == "" then FallbackSpec(text, sqrt)
    else match e.provider(text)
      case Failed => FallbackSpec(text, sqrt)
      case Embedded(v) => v
  }

  /** `generateEmbedding`: the provider's vector when a key is set and the request succeeds, else the fallback. */
  method GenerateEmbedding(e: Embedder, text: string, sqrt: real -> real) returns (r: Vector)
    ensures e.apiKey == "" ==> r == FallbackSpec(text, sqrt)
    ensures e.apiKey != "" && e.provider(text).Failed? ==> r == FallbackSpec(text, sqrt)
    ensures e.apiKey != "" && e.provider(text).Embedded? ==> r == e.provider(text).vector
    ensures r == EmbeddingSpec(e, text, sqrt)
  {
    if e.apiKey == "" {
      r := FallbackEmbedding(text, sqrt);
      return;
    }
    var reply := e.provider(text);
    match reply
    case Failed =>
      r := FallbackEmbedding(text, sqrt);
    case Embedded(v) =>
      r := v;
  }

  /** Without a working provider the embedding is a non-negative unit vector. */
  lemma FallbackEmbeddingShape(e: Embedder, text: string, sqrt: real -> real)
    requires e.apiKey == "" || e.provider(text).Failed?
    requires SqrtAt(sqrt, Dot(FallbackRaw(text), FallbackRaw(text)))
    ensures var r := EmbeddingSpec(e, text, sqrt);
            Dot(r, r) == 1.0 && forall i :: 0 <= i < FallbackDimension ==> r[i] >= 0.0
  {
    FallbackIsUnit(text, sqrt);
    FallbackNonNegative(text, sqrt);
  }
}
