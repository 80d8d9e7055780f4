/** store_words and load_words: bytes that peers may read at the same time move as whole 64-bit words. */
module SharedWords {

  type Byte = x: nat | x < 256

  const WORD: nat := 8

  /** A little-endian word, zero-padded. */
  function Join(bs: seq<Byte>): nat {
    if bs == [] then 0 else bs[0] + 256 * Join(bs[1..])
  }

  function Split(w: nat, n: nat): (bs: seq<Byte>)
    ensures |bs| == n
  {
    if n == 0 then [] else [w % 256] + Split(w / 256, n - 1)
  }

  /** The bytes of word `w`; the last word may have fewer than eight. */
  function Chunk(bs: seq<Byte>, w: nat): seq<Byte>
    requires WORD * w <= |bs|
  {
    if WORD * w + WORD <= |bs| then bs[WORD * w..WORD * w + WORD] else bs[WORD * w..]
  }

  /** Words that hold `n` bytes. */
  function WordsFor(n: nat): nat { (n + WORD - 1) / WORD }

  /** The words hold exactly those bytes. */
  ghost predicate Holds(ws: seq<nat>, bs: seq<Byte>) {
    && WordsFor(|bs|) <= |ws|
    && forall w: nat :: WORD * w < |bs| ==> ws[w] == Join(Chunk(bs, w))
  }

  function ByteAt(ws: seq<nat>, i: nat): Byte
    requires i / WORD < |ws|
  {
    Split(ws[i / WORD], WORD)[i % WORD]
  }

  lemma {:induction false} SplitJoin(bs: seq<Byte>, n: nat, i: nat)
    requires i < |bs| <= n
    ensures Split(Join(bs), n)[i] == bs[i]
  {
    assert Join(bs) % 256 == bs[0] && Join(bs) / 256 == Join(bs[1..]);
    if i > 0 { SplitJoin(bs[1..], n - 1, i - 1); }
  }

  /** What was stored is what is loaded, every length, whatever the rest of the last word and the words behind it. */
  lemma StoredIsLoaded(ws: seq<nat>, bs: seq<Byte>, i: nat)
    requires Holds(ws, bs) && i < |bs|
    ensures i / WORD < |ws| && ByteAt(ws, i) == bs[i]
  {
    var w := i / WORD;
    assert ws[w] == Join(Chunk(bs, w));
    SplitJoin(Chunk(bs, w), WORD, i % WORD);
  }

  /** store_words() */
  method StoreWords(shared: array<nat>, src: seq<Byte>)
    requires WordsFor(|src|) <= shared.Length
    modifies shared
    ensures Holds(shared[..], src)
    ensures forall w :: WordsFor(|src|) <= w < shared.Length ==> shared[w] == old(shared[w])
  {
    var full := |src| / WORD;
    var w := 0;
    while w < full
      invariant w <= full
      invariant forall v: nat :: v < w ==> shared[v] == Join(Chunk(src, v))
      invariant forall v :: w <= v < shared.Length ==> shared[v] == old(shared[v])
    {
      shared[w] := Join(src[WORD * w..WORD * w + WORD]);
      w := w + 1;
    }
    if |src| % WORD != 0 {
      shared[full] := Join(src[WORD * full..]);
    }
  }

  /** load_words() of `len` bytes. */
  method LoadWords(dst: array<Byte>, shared: array<nat>, len: nat)
    requires len <= dst.Length && WordsFor(len) <= shared.Length
    modifies dst
    ensures forall i: nat :: i < len ==> dst[i] == ByteAt(shared[..], i)
    ensures forall i :: len <= i < dst.Length ==> dst[i] == old(dst[i])
  {
    var full := len / WORD;
    var w := 0;
    while w < full
      invariant w <= full
      invariant forall i: nat :: i < WORD * w ==> dst[i] == ByteAt(shared[..], i)
      invariant forall i :: WORD * w <= i < dst.Length ==> dst[i] == old(dst[i])
    {
      var bytes := Split(shared[w], WORD);
      forall k | 0 <= k < WORD { dst[WORD * w + k] := bytes[k]; }
      w := w + 1;
    }
    var bytes := if len % WORD == 0 then [] else Split(shared[full], WORD);
    forall k | 0 <= k < len % WORD { dst[WORD * full + k] := bytes[k]; }
  }
}
