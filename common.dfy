/** Shared vocabulary: fixed-width integers, byte strings, last-writer-wins
    attribute folding and the network-to-host byte-order conversion. */
module Common {

  datatype Option<+T> = None | Some(value: T)

  type U8 = x: int | 0 <= x < 0x100
  type U16 = x: int | 0 <= x < 0x1_0000
  type U32 = x: int | 0 <= x < 0x1_0000_0000
  type U64 = x: int | 0 <= x < 0x1_0000_0000_0000_0000

  /** An object handle (sai_object_id_t and switch_handle_t are both 64 bits wide). */
  type Handle = U64

  /** A 6-byte Ethernet address. */
  type MacAddr = s: seq<U8> | |s| == 6 witness [0, 0, 0, 0, 0, 0]

  /** A 16-byte IPv6 address or mask. */
  type Ip6Addr = s: seq<U8> | |s| == 16
    witness [0, 0, 0, 0, 0, 0, 0, 0, 0, 0, 0, 0, 0, 0, 0, 0]

  const ZeroMac: MacAddr := [0, 0, 0, 0, 0, 0]
  const ZeroIp6: Ip6Addr := [0, 0, 0, 0, 0, 0, 0, 0, 0, 0, 0, 0, 0, 0, 0, 0]

  /** The value left by a loop that overwrites a variable with `pick(a).value`
      for every attribute `a` for which `pick` applies, starting from `init`.
      Defined from the end of the list: the last applicable attribute wins. */
  function LastOf<A, V>(s: seq<A>, pick: A -> Option<V>, init: V): V
  {
    if |s| == 0 then init
    else match pick(s[|s| - 1])
         case Some(v) => v
         case None => LastOf(s[..|s| - 1], pick, init)
  }

  /** One more attribute processed: the fold advances by exactly that attribute. */
  lemma LastOfSnoc<A, V>(s: seq<A>, a: A, pick: A -> Option<V>, init: V)
    ensures LastOf(s + [a], pick, init) == (if pick(a).Some? then pick(a).value else LastOf(s, pick, init))
  {
    assert (s + [a])[..|s + [a]| - 1] == s;
  }

  /** Last writer wins: the attribute at position k decides the result when no
      later attribute applies. */
  lemma {:induction false} LastOfWins<A, V>(s: seq<A>, k: nat, pick: A -> Option<V>, init: V)
    requires k < |s| && pick(s[k]).Some?
    requires forall j :: k < j < |s| ==> pick(s[j]).None?
    ensures LastOf(s, pick, init) == pick(s[k]).value
  {
    if k < |s| - 1 {
      var t := s[..|s| - 1];
      assert forall j :: k < j < |t| ==> t[j] == s[j];
      LastOfWins(t, k, pick, init);
    }
  }

  /** With no applicable attribute the initial value survives. */
  lemma {:induction false} LastOfNone<A, V>(s: seq<A>, pick: A -> Option<V>, init: V)
    requires forall j :: 0 <= j < |s| ==> pick(s[j]).None?
    ensures LastOf(s, pick, init) == init
  {
    if |s| > 0 {
      var t := s[..|s| - 1];
      assert forall j :: 0 <= j < |t| ==> t[j] == s[j];
      LastOfNone(t, pick, init);
    }
  }

  /** Quotient and remainder by 256 are determined by any decomposition. */
  lemma Split256(x: int, q: int, r: int)
    requires x == q * 0x100 + r && 0 <= r < 0x100
    ensures x / 0x100 == q && x % 0x100 == r
  {
  }

  /** The four bytes of a 32-bit word, most significant first. */
  function WordBytes(x: U32): (b: seq<U8>)
    ensures |b| == 4
  {
    var q1 := x / 0x100;
    var q2 := q1 / 0x100;
    [q2 / 0x100, q2 % 0x100, q1 % 0x100, x % 0x100]
  }

  /** The word whose bytes, most significant first, are b0 b1 b2 b3. */
  function BytesWord(b0: U8, b1: U8, b2: U8, b3: U8): U32
  {
    b0 * 0x100_0000 + b1 * 0x1_0000 + b2 * 0x100 + b3
  }

  /** Splitting a word into bytes and joining them again gives the word back. */
  lemma BytesWordOfWordBytes(x: U32)
    ensures var b := WordBytes(x); BytesWord(b[0], b[1], b[2], b[3]) == x
  {
    var q1 := x / 0x100;
    var q2 := q1 / 0x100;
    assert x == q1 * 0x100 + x % 0x100;
    assert q1 == q2 * 0x100 + q1 % 0x100;
    assert q2 == (q2 / 0x100) * 0x100 + q2 % 0x100;
  }

  /** Joining four bytes and splitting the word again gives the bytes back. */
  lemma WordBytesOfBytesWord(b0: U8, b1: U8, b2: U8, b3: U8)
    ensures WordBytes(BytesWord(b0, b1, b2, b3)) == [b0, b1, b2, b3]
  {
    var x := BytesWord(b0, b1, b2, b3);
    var m1 := b0 * 0x1_0000 + b1 * 0x100 + b2;
    var m2 := b0 * 0x100 + b1;
    Split256(x, m1, b3);
    Split256(m1, m2, b2);
    Split256(m2, b0, b1);
    var q1 := x / 0x100;
    var q2 := q1 / 0x100;
    assert q1 == m1 && q2 == m2;
    assert WordBytes(x) == [q2 / 0x100, q2 % 0x100, q1 % 0x100, x % 0x100];
  }

  /** ntohl on a little-endian host: the byte order of the 32-bit word is reversed. */
  function Ntohl(x: U32): (r: U32)
    ensures WordBytes(r) == [WordBytes(x)[3], WordBytes(x)[2], WordBytes(x)[1], WordBytes(x)[0]]
  {
    var b := WordBytes(x);
    WordBytesOfBytesWord(b[3], b[2], b[1], b[0]);
    BytesWord(b[3], b[2], b[1], b[0])
  }

  /** Converting twice gives the original word back. */
  lemma NtohlInvolution(x: U32)
    ensures Ntohl(Ntohl(x)) == x
  {
    var y := Ntohl(Ntohl(x));
    assert WordBytes(y) == WordBytes(x);
    BytesWordOfWordBytes(x);
    BytesWordOfWordBytes(y);
  }

  /** The sequence in the opposite order: the order in which a list built by
      inserting every element at the head is walked from the head. */
  function Reverse<T>(s: seq<T>): (r: seq<T>)
    ensures |r| == |s|
  {
    if |s| == 0 then [] else [s[|s| - 1]] + Reverse(s[..|s| - 1])
  }

  /** Element k of the reversed sequence is element |s| - 1 - k of s. */
  lemma {:induction false} ReverseAt<T>(s: seq<T>, k: nat)
    requires k < |s|
    ensures Reverse(s)[k] == s[|s| - 1 - k]
  {
    if k > 0 {
      ReverseAt(s[..|s| - 1], k - 1);
    }
  }

  /** Reversing a concatenation reverses the order of the parts. */
  lemma ReverseAppend<T>(a: seq<T>, b: seq<T>)
    ensures Reverse(a + b) == Reverse(b) + Reverse(a)
  {
    var l, r := Reverse(a + b), Reverse(b) + Reverse(a);
    forall k | 0 <= k < |l|
      ensures l[k] == r[k]
    {
      ReverseAt(a + b, k);
      if k < |b| {
        ReverseAt(b, k);
      } else {
        ReverseAt(a, k - |b|);
      }
    }
  }
}
