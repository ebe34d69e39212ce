/** `cryptoRandIndex`: a uniform index by rejection sampling over 32-bit words. */
module RandIndex {
  import opened Words
  import opened Outcomes

  const MAX_WORD: int := 0xFFFF_FFFF

  /** Words below this bound are used, the others are drawn again. */
  function Limit(n: nat): (l: nat)
    requires 1 <= n <= MAX_WORD
    ensures l <= MAX_WORD
  {
    MAX_WORD - MAX_WORD % n
  }

  /** The words that are accepted and select index `i`. */
  ghost function Preimage(n: nat, i: nat): set<nat>
    requires 1 <= n <= MAX_WORD
  {
    set v: nat | v < Limit(n) && v % n == i
  }

  lemma LimitIsMultiple(n: nat)
    requires 1 <= n <= MAX_WORD
    ensures Limit(n) == n * (MAX_WORD / n) && Limit(n) / n == MAX_WORD / n
  {
    assert MAX_WORD == n * (MAX_WORD / n) + MAX_WORD % n;
    RemainderOfSum(n, MAX_WORD / n, 0);
  }

  /** The bound is the largest multiple of `n` that is a 32-bit word. */
  lemma LimitIsLargestMultiple(n: nat)
    requires 1 <= n <= MAX_WORD
    ensures Limit(n) % n == 0 && Limit(n) <= 0xFFFF_FFFF < Limit(n) + n
  {
    LimitIsMultiple(n);
    RemainderOfSum(n, MAX_WORD / n, 0);
  }

  lemma MultipleGrows(n: int, d: int, e: int)
    requires n >= 0 && d <= e
    ensures n * d <= n * e
  {
  }

  lemma SmallMultipleIsZero(n: int, d: int)
    requires n >= 1 && -n < n * d < n
    ensures d == 0
  {
    if d >= 1 {
      MultipleGrows(n, 1, d);
    } else if d <= -1 {
      MultipleGrows(n, d, -1);
    }
  }

  lemma RemainderOfSum(n: nat, q: nat, i: nat)
    requires n >= 1 && i < n
    ensures (n * q + i) % n == i && (n * q + i) / n == q
  {
    var m := n * q + i;
    assert m == n * (m / n) + m % n;
    assert n * (m / n - q) == n * (m / n) - n * q;
    SmallMultipleIsZero(n, m / n - q);
  }

  ghost function ResidueBelow(n: nat, i: nat, q: nat): set<nat>
    requires n >= 1
  {
    set v: nat | v < n * q && v % n == i
  }

  lemma OnlyOnePerGroup(n: nat, i: nat, q: nat, v: nat)
    requires n >= 1 && i < n && n * q <= v < n * q + n && v % n == i
    ensures v == n * q + i
  {
    RemainderOfSum(n, q, v - n * q);
  }

  lemma NextGroup(n: nat, i: nat, q: nat)
    requires n >= 1 && i < n
    ensures ResidueBelow(n, i, q + 1) == ResidueBelow(n, i, q) + {n * q + i}
    ensures n * q + i !in ResidueBelow(n, i, q)
  {
    var bound := n * q;
    assert n * (q + 1) == bound + n;
    RemainderOfSum(n, q, i);
    var before, after := ResidueBelow(n, i, q), ResidueBelow(n, i, q + 1);
    forall v | v in after
      ensures v in before + {bound + i}
    {
      if v >= bound {
        OnlyOnePerGroup(n, i, q, v);
      }
    }
  }

  lemma NoneBelowZero(n: nat, i: nat)
    requires n >= 1
    ensures ResidueBelow(n, i, 0) == {}
  {
  }

  /** Among the first `q` groups of `n` consecutive words, each residue occurs `q` times. */
  lemma {:induction false} ResidueCount(n: nat, i: nat, q: nat)
    requires n >= 1 && i < n
    ensures |ResidueBelow(n, i, q)| == q
  {
    hide ResidueBelow;
    if q == 0 {
      NoneBelowZero(n, i);
    } else {
      NextGroup(n, i, q - 1);
      ResidueCount(n, i, q - 1);
    }
  }

  /** Every index is selected by the same number of words: `Limit(n) / n`. */
  lemma UniformlyDistributed(n: nat, i: nat)
    requires 1 <= n <= MAX_WORD && i < n
    ensures |Preimage(n, i)| == Limit(n) / n
  {
    LimitIsMultiple(n);
    assert Preimage(n, i) == ResidueBelow(n, i, MAX_WORD / n);
    ResidueCount(n, i, MAX_WORD / n);
  }

  /** At least half of all 2^32 words are accepted. */
  lemma AtLeastHalfAccepted(n: nat)
    requires 1 <= n <= MAX_WORD
    ensures 2 * Limit(n) >= TWO_32
  {
    LimitIsMultiple(n);
    MultipleGrows(n, 1, MAX_WORD / n);
  }

  /** The words that make `cryptoRandIndex(n)` return `i`: `n` is cut to 32 bits first. */
  ghost function Selecting(n: nat, i: nat): set<nat>
    requires n % TWO_32 != 0
  {
    Preimage(n % TWO_32, i)
  }

  /** All `n` indexes are equally likely if and only if `n` fits 32 bits; beyond that some are never returned. */
  lemma UniformExactlyBelowTwo32(n: nat)
    requires n % TWO_32 != 0
    ensures (forall i, j :: 0 <= i < n && 0 <= j < n ==> |Selecting(n, i)| == |Selecting(n, j)|) <==> n < TWO_32
  {
    hide Preimage, Limit;
    var un := n % TWO_32;
    if n < TWO_32 {
      forall i, j | 0 <= i < n && 0 <= j < n ensures |Selecting(n, i)| == |Selecting(n, j)| {
        UniformlyDistributed(un, i);
        UniformlyDistributed(un, j);
      }
    } else {
      UniformlyDistributed(un, 0);
      SomeAreAccepted(un);
      NeverSelected(un, un);
      assert |Selecting(n, 0)| != |Selecting(n, un)|;
    }
  }

  lemma SomeAreAccepted(n: nat)
    requires 1 <= n <= MAX_WORD
    ensures Limit(n) / n >= 1
  {
    LimitIsMultiple(n);
  }

  lemma NeverSelected(n: nat, i: nat)
    requires 1 <= n <= MAX_WORD && i >= n
    ensures Preimage(n, i) == {}
  {
  }

  /**
   `cryptoRandIndex` on the words that the entropy source would yield; the read after the last
   of them fails.  A multiple of 2^32 becomes 0 in 32 bits, and the code divides by it.
   */
  method CryptoRandIndex(n: int, entropy: seq<u32>) returns (r: Result<nat>)
    ensures r.Ok? ==> n > 0 && n % TWO_32 != 0 && r.value < n % TWO_32 <= n
    ensures r.Ok? ==> exists k: nat ::
              FirstAccepted(n % TWO_32, entropy, k) && r.value == entropy[k] as nat % (n % TWO_32)
    ensures r.Err? ==> n <= 0 || n % TWO_32 == 0 || NoneAccepted(n % TWO_32, entropy)
  {
    if n <= 0 {
      return Err("invalid n");
    }
    var un := n % TWO_32;
    if un == 0 {
      return Err("integer divide by zero");
    }
    var limit := Limit(un);
    for i := 0 to |entropy|
      invariant forall k :: 0 <= k < i ==> entropy[k] as nat >= limit
    {
      var v := entropy[i] as nat;
      if v < limit {
        assert FirstAccepted(un, entropy, i);
        return Ok(v % un);
      }
    }
    return Err("crypto/rand failed");
  }

  predicate NoneAccepted(n: nat, entropy: seq<u32>)
    requires 1 <= n <= MAX_WORD
  {
    forall k :: 0 <= k < |entropy| ==> entropy[k] as nat >= Limit(n)
  }

  predicate FirstAccepted(n: nat, entropy: seq<u32>, k: nat)
    requires 1 <= n <= MAX_WORD
  {
    && k < |entropy| && (entropy[k] as nat) < Limit(n)
    && forall j :: 0 <= j < k ==> entropy[j] as nat >= Limit(n)
  }
}
