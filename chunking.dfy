/**
 * Splitting a reply to fit a platform's message-size limit: a reply that fits
 * is sent as one message, a longer one as consecutive slices of the limit's
 * length (the last one possibly shorter), in order.
 */
module Chunking {
  import opened PyText

  /** The slices `s[i:i + size]` for `i` in `range(0, len(s), size)`. */
  function Slices(s: string, size: nat): seq<string>
    requires size > 0
    decreases |s|
  {
    if s == [] then []
    else
      var k := Min(size, |s|);
      [s[..k]] + Slices(s[k..], size)
  }

  /** The messages sent for one reply under a limit of `size` characters. */
  function Chunks(s: string, size: nat): seq<string>
    requires size > 0
  {
    if |s| > size then Slices(s, size) else [s]
  }

  /** The messages joined back together, in order. */
  function Concat(parts: seq<string>): string
  {
    if parts == [] then "" else parts[0] + Concat(parts[1..])
  }

  /** The slices put back together give the string. */
  lemma {:induction false} SlicesConcat(s: string, size: nat)
    requires size > 0
    ensures Concat(Slices(s, size)) == s
    decreases |s|
  {
    if s != [] {
      var k := Min(size, |s|);
      SlicesConcat(s[k..], size);
      assert Slices(s, size) == [s[..k]] + Slices(s[k..], size);
      assert s[..k] + s[k..] == s;
    }
  }

  /** Every slice is non-empty and at most `size` long; every one but the last is exactly `size` long. */
  lemma {:induction false} SlicesLengths(s: string, size: nat)
    requires size > 0
    ensures forall i :: 0 <= i < |Slices(s, size)| ==> 0 < |Slices(s, size)[i]| <= size
    ensures forall i :: 0 <= i < |Slices(s, size)| - 1 ==> |Slices(s, size)[i]| == size
    decreases |s|
  {
    if s != [] {
      var k := Min(size, |s|);
      SlicesLengths(s[k..], size);
      var rest := Slices(s[k..], size);
      var r := Slices(s, size);
      assert r == [s[..k]] + rest;
      forall i | 0 <= i < |r|
        ensures 0 < |r[i]| <= size
        ensures i < |r| - 1 ==> |r[i]| == size
      {
        if i > 0 {
          assert r[i] == rest[i - 1];
        } else {
          assert r[0] == s[..k] && |s[..k]| == k;
          if |r| > 1 {
            assert rest != [] && s[k..] != [];
            assert k == size;
          }
        }
      }
    }
  }

  /** There are ceil(|s| / size) slices: `|r| - 1` slices of `size` are too few for `s`, `|r|` are enough. */
  lemma {:induction false} SlicesCount(s: string, size: nat)
    requires size > 0
    ensures var r := Slices(s, size);
      && (s == [] <==> r == [])
      && (s != [] ==> (|r| - 1) * size < |s| <= |r| * size)
    decreases |s|
  {
    if s != [] {
      var k := Min(size, |s|);
      SlicesCount(s[k..], size);
      var rest := Slices(s[k..], size);
      var r := Slices(s, size);
      assert r == [s[..k]] + rest;
      if s[k..] != [] {
        assert k == size;
        assert (|rest| - 1) * size < |s| - size <= |rest| * size;
        assert |r| * size == |rest| * size + size;
      }
    }
  }

  lemma MulLess(a: int, b: int, c: int)
    requires c > 0 && a * c < b * c
    ensures a < b
  {
  }

  /** `k` slices of `size` are exactly enough for `n` characters: `k` is ceil(n / size). */
  lemma CeilingCount(n: nat, size: nat, k: nat)
    requires size > 0 && (k - 1) * size < n <= k * size
    ensures k == (n + size - 1) / size
  {
    var x := n + size - 1;
    var q := x / size;
    assert q * size <= x < (q + 1) * size;
    assert k * size <= x by { assert (k - 1) * size == k * size - size; }
    MulLess(k, q + 1, size);
    assert x < (k + 1) * size by { assert (k + 1) * size == k * size + size; }
    MulLess(q, k + 1, size);
  }

  /**
   * What the bots send for a reply: the messages put back together give the
   * reply; each is at most `size` long. A reply of at most `size` characters,
   * the empty one included, goes out as one message; a longer one as
   * ceil(|s| / size) messages, all but the last exactly `size` long.
   */
  lemma ChunksShape(s: string, size: nat)
    requires size > 0
    ensures var r := Chunks(s, size);
      && Concat(r) == s
      && (forall i :: 0 <= i < |r| ==> |r[i]| <= size)
      && (|s| <= size ==> r == [s])
      && (|s| > size ==> |r| == (|s| + size - 1) / size >= 2)
      && (|s| > size ==> forall i :: 0 <= i < |r| - 1 ==> |r[i]| == size)
  {
    var r := Chunks(s, size);
    if |s| > size {
      SlicesConcat(s, size);
      SlicesLengths(s, size);
      SlicesCount(s, size);
      CeilingCount(|s|, size, |r|);
      MulLess(1, |r|, size);
    } else {
      assert Concat(r) == s + "";
    }
  }

  /** A reply of 4500 characters under a limit of 2000 goes out as messages of 2000, 2000 and 500 characters. */
  lemma ChunksOf4500(s: string)
    requires |s| == 4500
    ensures var r := Chunks(s, 2000); |r| == 3 && |r[0]| == 2000 && |r[1]| == 2000 && |r[2]| == 500
  {
    var r := Chunks(s, 2000);
    var tail := s[4000..];
    assert |tail| == 500 && tail[..500] == tail && tail[500..] == [];
    assert Slices(tail, 2000) == [tail];
    assert s[2000..][2000..] == tail;
    assert Slices(s[2000..], 2000) == [s[2000..][..2000]] + Slices(tail, 2000);
    assert r == [s[..2000]] + Slices(s[2000..], 2000);
  }

  /**
   * The sending loop of the bots: when the reply is longer than `maxLength`,
   * send `reply[i:i + maxLength]` for `i` in `range(0, len(reply), maxLength)`;
   * otherwise send the reply as it is. The messages sent, in order.
   */
  method SendInChunks(reply: string, maxLength: nat) returns (sent: seq<string>)
    requires maxLength > 0
    ensures sent == Chunks(reply, maxLength)
  {
    if |reply| > maxLength {
      sent := [];
      var i := 0;
      while i < |reply|
        invariant 0 <= i
        invariant sent + Slices(reply[Min(i, |reply|)..], maxLength) == Slices(reply, maxLength)
        decreases |reply| - i
      {
        var next := reply[i..Min(i + maxLength, |reply|)];
        assert Slices(reply[i..], maxLength) == [next] + Slices(reply[Min(i + maxLength, |reply|)..], maxLength) by {
          assert reply[i..][Min(maxLength, |reply| - i)..] == reply[Min(i + maxLength, |reply|)..];
          assert reply[i..][..Min(maxLength, |reply| - i)] == next;
        }
        sent := sent + [next];
        i := i + maxLength;
      }
    } else {
      sent := [reply];
    }
  }
}
