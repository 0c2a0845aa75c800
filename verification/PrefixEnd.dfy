/** The exclusive end of the key range that selects a prefix (gh/prefix_end.cpp). */
module PrefixRange {
  import opened ByteStrings

  /** The bytes read as one big-endian number. */
  function BigEndian(s: Bytes): nat {
    if s == [] then 0 else 0x100 * BigEndian(s[..|s| - 1]) + s[|s| - 1]
  }

  /** How many 0xFF bytes the string ends with. */
  function TrailingMax(s: Bytes): (n: nat)
    ensures n <= |s| && forall i :: |s| - n <= i < |s| ==> s[i] == 0xFF
    ensures n < |s| ==> s[|s| - n - 1] != 0xFF
  {
    if s == [] || s[|s| - 1] != 0xFF then 0 else 1 + TrailingMax(s[..|s| - 1])
  }

  /** A leading part, a byte that grows by one, and n zero bytes. */
  function Raised(lead: Bytes, b: byte, n: nat): Bytes
    requires b < 0xFF
  {
    lead + ([b + 1] + Repeat(0, n))
  }

  /** The value `PrefixEnd` computes: the byte before the trailing 0xFF run grows by one and the run becomes zeros;
      a string of nothing but 0xFF bytes becomes zeros followed by a one. */
  function EndOf(prefix: Bytes): (end: Bytes)
    ensures end != [] && end != [0]
  {
    var n := TrailingMax(prefix);
    if n == |prefix| then
      var end := Repeat(0, n) + [1];
      assert end[n] == 1;
      end
    else
      var i := |prefix| - n - 1;
      var end := Raised(prefix[..i], prefix[i], n);
      assert end[i] == prefix[i] + 1;
      end
  }

  method PrefixEnd(prefix: Bytes) returns (rangeEnd: Bytes)
    ensures rangeEnd == EndOf(prefix)
  {
    rangeEnd := prefix;
    var needsAppend := true;
    var i := |rangeEnd|;
    while i > 0
      invariant 0 <= i <= |prefix| == |rangeEnd|
      invariant needsAppend
      invariant forall j :: i <= j < |prefix| ==> prefix[j] == 0xFF
      invariant rangeEnd == prefix[..i] + Repeat(0, |prefix| - i)
    {
      i := i - 1;
      if rangeEnd[i] == 0xFF {
        rangeEnd := rangeEnd[i := 0];
        continue;
      }
      rangeEnd := rangeEnd[i := rangeEnd[i] + 1];
      needsAppend := false;
      break;
    }
    TrailingMaxIs(prefix, if needsAppend then |prefix| else |prefix| - i - 1);
    if needsAppend {
      rangeEnd := rangeEnd + [1];
    }
  }

  lemma {:induction false} TrailingMaxIs(s: Bytes, n: nat)
    requires n <= |s| && forall i :: |s| - n <= i < |s| ==> s[i] == 0xFF
    requires n < |s| ==> s[|s| - n - 1] != 0xFF
    ensures TrailingMax(s) == n
  {
    if n > 0 {
      TrailingMaxIs(s[..|s| - 1], n - 1);
    }
  }

  /** With a byte other than 0xFF, the end has the same length and is one more than the prefix, as numbers. */
  lemma {:induction false} EndIsNumericSuccessor(prefix: Bytes)
    requires TrailingMax(prefix) < |prefix|
    ensures |EndOf(prefix)| == |prefix| && BigEndian(EndOf(prefix)) == BigEndian(prefix) + 1
  {
    var init, last, end := prefix[..|prefix| - 1], prefix[|prefix| - 1], EndOf(prefix);
    if last == 0xFF {
      EndIsNumericSuccessor(init);
      assert end == EndOf(init) + [0];
      assert end[..|end| - 1] == EndOf(init);
    } else {
      assert end[..|end| - 1] == init && end[|end| - 1] == last + 1;
    }
  }

  /** The j-th string that lies in the range of `prefix` without starting with it. */
  function Extra(prefix: Bytes, j: nat): Bytes
    requires TrailingMax(prefix) < |prefix|
  {
    var i := |prefix| - TrailingMax(prefix) - 1;
    Raised(prefix[..i], prefix[i], j)
  }

  /** The range [prefix, end) holds the strings that start with the prefix and one extra string for each trailing
      0xFF byte, nothing else. */
  lemma PrefixRangeIs(prefix: Bytes, s: Bytes)
    requires TrailingMax(prefix) < |prefix|
    ensures InRange(s, prefix, EndOf(prefix)) <==>
            prefix <= s || exists j: nat :: j < TrailingMax(prefix) && s == Extra(prefix, j)
  {
    var n := TrailingMax(prefix);
    var i := |prefix| - n - 1;
    SplitBeforeMaxRun(prefix, n);
    DecomposedRange(prefix[..i], prefix[i], n, s);
    assert forall j: nat :: Extra(prefix, j) == Raised(prefix[..i], prefix[i], j);
  }

  lemma SplitBeforeMaxRun(prefix: Bytes, n: nat)
    requires n < |prefix| && forall i :: |prefix| - n <= i < |prefix| ==> prefix[i] == 0xFF
    ensures prefix == prefix[..|prefix| - n - 1] + ([prefix[|prefix| - n - 1]] + Repeat(0xFF, n))
  {
    var i := |prefix| - n - 1;
    assert prefix[i + 1..] == Repeat(0xFF, n);
    assert prefix == prefix[..i] + ([prefix[i]] + prefix[i + 1..]);
  }

  lemma DecomposedRange(lead: Bytes, b: byte, n: nat, s: Bytes)
    requires b < 0xFF
    ensures
      var low := lead + ([b] + Repeat(0xFF, n));
      !Less(s, low) && Less(s, Raised(lead, b, n)) <==> low <= s || exists j: nat :: j < n && s == Raised(lead, b, j)
  {
    var low, high := [b] + Repeat(0xFF, n), [b + 1] + Repeat(0, n);
    SharedLead(lead, s, low, high);
    Decompose(lead, low, s);
    if lead <= s {
      LastByteRange(s[|lead|..], b, n);
      if j: nat :| j < n && s[|lead|..] == [b + 1] + Repeat(0, j) {
        Decompose(lead, [b + 1] + Repeat(0, j), s);
        assert s == Raised(lead, b, j);
      }
    }
    if j: nat :| j < n && s == Raised(lead, b, j) {
      Decompose(lead, [b + 1] + Repeat(0, j), s);
      assert s[|lead|..] == [b + 1] + Repeat(0, j);
    }
  }

  lemma Decompose(lead: Bytes, rest: Bytes, s: Bytes)
    ensures lead + rest <= s <==> lead <= s && rest <= s[|lead|..]
    ensures s == lead + rest <==> lead <= s && s[|lead|..] == rest
  {
    if lead <= s {
      assert s == lead + s[|lead|..];
      if rest <= s[|lead|..] {
        assert s[|lead|..] == rest + s[|lead| + |rest|..];
      }
    }
    if lead + rest <= s {
      assert s == lead + rest + s[|lead| + |rest|..];
    }
  }

  /** The same statement for what follows the shared leading part. */
  lemma LastByteRange(t: Bytes, b: byte, n: nat)
    requires b < 0xFF
    ensures !Less(t, [b] + Repeat(0xFF, n)) && Less(t, [b + 1] + Repeat(0, n)) <==>
            [b] + Repeat(0xFF, n) <= t || exists j: nat :: j < n && t == [b + 1] + Repeat(0, j)
  {
    var low, high := [b] + Repeat(0xFF, n), [b + 1] + Repeat(0, n);
    if t != [] {
      assert low[1..] == Repeat(0xFF, n) && high[1..] == Repeat(0, n);
      AfterMaxRun(t[1..], n);
      BeforeZeroRun(t[1..], n);
      assert t == [t[0]] + t[1..];
      if t[0] == b + 1 && Less(t, high) {
        assert t == [b + 1] + Repeat(0, |t| - 1);
      }
      forall j: nat | t == [b + 1] + Repeat(0, j) ensures t[1..] == Repeat(0, j) {}
    }
  }

  /** The range selects exactly the strings with the prefix if and only if the prefix is not empty and its last byte
      is not 0xFF. */
  lemma PrefixRangeExactIff(prefix: Bytes)
    ensures (forall s: Bytes :: InRange(s, prefix, EndOf(prefix)) <==> prefix <= s) <==>
            prefix != [] && prefix[|prefix| - 1] != 0xFF
  {
    var n := TrailingMax(prefix);
    if n == 0 && prefix != [] {
      forall s: Bytes ensures InRange(s, prefix, EndOf(prefix)) <==> prefix <= s {
        PrefixRangeIs(prefix, s);
      }
    } else if n < |prefix| {
      var s := Extra(prefix, 0);
      PrefixRangeIs(prefix, s);
      assert s[|prefix| - n - 1] != prefix[|prefix| - n - 1];
      assert !(prefix <= s);
    } else if prefix == [] {
      var s: Bytes := [1];
      assert EndOf(prefix) == [1] && !Less(s, [1]);
      assert prefix <= s && !InRange(s, prefix, EndOf(prefix));
    } else {
      assert EndOf(prefix)[0] == 0 && prefix[0] == 0xFF;
      assert prefix <= prefix && !Less(prefix, EndOf(prefix));
      assert !InRange(prefix, prefix, EndOf(prefix));
    }
  }
}
