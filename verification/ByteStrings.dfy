/** Byte strings in the order etcd keeps its keys: bytewise lexicographic. */
module ByteStrings {
  type byte = b: int | 0 <= b < 0x100
  type Bytes = seq<byte>

  predicate Less(a: Bytes, b: Bytes) {
    b != [] && (a == [] || a[0] < b[0] || (a[0] == b[0] && Less(a[1..], b[1..])))
  }

  /** The keys a request for (key, rangeEnd) selects: an empty end means the single key, a lone zero byte
      means every key from `key` on. */
  predicate InRange(k: Bytes, key: Bytes, rangeEnd: Bytes) {
    if rangeEnd == [] then k == key
    else if rangeEnd == [0] then !Less(k, key)
    else !Less(k, key) && Less(k, rangeEnd)
  }

  function Repeat(b: byte, n: nat): (s: Bytes)
    ensures |s| == n && forall i :: 0 <= i < n ==> s[i] == b
  {
    if n == 0 then [] else [b] + Repeat(b, n - 1)
  }

  /** Two ranges that share a leading part select the strings that start with it, compared by what follows. */
  lemma {:induction false} SharedLead(lead: Bytes, s: Bytes, low: Bytes, high: Bytes)
    ensures !Less(s, lead + low) && Less(s, lead + high) <==>
            lead <= s && !Less(s[|lead|..], low) && Less(s[|lead|..], high)
  {
    if lead == [] {
      assert lead + low == low && lead + high == high && s[0..] == s;
    } else if s != [] {
      SharedLead(lead[1..], s[1..], low, high);
      assert (lead + low)[1..] == lead[1..] + low && (lead + high)[1..] == lead[1..] + high;
      if lead[1..] <= s[1..] && s[0] == lead[0] {
        assert lead <= s;
        assert s[1..][|lead[1..]|..] == s[|lead|..];
      }
      if lead <= s {
        assert lead[1..] <= s[1..];
        assert s[1..][|lead[1..]|..] == s[|lead|..];
      }
    }
  }

  /** Nothing but the extensions of a run of 0xFF bytes sorts at or after that run. */
  lemma {:induction false} AfterMaxRun(s: Bytes, n: nat)
    ensures !Less(s, Repeat(0xFF, n)) <==> Repeat(0xFF, n) <= s
  {
    var run := Repeat(0xFF, n);
    if n > 0 && s != [] {
      AfterMaxRun(s[1..], n - 1);
      assert run[1..] == Repeat(0xFF, n - 1);
      assert run == [0xFF] + run[1..];
    }
  }

  /** Only shorter runs of zero bytes sort before a run of zero bytes. */
  lemma {:induction false} BeforeZeroRun(s: Bytes, n: nat)
    ensures Less(s, Repeat(0, n)) <==> |s| < n && s == Repeat(0, |s|)
  {
    if n > 0 && s != [] {
      BeforeZeroRun(s[1..], n - 1);
      assert Repeat(0, n)[1..] == Repeat(0, n - 1);
      assert Repeat(0, |s|) == [0] + Repeat(0, |s| - 1);
      assert s == [s[0]] + s[1..];
    }
  }
}
