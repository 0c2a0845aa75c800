/** The names of the nodes that represent candidates: the election prefix followed by the lease id in hexadecimal
    (the constructor of gh/detail/election_candidate_impl.hpp). */
module Keys {
  import opened ByteStrings
  import opened PrefixRange

  type LeaseId = n: int | 0 <= n < 0x1_0000_0000_0000_0000

  const SLASH: byte := 47

  function ElectionPrefix(name: Bytes): Bytes {
    name + [SLASH]
  }

  function HexDigit(n: nat): byte
    requires n < 16
  {
    if n < 10 then 48 + n else 87 + n
  }

  /** Lower-case digits, most significant first, no leading zeros. */
  function Hex(n: nat): Bytes {
    if n < 16 then [HexDigit(n)] else Hex(n / 16) + [HexDigit(n % 16)]
  }

  function CandidateKey(name: Bytes, lease: LeaseId): Bytes {
    ElectionPrefix(name) + Hex(lease)
  }

  /** The keys of an election's nodes. */
  predicate InElection(name: Bytes, k: Bytes) {
    ElectionPrefix(name) <= k
  }

  function HexValue(s: Bytes): int {
    if s == [] then 0
    else
      var d: int := s[|s| - 1];
      16 * HexValue(s[..|s| - 1]) + (if d < 58 then d - 48 else d - 87)
  }

  /** The position of the last slash, or -1. */
  function LastSlash(s: Bytes): int {
    if s == [] then -1
    else if s[|s| - 1] == SLASH then |s| - 1
    else LastSlash(s[..|s| - 1])
  }

  lemma {:induction false} HexReads(n: nat)
    ensures HexValue(Hex(n)) == n && Hex(n) != [] && SLASH !in Hex(n)
  {
    if n >= 16 {
      HexReads(n / 16);
      assert Hex(n)[..|Hex(n)| - 1] == Hex(n / 16);
    }
  }

  lemma {:induction false} LastSlashBefore(s: Bytes, digits: Bytes)
    requires SLASH !in digits
    ensures LastSlash(s + [SLASH] + digits) == |s|
  {
    var all := s + [SLASH] + digits;
    if digits == [] {
      assert all[|all| - 1] == SLASH;
    } else {
      var init := digits[..|digits| - 1];
      assert all[..|all| - 1] == s + [SLASH] + init;
      assert all[|all| - 1] == digits[|digits| - 1];
      LastSlashBefore(s, init);
    }
  }

  /** A key splits at its last slash into the election name and the lease it was made from. */
  lemma KeyDecodes(name: Bytes, lease: LeaseId)
    ensures
      var key := CandidateKey(name, lease);
      var at := LastSlash(key);
      0 <= at < |key| && key[..at] == name && HexValue(key[at + 1..]) == lease
  {
    HexReads(lease);
    LastSlashBefore(name, Hex(lease));
    var key := CandidateKey(name, lease);
    assert key[..|name|] == name && key[|name| + 1..] == Hex(lease);
  }

  /** Hence different candidates never share a key. */
  lemma KeysAreUnique(name1: Bytes, lease1: LeaseId, name2: Bytes, lease2: LeaseId)
    ensures CandidateKey(name1, lease1) == CandidateKey(name2, lease2) <==> name1 == name2 && lease1 == lease2
  {
    KeyDecodes(name1, lease1);
    KeyDecodes(name2, lease2);
  }

  /** An election prefix ends in a slash, so the range that the Range and Watch requests use selects the keys that
      start with it and no others. */
  lemma ElectionRangeIsExact(name: Bytes, k: Bytes)
    ensures InRange(k, ElectionPrefix(name), EndOf(ElectionPrefix(name))) <==> InElection(name, k)
  {
    PrefixRangeExactIff(ElectionPrefix(name));
  }

  /** A candidate's key lies in the range of another election exactly when that election has the same name or names
      a parent of the candidate's election. */
  lemma KeyInElectionIff(name: Bytes, lease: LeaseId, other: Bytes)
    ensures InRange(CandidateKey(name, lease), ElectionPrefix(other), EndOf(ElectionPrefix(other))) <==>
            other == name || ElectionPrefix(other) <= name
  {
    var key, prefix := CandidateKey(name, lease), ElectionPrefix(other);
    ElectionRangeIsExact(other, key);
    HexReads(lease);
    assert key == name + ([SLASH] + Hex(lease));
    forall i | |name| < i < |key| ensures key[i] != SLASH {
      assert key[i] == Hex(lease)[i - |name| - 1];
    }
    if prefix <= key {
      assert key[|other|] == prefix[|other|] == SLASH;
      assert |other| <= |name|;
      assert name == key[..|name|] && other == prefix[..|other|];
      if |other| == |name| {
        assert other == name;
      } else {
        assert prefix <= name;
      }
    }
    if prefix <= name {
      assert name <= key;
    }
    if other == name {
      assert prefix <= key;
    }
  }
}
