/**
  Operation and contract identifiers: 32-byte commitment digests wrapped in
  distinct nominal types, ordered lexicographically by their bytes, and the
  three domain-separation tags under which operations are committed.
 */
module Identity {
  import opened Confinement

  /** A fixed-size 32-byte array. */
  type Bytes32 = s: seq<byte> | |s| == 32 witness seq(32, i => 0)

  /**
    Lexicographic comparison of byte strings, the order derived for byte
    arrays: the first differing byte decides, and a proper prefix comes first.
   */
  function Compare(a: seq<byte>, b: seq<byte>): Ordering
    decreases |a|
  {
    if a == [] then (if b == [] then Equal else Less)
    else if b == [] then Greater
    else if a[0] < b[0] then Less
    else if b[0] < a[0] then Greater
    else Compare(a[1..], b[1..])
  }

  lemma {:induction false} CompareEqualIff(a: seq<byte>, b: seq<byte>)
    ensures Compare(a, b) == Equal <==> a == b
    decreases |a|
  {
    if a != [] && b != [] && a[0] == b[0] {
      CompareEqualIff(a[1..], b[1..]);
      assert a == [a[0]] + a[1..] && b == [b[0]] + b[1..];
    }
  }

  lemma {:induction false} CompareReverse(a: seq<byte>, b: seq<byte>)
    ensures Compare(b, a) == Compare(a, b).Reverse()
    decreases |a|
  {
    if a != [] && b != [] && a[0] == b[0] {
      CompareReverse(a[1..], b[1..]);
    }
  }

  lemma {:induction false} CompareLessTransitive(a: seq<byte>, b: seq<byte>, c: seq<byte>)
    requires Compare(a, b) == Less && Compare(b, c) == Less
    ensures Compare(a, c) == Less
    decreases |a|
  {
    if a != [] && a[0] == b[0] && b[0] == c[0] {
      CompareLessTransitive(a[1..], b[1..], c[1..]);
    }
  }

  /** Unique operation identifier: the commitment hash of the operation. */
  datatype OpId = OpId(bytes: Bytes32) {
    function Cmp(other: OpId): Ordering {
      Compare(bytes, other.bytes)
    }
  }

  predicate OpIdLess(a: OpId, b: OpId) {
    a.Cmp(b) == Less
  }

  /** The order on operation identifiers is a strict total order. */
  lemma OpIdOrderTotal(a: OpId, b: OpId, c: OpId)
    ensures a.Cmp(b) == Equal <==> a == b
    ensures b.Cmp(a) == a.Cmp(b).Reverse()
    ensures !OpIdLess(a, a)
    ensures OpIdLess(a, b) || a == b || OpIdLess(b, a)
    ensures OpIdLess(a, b) && OpIdLess(b, c) ==> OpIdLess(a, c)
  {
    CompareEqualIff(a.bytes, b.bytes);
    CompareEqualIff(a.bytes, a.bytes);
    CompareReverse(a.bytes, b.bytes);
    if OpIdLess(a, b) && OpIdLess(b, c) {
      CompareLessTransitive(a.bytes, b.bytes, c.bytes);
    }
  }

  /** Unique contract identifier: the commitment hash of the contract genesis. */
  datatype ContractId = ContractId(bytes: Bytes32)

  /** Identifier of a protocol in a multi-protocol commitment (an external type). */
  datatype ProtocolId = ProtocolId(bytes: Bytes32)

  function ProtocolIdFromContractId(id: ContractId): (p: ProtocolId)
    ensures p.bytes == id.bytes
  {
    ProtocolId(id.bytes)
  }

  function ContractIdFromProtocolId(id: ProtocolId): (c: ContractId)
    ensures c.bytes == id.bytes
    ensures ProtocolIdFromContractId(c) == id
  {
    ContractId(id.bytes)
  }

  lemma ContractIdRoundTrip(c: ContractId)
    ensures ContractIdFromProtocolId(ProtocolIdFromContractId(c)) == c
  {
  }

  predicate OpIdsAscending<V>(m: seq<(OpId, V)>) {
    forall i, j :: 0 <= i < j < |m| ==> OpIdLess(m[i].0, m[j].0)
  }

  /** An ordered map keyed by operation identifiers, at most 255 entries. */
  type TinyOrdMapOp<V> = m: seq<(OpId, V)> | |m| <= TINY_MAX && OpIdsAscending(m)

  /** The bytes of an ASCII string literal. */
  function Ascii(s: string): seq<byte>
    requires forall i :: 0 <= i < |s| ==> s[i] as int < 0x80
  {
    seq(|s|, i requires 0 <= i < |s| => s[i] as int)
  }

  const GENESIS_TAG: Bytes32 := Ascii("urn:lnpbp:rgb:genesis:v01#202302")
  const TRANSITION_TAG: Bytes32 := Ascii("urn:lnpbp:rgb:transition:v01#32A")
  const EXTENSION_TAG: Bytes32 := Ascii("urn:lnpbp:rgb:extension:v01#2023")

  /** The three operation kinds are committed under pairwise distinct tags. */
  lemma TagsDistinct()
    ensures GENESIS_TAG != TRANSITION_TAG
    ensures GENESIS_TAG != EXTENSION_TAG
    ensures TRANSITION_TAG != EXTENSION_TAG
  {
    assert GENESIS_TAG[14] == 'g' as int;
    assert TRANSITION_TAG[14] == 't' as int;
    assert EXTENSION_TAG[14] == 'e' as int;
  }
}
