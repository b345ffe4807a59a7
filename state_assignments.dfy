/**
  The `Assignments` container of an operation: an ordered map from assignment
  type to the typed set of state assignments of that type, its lookup by type
  and its commitment encoding.
 */
module StateAssignments {
  import opened Confinement
  import opened Schema

  /** The assignments of one state kind, generic over the seal type; defined outside this model. */
  type TypedAssigns<Seal>

  /** The global state of an operation; defined outside this model. */
  type GlobalState

  /** Seal kinds used by genesis and extensions, and by transitions; defined outside this model. */
  type SingleBlindSeal
  type ChainBlindSeal

  /** The strict encoding of a 16-bit integer: two bytes, least significant first. */
  function U16Le(x: u16): (r: seq<byte>)
    ensures |r| == 2 && r[0] as int + 0x100 * (r[1] as int) == x
  {
    [x % 0x100, x / 0x100]
  }

  /** The bytes written for a run of entries: each key's encoding followed by its state's. */
  function EntriesEncoding<Seal>(entries: seq<(u16, TypedAssigns<Seal>)>, enc: TypedAssigns<Seal> -> seq<byte>): seq<byte>
  {
    if entries == [] then []
    else U16Le(entries[0].0) + enc(entries[0].1) + EntriesEncoding(entries[1..], enc)
  }

  lemma {:induction false} EntriesEncodingConcat<Seal>(x: seq<(u16, TypedAssigns<Seal>)>, y: seq<(u16, TypedAssigns<Seal>)>,
                                                       enc: TypedAssigns<Seal> -> seq<byte>)
    ensures EntriesEncoding(x + y, enc) == EntriesEncoding(x, enc) + EntriesEncoding(y, enc)
  {
    if x != [] {
      assert (x + y)[1..] == x[1..] + y;
      EntriesEncodingConcat(x[1..], y, enc);
    } else {
      assert x + y == y;
    }
  }

  /** A byte sink that keeps everything written to it, in order. */
  class Writer {
    var written: seq<byte>

    constructor ()
      ensures written == []
    {
      written := [];
    }

    method Write(data: seq<byte>)
      modifies this
      ensures written == old(written) + data
    {
      written := written + data;
    }
  }

  /** State assignments of an operation, keyed by assignment type. */
  datatype Assignments<Seal> = Assignments(entries: TinyOrdMap16<TypedAssigns<Seal>>)
  {
    /**
      The typed assignments stored under `t`, if any. Keys are unique, so the
      first match found while scanning is the only one.
     */
    function ByType(t: AssignmentsType): (r: Option<TypedAssigns<Seal>>)
      ensures r.Some? <==> exists i :: 0 <= i < |entries| && entries[i].0 == t
      ensures forall i :: 0 <= i < |entries| && entries[i].0 == t ==> r == Some(entries[i].1)
    {
      FirstByKeyUnique(entries, t);
      FirstByKey(entries, t)
    }

    /**
      The commitment encoding: one byte holding the number of entries, then
      every entry in ascending key order.
     */
    function CommitEncoding(enc: TypedAssigns<Seal> -> seq<byte>): (r: seq<byte>)
      ensures |r| >= 1 && r[0] == |entries| <= TINY_MAX
    {
      [|entries|] + EntriesEncoding(entries, enc)
    }

    /**
      Writes the commitment encoding to `e`, with `enc` giving the bytes each
      typed assignment set writes for itself.
     */
    method CommitEncode(e: Writer, enc: TypedAssigns<Seal> -> seq<byte>)
      modifies e
      ensures e.written == old(e.written) + CommitEncoding(enc)
    {
      e.Write([|entries|]);
      for i := 0 to |entries|
        invariant e.written == old(e.written) + [|entries|] + EntriesEncoding(entries[..i], enc)
      {
        var (ty, state) := entries[i];
        e.Write(U16Le(ty));
        e.Write(enc(state));
        EntriesEncodingConcat(entries[..i], [entries[i]], enc);
        assert entries[..i + 1] == entries[..i] + [entries[i]];
      }
      assert entries[..|entries|] == entries;
    }
  }

  /**
    Where entry `i` sits in the commitment encoding: after the count byte and
    the encodings of all smaller keys, its key's two bytes and then its
    state's encoding, followed by the encodings of all larger keys.
   */
  lemma CommitEncodingLayout<Seal>(a: Assignments<Seal>, i: nat, enc: TypedAssigns<Seal> -> seq<byte>)
    requires i < |a.entries|
    ensures a.CommitEncoding(enc)
         == [|a.entries|] + EntriesEncoding(a.entries[..i], enc)
            + U16Le(a.entries[i].0) + enc(a.entries[i].1)
            + EntriesEncoding(a.entries[i + 1..], enc)
  {
    var m := a.entries;
    assert m == m[..i] + ([m[i]] + m[i + 1..]);
    EntriesEncodingConcat(m[..i], [m[i]] + m[i + 1..], enc);
    assert ([m[i]] + m[i + 1..])[1..] == m[i + 1..];
  }

  /** Total size of the state encodings of a run of entries. */
  function StatesSize<Seal>(entries: seq<(u16, TypedAssigns<Seal>)>, enc: TypedAssigns<Seal> -> seq<byte>): nat
  {
    if entries == [] then 0 else |enc(entries[0].1)| + StatesSize(entries[1..], enc)
  }

  lemma {:induction false} EntriesEncodingLength<Seal>(entries: seq<(u16, TypedAssigns<Seal>)>, enc: TypedAssigns<Seal> -> seq<byte>)
    ensures |EntriesEncoding(entries, enc)| == 2 * |entries| + StatesSize(entries, enc)
  {
    if entries != [] {
      EntriesEncodingLength(entries[1..], enc);
    }
  }

  /** The commitment encoding is one count byte plus two key bytes and the state bytes per entry. */
  lemma CommitEncodingLength<Seal>(a: Assignments<Seal>, enc: TypedAssigns<Seal> -> seq<byte>)
    ensures |a.CommitEncoding(enc)| == 1 + 2 * |a.entries| + StatesSize(a.entries, enc)
  {
    EntriesEncodingLength(a.entries, enc);
  }

  /** The default, empty container commits to the single byte 0. */
  lemma EmptyCommitEncoding<Seal>(enc: TypedAssigns<Seal> -> seq<byte>)
    ensures Assignments([]).CommitEncoding(enc) == [0]
  {
  }
}
