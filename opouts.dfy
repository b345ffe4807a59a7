/**
  The inputs of a state transition and their flattening into output
  references (`Opout`s): for every previous operation, in ascending order of
  its identifier, for every assignment type it is spent from, in ascending
  order, every index listed, in the order listed.
 */
module Opouts {
  import opened Confinement
  import opened Identity
  import opened Schema

  /** One output of a previous operation: the operation, the assignment type and the index. */
  datatype Opout = Opout(op: OpId, ty: AssignmentsType, no: u16)

  /** For each previous operation, for each assignment type, the indices consumed. */
  type PrevOuts = TinyOrdMapOp<TinyOrdMap16<TinyVec<u16>>>

  function OpoutsOfIndices(op: OpId, ty: AssignmentsType, nos: seq<u16>): seq<Opout>
  {
    seq(|nos|, k requires 0 <= k < |nos| => Opout(op, ty, nos[k]))
  }

  function OpoutsOfTypes(op: OpId, tys: seq<(AssignmentsType, TinyVec<u16>)>): seq<Opout>
  {
    if tys == [] then []
    else OpoutsOfIndices(op, tys[0].0, tys[0].1) + OpoutsOfTypes(op, tys[1..])
  }

  /** The flattening of transition inputs, as the transition's `prev_outs` computes it. */
  function OpoutsOfInputs(inputs: seq<(OpId, TinyOrdMap16<TinyVec<u16>>)>): seq<Opout>
  {
    if inputs == [] then []
    else OpoutsOfTypes(inputs[0].0, inputs[0].1) + OpoutsOfInputs(inputs[1..])
  }

  /** `inputs[op][ty]`: the indices consumed from type `ty` of operation `op`; empty when there are none. */
  function IndicesAt(inputs: seq<(OpId, TinyOrdMap16<TinyVec<u16>>)>, op: OpId, ty: AssignmentsType): seq<u16>
  {
    match FirstByKey(inputs, op)
    case None => []
    case Some(tys) => IndicesOfType(tys, ty)
  }

  function IndicesOfType(tys: seq<(AssignmentsType, TinyVec<u16>)>, ty: AssignmentsType): seq<u16>
  {
    match FirstByKey(tys, ty)
    case None => []
    case Some(nos) => nos
  }

  /** The subsequence of `outs` that refers to assignment type `ty` of operation `op`. */
  function Select(outs: seq<Opout>, op: OpId, ty: AssignmentsType): seq<Opout>
  {
    if outs == [] then []
    else (if outs[0].op == op && outs[0].ty == ty then [outs[0]] else []) + Select(outs[1..], op, ty)
  }

  lemma {:induction false} SelectAppend(a: seq<Opout>, b: seq<Opout>, op: OpId, ty: AssignmentsType)
    ensures Select(a + b, op, ty) == Select(a, op, ty) + Select(b, op, ty)
  {
    if a == [] {
      assert a + b == b;
    } else {
      assert (a + b)[1..] == a[1..] + b;
      SelectAppend(a[1..], b, op, ty);
    }
  }

  /** An element belongs to a sequence exactly when it belongs to the selection of its own group. */
  lemma {:induction false} SelectMember(outs: seq<Opout>, o: Opout)
    ensures o in outs <==> o in Select(outs, o.op, o.ty)
  {
    if outs != [] {
      SelectMember(outs[1..], o);
      assert outs == [outs[0]] + outs[1..];
    }
  }

  lemma {:induction false} SelectIndices(op0: OpId, ty0: AssignmentsType, nos: seq<u16>, op: OpId, ty: AssignmentsType)
    ensures Select(OpoutsOfIndices(op0, ty0, nos), op, ty)
         == if op == op0 && ty == ty0 then OpoutsOfIndices(op0, ty0, nos) else []
  {
    var s := OpoutsOfIndices(op0, ty0, nos);
    if nos != [] {
      assert s[1..] == OpoutsOfIndices(op0, ty0, nos[1..]);
      SelectIndices(op0, ty0, nos[1..], op, ty);
      assert s == [s[0]] + s[1..];
    }
  }

  lemma {:induction false} SelectTypes(op0: OpId, tys: TinyOrdMap16<TinyVec<u16>>, op: OpId, ty: AssignmentsType)
    ensures Select(OpoutsOfTypes(op0, tys), op, ty)
         == if op == op0 then OpoutsOfIndices(op, ty, IndicesOfType(tys, ty)) else []
  {
    if tys != [] {
      var rest: TinyOrdMap16<TinyVec<u16>> := tys[1..];
      SelectAppend(OpoutsOfIndices(op0, tys[0].0, tys[0].1), OpoutsOfTypes(op0, rest), op, ty);
      SelectIndices(op0, tys[0].0, tys[0].1, op, ty);
      SelectTypes(op0, rest, op, ty);
      if ty == tys[0].0 {
        assert IndicesOfType(tys, ty) == tys[0].1;
        assert forall i :: 0 <= i < |rest| ==> rest[i].0 != ty by {
          forall i | 0 <= i < |rest| ensures rest[i].0 != ty {
            assert tys[0].0 < tys[i + 1].0;
          }
        }
        assert IndicesOfType(rest, ty) == [];
      } else {
        assert IndicesOfType(tys, ty) == IndicesOfType(rest, ty);
      }
    }
  }

  /**
    The outputs `prev_outs` lists for assignment type `ty` of operation `op`
    are exactly the indices of `inputs[op][ty]`, one output per index, in
    the order of that vector; nothing else refers to that pair.
   */
  lemma {:induction false} PrevOutsGroup(inputs: PrevOuts, op: OpId, ty: AssignmentsType)
    ensures Select(OpoutsOfInputs(inputs), op, ty) == OpoutsOfIndices(op, ty, IndicesAt(inputs, op, ty))
  {
    if inputs != [] {
      var rest: PrevOuts := inputs[1..];
      SelectAppend(OpoutsOfTypes(inputs[0].0, inputs[0].1), OpoutsOfInputs(rest), op, ty);
      SelectTypes(inputs[0].0, inputs[0].1, op, ty);
      PrevOutsGroup(rest, op, ty);
      if op == inputs[0].0 {
        assert forall i :: 0 <= i < |rest| ==> rest[i].0 != op by {
          forall i | 0 <= i < |rest| ensures rest[i].0 != op {
            assert OpIdLess(inputs[0].0, inputs[i + 1].0);
            OpIdOrderTotal(op, op, op);
          }
        }
      }
    }
  }

  /** An output is listed by `prev_outs` exactly when its index is in `inputs[op][ty]`. */
  lemma PrevOutsMembership(inputs: PrevOuts, o: Opout)
    ensures o in OpoutsOfInputs(inputs) <==> o.no in IndicesAt(inputs, o.op, o.ty)
  {
    SelectMember(OpoutsOfInputs(inputs), o);
    PrevOutsGroup(inputs, o.op, o.ty);
    var nos := IndicesAt(inputs, o.op, o.ty);
    if o.no in nos {
      var k :| 0 <= k < |nos| && nos[k] == o.no;
      assert OpoutsOfIndices(o.op, o.ty, nos)[k] == o;
    }
  }

  /** `a` does not come after `b` in the (operation, assignment type) order. */
  predicate KeyNotAfter(a: Opout, b: Opout) {
    if a.op == b.op then a.ty <= b.ty else OpIdLess(a.op, b.op)
  }

  lemma {:induction false} TypesBounded(op0: OpId, tys: TinyOrdMap16<TinyVec<u16>>, lo: int)
    requires forall i :: 0 <= i < |tys| ==> lo <= tys[i].0
    ensures forall k :: 0 <= k < |OpoutsOfTypes(op0, tys)| ==>
              OpoutsOfTypes(op0, tys)[k].op == op0 && lo <= OpoutsOfTypes(op0, tys)[k].ty
  {
    if tys != [] {
      var rest: TinyOrdMap16<TinyVec<u16>> := tys[1..];
      TypesBounded(op0, rest, lo);
    }
  }

  lemma {:induction false} TypesOrdered(op0: OpId, tys: TinyOrdMap16<TinyVec<u16>>)
    ensures forall p, q :: 0 <= p < q < |OpoutsOfTypes(op0, tys)| ==>
              OpoutsOfTypes(op0, tys)[p].ty <= OpoutsOfTypes(op0, tys)[q].ty
  {
    if tys != [] {
      var rest: TinyOrdMap16<TinyVec<u16>> := tys[1..];
      var a := OpoutsOfIndices(op0, tys[0].0, tys[0].1);
      var b := OpoutsOfTypes(op0, rest);
      TypesOrdered(op0, rest);
      TypesBounded(op0, rest, tys[0].0 as int + 1);
      assert OpoutsOfTypes(op0, tys) == a + b;
    }
  }

  lemma {:induction false} InputsBounded(inputs: PrevOuts, lo: OpId)
    requires forall i :: 0 <= i < |inputs| ==> OpIdLess(lo, inputs[i].0)
    ensures forall k :: 0 <= k < |OpoutsOfInputs(inputs)| ==> OpIdLess(lo, OpoutsOfInputs(inputs)[k].op)
  {
    if inputs != [] {
      var rest: PrevOuts := inputs[1..];
      InputsBounded(rest, lo);
      TypesBounded(inputs[0].0, inputs[0].1, 0);
    }
  }

  /**
    `prev_outs` lists outputs by previous operation identifier ascending,
    then by assignment type ascending.
   */
  lemma {:induction false} PrevOutsOrdered(inputs: PrevOuts)
    ensures forall p, q :: 0 <= p < q < |OpoutsOfInputs(inputs)| ==>
              KeyNotAfter(OpoutsOfInputs(inputs)[p], OpoutsOfInputs(inputs)[q])
  {
    if inputs != [] {
      var op0 := inputs[0].0;
      var rest: PrevOuts := inputs[1..];
      var a := OpoutsOfTypes(op0, inputs[0].1);
      var b := OpoutsOfInputs(rest);
      PrevOutsOrdered(rest);
      TypesOrdered(op0, inputs[0].1);
      TypesBounded(op0, inputs[0].1, 0);
      InputsBounded(rest, op0);
      OpIdOrderTotal(op0, op0, op0);
      assert OpoutsOfInputs(inputs) == a + b;
    }
  }

  function CountTypes(tys: seq<(AssignmentsType, TinyVec<u16>)>): nat
  {
    if tys == [] then 0 else |tys[0].1| + CountTypes(tys[1..])
  }

  /** The number of indices listed in `inputs`, over all operations and assignment types. */
  function CountInputs(inputs: seq<(OpId, TinyOrdMap16<TinyVec<u16>>)>): nat
  {
    if inputs == [] then 0 else CountTypes(inputs[0].1) + CountInputs(inputs[1..])
  }

  lemma {:induction false} OpoutsOfTypesLength(op: OpId, tys: seq<(AssignmentsType, TinyVec<u16>)>)
    ensures |OpoutsOfTypes(op, tys)| == CountTypes(tys)
  {
    if tys != [] {
      OpoutsOfTypesLength(op, tys[1..]);
    }
  }

  /** `prev_outs` has one element per index listed in the inputs. */
  lemma {:induction false} PrevOutsLength(inputs: seq<(OpId, TinyOrdMap16<TinyVec<u16>>)>)
    ensures |OpoutsOfInputs(inputs)| == CountInputs(inputs)
  {
    if inputs != [] {
      OpoutsOfTypesLength(inputs[0].0, inputs[0].1);
      PrevOutsLength(inputs[1..]);
    }
  }

  /** Inputs spending indices 0 and 2 of assignment type 1 of one operation yield exactly those two outputs. */
  lemma PrevOutsExample(opA: OpId)
    ensures OpoutsOfInputs([(opA, [(1, [0, 2])])]) == [Opout(opA, 1, 0), Opout(opA, 1, 2)]
  {
    var tys: seq<(AssignmentsType, TinyVec<u16>)> := [(1, [0, 2])];
    assert OpoutsOfTypes(opA, tys) == OpoutsOfIndices(opA, 1, [0, 2]) + OpoutsOfTypes(opA, []);
  }
}
