/**
  The three kinds of contract operation (genesis, state transition, state
  extension), the query surface they share, the `OpRef` view that answers
  those queries for any of them, and the ordering of transitions.
 */
module Operations {
  import opened Confinement
  import opened Identity
  import opened Schema
  import opened StateAssignments
  import opened Opouts

  /** Format version of an operation. */
  type Ffv = u16

  /** A blob of at most 65535 bytes. */
  type SmallBlob = s: seq<byte> | |s| <= 0xFFFF

  type Valencies = TinyOrdSet16

  /** For each previous operation, the valencies a state extension redeems from it. */
  type Redeemed = TinyOrdMapOp<TinyOrdSet16>

  /** The chain a contract lives on; defined outside this model. */
  type Chain(==)

  /**
    The commitment machinery, which lies outside this model: the strict
    encoding of each operation kind and the tagged commitment hash of an
    encoding.
   */
  datatype Committer = Committer(
    hash: (Bytes32, seq<byte>) -> Bytes32,
    encodeGenesis: Genesis -> seq<byte>,
    encodeTransition: Transition -> seq<byte>,
    encodeExtension: Extension -> seq<byte>)

  /** The root operation of a contract. */
  datatype Genesis = Genesis(
    ffv: Ffv,
    schemaId: SchemaId,
    chain: Chain,
    metadata: Option<SmallBlob>,
    globals: GlobalState,
    assignments: Assignments<SingleBlindSeal>,
    valencies: Valencies)
  {
    function OpType(): OpType { Schema.OpType.Genesis }
    function FullType(): OpFullType { Schema.OpFullType.Genesis }

    /** The commitment under the genesis tag, which is typed as a contract identifier. */
    function CommitmentId(c: Committer): ContractId {
      Identity.ContractId(c.hash(GENESIS_TAG, c.encodeGenesis(this)))
    }

    function Id(c: Committer): OpId { OpId(CommitmentId(c).bytes) }
    function TransitionType(): Option<TransitionType> { None }
    function ExtensionType(): Option<ExtensionType> { None }
    function Metadata(): Option<SmallBlob> { metadata }
    function Globals(): GlobalState { globals }
    function Valencies(): Valencies { valencies }
    function PrevOuts(): seq<Opout> { [] }

    function AssignmentsByType(t: AssignmentsType): Option<TypedAssigns<SingleBlindSeal>> {
      assignments.ByType(t)
    }

    function ContractId(c: Committer): ContractId { Identity.ContractId(Id(c).bytes) }
  }

  /** A state extension: an operation that redeems valencies of earlier operations. */
  datatype Extension = Extension(
    ffv: Ffv,
    extensionType: ExtensionType,
    contractId: ContractId,
    metadata: Option<SmallBlob>,
    globals: GlobalState,
    assignments: Assignments<SingleBlindSeal>,
    redeemed: Redeemed,
    valencies: Valencies)
  {
    function OpType(): OpType { Schema.OpType.StateExtension }
    function FullType(): OpFullType { Schema.OpFullType.StateExtension(extensionType) }
    function Id(c: Committer): OpId { OpId(c.hash(EXTENSION_TAG, c.encodeExtension(this))) }
    function TransitionType(): Option<TransitionType> { None }
    function ExtensionType(): Option<ExtensionType> { Some(extensionType) }
    function Metadata(): Option<SmallBlob> { metadata }
    function Globals(): GlobalState { globals }
    function Valencies(): Valencies { valencies }
    function PrevOuts(): seq<Opout> { [] }

    function AssignmentsByType(t: AssignmentsType): Option<TypedAssigns<SingleBlindSeal>> {
      assignments.ByType(t)
    }

    function ContractId(): ContractId { contractId }
    function Redeemed(): Redeemed { redeemed }
  }

  /** A state transition: an operation that spends outputs of earlier operations. */
  datatype Transition = Transition(
    ffv: Ffv,
    transitionType: TransitionType,
    metadata: Option<SmallBlob>,
    globals: GlobalState,
    inputs: PrevOuts,
    assignments: Assignments<ChainBlindSeal>,
    valencies: Valencies)
  {
    function OpType(): OpType { Schema.OpType.StateTransition }
    function FullType(): OpFullType { Schema.OpFullType.StateTransition(transitionType) }
    function Id(c: Committer): OpId { OpId(c.hash(TRANSITION_TAG, c.encodeTransition(this))) }
    function TransitionType(): Option<TransitionType> { Some(transitionType) }
    function ExtensionType(): Option<ExtensionType> { None }
    function Metadata(): Option<SmallBlob> { metadata }
    function Globals(): GlobalState { globals }
    function Valencies(): Valencies { valencies }
    function PrevOuts(): seq<Opout> { OpoutsOfInputs(inputs) }

    function AssignmentsByType(t: AssignmentsType): Option<TypedAssigns<ChainBlindSeal>> {
      assignments.ByType(t)
    }

    function PrevState(): PrevOuts { inputs }

    /** Transitions are ordered by their identifiers and nothing else. */
    function Cmp(other: Transition, c: Committer): Ordering {
      Id(c).Cmp(other.Id(c))
    }

    function PartialCmp(other: Transition, c: Committer): Option<Ordering> {
      Some(Cmp(other, c))
    }
  }

  /** A view of any one operation, answering every query as that operation does. */
  datatype OpRef =
    | GenesisRef(genesis: Genesis)
    | TransitionRef(transition: Transition)
    | ExtensionRef(extension: Extension)
  {
    function OpType(): OpType {
      match this
      case GenesisRef(op) => op.OpType()
      case TransitionRef(op) => op.OpType()
      case ExtensionRef(op) => op.OpType()
    }

    function FullType(): OpFullType {
      match this
      case GenesisRef(op) => op.FullType()
      case TransitionRef(op) => op.FullType()
      case ExtensionRef(op) => op.FullType()
    }

    function Id(c: Committer): OpId {
      match this
      case GenesisRef(op) => op.Id(c)
      case TransitionRef(op) => op.Id(c)
      case ExtensionRef(op) => op.Id(c)
    }

    function TransitionType(): Option<TransitionType> {
      match this
      case GenesisRef(op) => op.TransitionType()
      case TransitionRef(op) => op.TransitionType()
      case ExtensionRef(op) => op.TransitionType()
    }

    function ExtensionType(): Option<ExtensionType> {
      match this
      case GenesisRef(op) => op.ExtensionType()
      case TransitionRef(op) => op.ExtensionType()
      case ExtensionRef(op) => op.ExtensionType()
    }

    function Metadata(): Option<SmallBlob> {
      match this
      case GenesisRef(op) => op.Metadata()
      case TransitionRef(op) => op.Metadata()
      case ExtensionRef(op) => op.Metadata()
    }

    function Globals(): GlobalState {
      match this
      case GenesisRef(op) => op.Globals()
      case TransitionRef(op) => op.Globals()
      case ExtensionRef(op) => op.Globals()
    }

    function Valencies(): Valencies {
      match this
      case GenesisRef(op) => op.Valencies()
      case TransitionRef(op) => op.Valencies()
      case ExtensionRef(op) => op.Valencies()
    }

    function PrevOuts(): seq<Opout> {
      match this
      case GenesisRef(op) => op.PrevOuts()
      case TransitionRef(op) => op.PrevOuts()
      case ExtensionRef(op) => op.PrevOuts()
    }
  }

  /** A genesis reports the genesis kind, no transition or extension type and no inputs. */
  lemma GenesisAccessors(g: Genesis)
    ensures g.OpType() == OpType.Genesis && g.FullType() == OpFullType.Genesis
    ensures g.TransitionType() == None && g.ExtensionType() == None
    ensures TypesAgree(g.OpType(), g.FullType(), g.TransitionType(), g.ExtensionType())
    ensures g.PrevOuts() == []
    ensures g.Metadata() == g.metadata && g.Globals() == g.globals && g.Valencies() == g.valencies
  {
  }

  /** An extension reports its own extension type, no transition type and no inputs. */
  lemma ExtensionAccessors(e: Extension)
    ensures e.OpType() == OpType.StateExtension
    ensures e.FullType() == OpFullType.StateExtension(e.extensionType)
    ensures e.TransitionType() == None && e.ExtensionType() == Some(e.extensionType)
    ensures TypesAgree(e.OpType(), e.FullType(), e.TransitionType(), e.ExtensionType())
    ensures e.PrevOuts() == []
    ensures e.Metadata() == e.metadata && e.Globals() == e.globals && e.Valencies() == e.valencies
    ensures e.ContractId() == e.contractId && e.Redeemed() == e.redeemed
  {
  }

  /** A transition reports its own transition type, no extension type, and its flattened inputs. */
  lemma TransitionAccessors(t: Transition)
    ensures t.OpType() == OpType.StateTransition
    ensures t.FullType() == OpFullType.StateTransition(t.transitionType)
    ensures t.TransitionType() == Some(t.transitionType) && t.ExtensionType() == None
    ensures TypesAgree(t.OpType(), t.FullType(), t.TransitionType(), t.ExtensionType())
    ensures |t.PrevOuts()| == CountInputs(t.inputs)
    ensures forall o :: o in t.PrevOuts() <==> o.no in IndicesAt(t.inputs, o.op, o.ty)
    ensures t.Metadata() == t.metadata && t.Globals() == t.globals && t.Valencies() == t.valencies
    ensures t.PrevState() == t.inputs
  {
    PrevOutsLength(t.inputs);
    forall o: Opout ensures o in t.PrevOuts() <==> o.no in IndicesAt(t.inputs, o.op, o.ty) {
      PrevOutsMembership(t.inputs, o);
    }
  }

  /** The kind-specific queries of an operation seen through `OpRef` agree with each other. */
  lemma OpRefTypesAgree(r: OpRef)
    ensures TypesAgree(r.OpType(), r.FullType(), r.TransitionType(), r.ExtensionType())
    ensures r.OpType() != OpType.StateTransition ==> r.PrevOuts() == []
  {
  }

  /** Every query on an `OpRef` returns what the wrapped operation returns. */
  lemma OpRefForwards(r: OpRef, c: Committer)
    ensures r.GenesisRef? ==>
      var op := r.genesis;
      && r.OpType() == op.OpType() && r.FullType() == op.FullType() && r.Id(c) == op.Id(c)
      && r.TransitionType() == op.TransitionType() && r.ExtensionType() == op.ExtensionType()
      && r.Metadata() == op.Metadata() && r.Globals() == op.Globals()
      && r.Valencies() == op.Valencies() && r.PrevOuts() == op.PrevOuts()
    ensures r.TransitionRef? ==>
      var op := r.transition;
      && r.OpType() == op.OpType() && r.FullType() == op.FullType() && r.Id(c) == op.Id(c)
      && r.TransitionType() == op.TransitionType() && r.ExtensionType() == op.ExtensionType()
      && r.Metadata() == op.Metadata() && r.Globals() == op.Globals()
      && r.Valencies() == op.Valencies() && r.PrevOuts() == op.PrevOuts()
    ensures r.ExtensionRef? ==>
      var op := r.extension;
      && r.OpType() == op.OpType() && r.FullType() == op.FullType() && r.Id(c) == op.Id(c)
      && r.TransitionType() == op.TransitionType() && r.ExtensionType() == op.ExtensionType()
      && r.Metadata() == op.Metadata() && r.Globals() == op.Globals()
      && r.Valencies() == op.Valencies() && r.PrevOuts() == op.PrevOuts()
  {
  }

  /**
    The contract identifier of a genesis is its operation identifier under
    another type: the same 32 bytes, which are the genesis commitment.
   */
  lemma GenesisContractId(g: Genesis, c: Committer)
    ensures g.ContractId(c).bytes == g.Id(c).bytes
    ensures g.ContractId(c) == g.CommitmentId(c)
    ensures ProtocolIdFromContractId(g.ContractId(c)) == ProtocolId(g.Id(c).bytes)
  {
  }

  /**
    Transition order is decided by identifiers alone: transitions with equal
    identifiers compare equal whatever their other fields, and the order is
    a total order.
   */
  lemma TransitionOrder(t1: Transition, t2: Transition, t3: Transition, c: Committer)
    ensures t1.Cmp(t2, c) == Equal <==> t1.Id(c) == t2.Id(c)
    ensures t2.Cmp(t1, c) == t1.Cmp(t2, c).Reverse()
    ensures t1.Cmp(t2, c) == Less && t2.Cmp(t3, c) == Less ==> t1.Cmp(t3, c) == Less
    ensures t1.Id(c) == t3.Id(c) ==> t1.Cmp(t2, c) == t3.Cmp(t2, c) && t2.Cmp(t1, c) == t2.Cmp(t3, c)
    ensures t1.PartialCmp(t2, c) == Some(t1.Cmp(t2, c))
  {
    OpIdOrderTotal(t1.Id(c), t2.Id(c), t3.Id(c));
  }
}
