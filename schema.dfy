/**
  The schema-level vocabulary that operations are described in: the kind of
  an operation, its full type, and the 16-bit type identifiers.
 */
module Schema {
  import opened Confinement

  type TransitionType = u16
  type ExtensionType = u16
  type AssignmentsType = u16
  type ValencyType = u16

  /** Identifier of the schema a contract follows; defined outside this model. */
  type SchemaId(==)

  /** The three kinds of contract operation. */
  datatype OpType = Genesis | StateTransition | StateExtension

  /** The kind of an operation together with its schema-defined type. */
  datatype OpFullType =
    | Genesis
    | StateTransition(transitionType: TransitionType)
    | StateExtension(extensionType: ExtensionType)

  /**
    How the type queries of one operation must agree with each other: the
    full type names the kind, and exactly the matching one of the transition
    and extension types is present, carrying the type the full type holds.
   */
  predicate TypesAgree(op: OpType, full: OpFullType, tt: Option<TransitionType>, et: Option<ExtensionType>) {
    && (op == OpType.Genesis <==> full.Genesis?)
    && (op == OpType.StateTransition <==> full.StateTransition?)
    && (op == OpType.StateExtension <==> full.StateExtension?)
    && (tt.Some? <==> full.StateTransition?)
    && (tt.Some? ==> tt.value == full.transitionType)
    && (et.Some? <==> full.StateExtension?)
    && (et.Some? ==> et.value == full.extensionType)
  }
}
