# RGB contract operations: a Dafny model

This project models the operation layer of the RGB consensus library
(`src/contract/operations.rs`). It covers the following parts:

- the three kinds of contract operation: `Genesis`, state `Transition` and state `Extension`;
- the query surface they share (the `Operation` trait) and the `OpRef` view that answers those queries for any of them;
- the 32-byte identifiers `OpId` and `ContractId`, their order, and the conversion between `ContractId` and the multi-protocol commitment identifier `ProtocolId`;
- the `Assignments` container with its lookup by assignment type and its commitment encoding;
- the flattening of a transition's `inputs` into output references (`Opout`s) by `prev_outs`.

Modules, one per concern:

- `Confinement` (`confinement.dfy`): fixed-width integers, and the "Tiny" confined collections. These hold at most 255 entries; ordered maps and sets are sequences with strictly ascending keys. It also holds `FirstByKey`, the `find_map` scan over a map.
- `Identity` (`identity.dfy`): `Bytes32` and the lexicographic byte order, proved to be a total order. It also holds `OpId`, `ContractId`, `ProtocolId` and the three commitment tags.
- `Schema` (`schema.dfy`): `OpType`, `OpFullType`, the 16-bit type identifiers, and the predicate saying how the type queries of one operation must agree.
- `StateAssignments` (`state_assignments.dfy`): `Assignments`, `ByType`, the commitment encoding as a specification function, and `CommitEncode`. `CommitEncode` is a method that writes the encoding to a `Writer` object step by step, as the source does.
- `Opouts` (`opouts.dfy`): `Opout`, `PrevOuts`, and the flattening with its properties.
- `Operations` (`operations.dfy`): the operation kinds, `OpRef`, genesis and contract identity, and the transition order.

The commitment hash and the strict encoding of whole operations come from other libraries. They are passed in as a `Committer` value holding functions: a tagged hash of a byte string, and one encoder per operation kind. Identifiers are defined through that value exactly as the source defines them. `TypedAssigns`, `GlobalState`, the seal types, `SchemaId` and `Chain` are abstract types. The bytes a `TypedAssigns` writes for its own commitment are given by a function parameter `enc`.

An assignment type is a 16-bit integer. Its strict encoding is written as two bytes, least significant first (`U16Le`); the schema and strict-encoding code is not part of this model.

## Model

| member | source | states |
|---|---|---|
| `Confinement.FirstByKey` | src/contract/operations.rs:177-181 | The `find_map` scan returns `None` exactly when no entry has the key. Otherwise it returns the value of an entry with that key, and no earlier entry has that key. |
| `Confinement.FirstByKeyUnique` | src/contract/operations.rs:177-181 | In an ordered map with ascending keys, the first entry found for a key is the only one: the scan returns the value of any entry holding that key. |
| `StateAssignments.Assignments.ByType` | src/contract/operations.rs:177-181 | `assignments_by_type(t)` returns `Some(a)` exactly when the map holds `t ↦ a`, and `None` when no entry has key `t`. |
| `StateAssignments.U16Le` | src/contract/operations.rs:74 | An assignment type is encoded as two bytes, and the key can be read back from them (low byte plus 256 times high byte). |
| `StateAssignments.Assignments.CommitEncoding` | src/contract/operations.rs:68-78 | The commitment encoding starts with one byte equal to the number of entries, which is at most 255. |
| `StateAssignments.Assignments.CommitEncode` | src/contract/operations.rs:68-78 | The method appends exactly the commitment encoding to the writer and leaves the earlier bytes unchanged: the count byte, then each key and its state encoding in ascending key order. |
| `StateAssignments.EntriesEncodingConcat` | src/contract/operations.rs:72-76 | Encoding two consecutive runs of entries gives the concatenation of their encodings. This is what makes the step-by-step writes of the loop add up to the whole encoding. |
| `StateAssignments.CommitEncodingLayout` | src/contract/operations.rs:68-78 | Entry `i` occupies its own place in the stream: after the count byte and all entries with smaller keys come its key's two bytes and its state's encoding, then all entries with larger keys. |
| `StateAssignments.EntriesEncodingLength` | src/contract/operations.rs:72-76 | The entries take two key bytes each, plus the total length of their state encodings. |
| `StateAssignments.CommitEncodingLength` | src/contract/operations.rs:68-78 | The full encoding is 1 + 2·(number of entries) + (total state-encoding length) bytes long. |
| `StateAssignments.EmptyCommitEncoding` | src/contract/operations.rs:64-66 | The default, empty container commits to the single byte 0. |
| `Identity.CompareEqualIff` | src/contract/operations.rs:82 | The derived byte-wise order of identifiers says `Equal` exactly for identical byte strings. |
| `Identity.CompareReverse` | src/contract/operations.rs:82 | Swapping the operands reverses the comparison outcome. |
| `Identity.CompareLessTransitive` | src/contract/operations.rs:82 | The `Less` relation of the byte-wise order is transitive. |
| `Identity.OpIdOrderTotal` | src/contract/operations.rs:82-96 | The order on `OpId` is a strict total order: irreflexive, transitive and connected. Its comparison is `Equal` only for equal identifiers and is antisymmetric. |
| `Identity.ProtocolIdFromContractId` | src/contract/operations.rs:135-137 | Converting a `ContractId` to a `ProtocolId` keeps the 32 bytes unchanged. |
| `Identity.ContractIdFromProtocolId` | src/contract/operations.rs:131-133 | Converting a `ProtocolId` to a `ContractId` keeps the bytes. Converting the result back gives the original `ProtocolId`. |
| `Identity.ContractIdRoundTrip` | src/contract/operations.rs:131-137 | `ContractId` → `ProtocolId` → `ContractId` is the identity. |
| `Identity.TagsDistinct` | src/contract/operations.rs:257-278 | The genesis, transition and extension commitment tags are pairwise distinct 32-byte ASCII literals. |
| `Opouts.PrevOutsGroup` | src/contract/operations.rs:393-403 | For any operation `op` and type `ty`, the outputs `prev_outs` lists with that pair are one `Opout{op,ty,no}` per element `no` of `inputs[op][ty]`, in that vector's order. Nothing else in the list has that pair, so nothing is invented, dropped or duplicated. |
| `Opouts.PrevOutsMembership` | src/contract/operations.rs:393-403 | An `Opout{op,ty,no}` is listed exactly when `no` occurs in `inputs[op][ty]`. |
| `Opouts.PrevOutsOrdered` | src/contract/operations.rs:393-403 | The list is ordered by previous-operation id ascending, then by assignment type ascending. |
| `Opouts.PrevOutsLength` | src/contract/operations.rs:393-403 | The list length is the sum of the lengths of all index vectors in `inputs`. |
| `Opouts.PrevOutsExample` | src/contract/operations.rs:393-403 | Inputs `{opA: {1: [0, 2]}}` flatten to exactly `[Opout(opA,1,0), Opout(opA,1,2)]`. |
| `Operations.GenesisAccessors` | src/contract/operations.rs:304-333 | A genesis reports the following: `OpType::Genesis` and `OpFullType::Genesis`; no transition or extension type; empty `prev_outs`; its own metadata, globals and valencies. |
| `Operations.ExtensionAccessors` | src/contract/operations.rs:335-364 | An extension reports the following: `StateExtension` with its own extension type, and `extension_type == Some(..)`; no transition type; empty `prev_outs`; its own metadata, globals, valencies, contract id and redeemed valencies. |
| `Operations.TransitionAccessors` | src/contract/operations.rs:366-404 | A transition reports the following: `StateTransition` with its own transition type, and `transition_type == Some(..)`; no extension type; its own metadata, globals and valencies; `prev_state` equal to its inputs. Its `prev_outs` has one element per listed index and contains exactly the outputs its inputs name. |
| `Operations.OpRefTypesAgree` | src/contract/operations.rs:413-487 | Whatever an `OpRef` wraps, its type queries agree with each other. `full_type` names the `op_type`, and exactly the matching one of `transition_type` and `extension_type` is present, carrying the same type. An `OpRef` that is not a transition has empty `prev_outs`. |
| `Operations.OpRefForwards` | src/contract/operations.rs:413-487 | Each variant of `OpRef` returns for every query what the wrapped operation returns. This covers `op_type`, `full_type`, `id`, `transition_type`, `extension_type`, `metadata`, `globals`, `valencies` and `prev_outs`. |
| `Operations.GenesisContractId` | src/contract/operations.rs:280-283 | The contract id of a genesis has exactly the bytes of its operation id, and it equals the genesis commitment. As a `ProtocolId` it is the protocol id with the operation id's bytes. |
| `Operations.TransitionOrder` | src/contract/operations.rs:245-251 | Transitions compare `Equal` exactly when their ids are equal, whatever their other fields. Comparison depends on the ids alone and is antisymmetric and transitive. `partial_cmp` is always `Some(cmp)`. |

## Left out

- Hex parsing and printing of `OpId` (src/contract/operations.rs:98-101) and the Baid58 form of `ContractId` (src/contract/operations.rs:120-129) are not modelled. They are thin wrappers over text codecs whose code is not part of this model.
- The commitment hash and the strict encoding of whole operations are parameters (`Committer`), not definitions. A tag changing the digest can therefore not be proved. Only the distinctness of the three tags is proved (`TagsDistinct`).
- `Operations.TransitionOrder` does not prove that transitions comparing `Equal` are equal as values, because that would need the hash and encoding to be injective.
- `TypedAssigns`, `GlobalState`, the seal types and concealment, `SchemaId` and `Chain` are abstract types. Their own encodings and cryptography are defined elsewhere.
- `StateAssignments.Assignments.CommitEncode` models a writer that never fails. The source discards write results with `.ok()`, so it reports no errors either. The protocol's design calls for encoding errors to always propagate, but this code does not do that, and the model follows the code. The 32-bit limit of the strict writer is not modelled; the encoding of a container of at most 255 entries stays below it as long as the state encodings do.
- More than 255 entries in an `Assignments` map, a vector or a set cannot be represented at all. As in the source, the cap is a property of the confined collection types, not a runtime error.
- The trait's default `assignments_by_type` calls an `assignments()` accessor that the trait in src/contract/operations.rs does not declare. The model applies it to each kind's `assignments` field (`AssignmentsByType` on `Genesis`, `Extension` and `Transition`, all through `Assignments.ByType`). `OpRef`'s version is not modelled: its seal type (`ChainBlindSeal`) differs from that of genesis and extension assignments.
- Serde attributes and derive macros are not modelled. Derived equality is Dafny's structural equality on datatypes.
