/**
 * CRDT documents as sets of operations. A Yrs document is the set of operations it has
 * integrated and applying an update is set union; the wire encoding and the integration
 * algorithm of Yrs are outside the model.
 */
module Crdt {
  import opened Common

  type byte = b: int | 0 <= b < 256
  type Bytes = seq<byte>
  type ObjectId = Bytes
  type ClaimId = Bytes
  type WriterId = Bytes

  predicate ValidComponent(c: string) {
    c != "" && c != "." && c != ".." && '/' !in c && '\0' !in c
  }

  /** A path relative to the workspace root: at least one component, each a plain name. */
  type Path = p: seq<string> | p != [] && forall i :: 0 <= i < |p| ==> ValidComponent(p[i]) witness ["a"]

  datatype ObjectKind = Text | Binary | Dir

  datatype NsFact =
    | AddObject(oid: ObjectId, kind: ObjectKind, creator: WriterId)
    | AddClaim(claim: ClaimId, owner: ObjectId, path: Path)
    | RemoveClaim(removed: ClaimId)

  /** Operations carry the (client, clock) id that Yrs gives each inserted struct. */
  datatype NsOp = NsOp(client: nat, clock: nat, fact: NsFact)

  /** The id of an inserted struct. */
  datatype StructId = StructId(client: nat, clock: nat)

  /**
   * An insertion names the struct it goes after. A deletion names the struct it deletes
   * and has no id of its own.
   */
  datatype TextOp =
    | Insert(client: nat, clock: nat, left: Option<StructId>, body: string)
    | Delete(target: StructId)

  type NsDoc = set<NsOp>
  type TextDoc = set<TextOp>

  datatype Message = NamespaceUpdate(nsOps: NsDoc) | TextObjectUpdate(oid: ObjectId, textOps: TextDoc)
}
