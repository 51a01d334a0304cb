/** Movement types, transfer states and recipe consumption, as the domain package fixes them. */
module InventoryDomain {

  datatype MovementType =
    | Receipt | TransferOut | TransferIn | Sale | RecipeConsumption | Wastage | Breakage | Comp
    | CountAdjustment | ReturnToWarehouse | SupplierReturn | Reversal

  predicate Raises(t: MovementType) { t == Receipt || t == TransferIn }

  predicate Lowers(t: MovementType) {
    t in {TransferOut, Sale, RecipeConsumption, Wastage, Breakage, Comp, ReturnToWarehouse, SupplierReturn}
  }

  predicate ValidDelta(t: MovementType, delta: int) {
    delta != 0 && (Raises(t) ==> delta > 0) && (Lowers(t) ==> delta < 0)
  }

  datatype TransferState = Requested | Assigned | Picking | InTransit | Received | Cancelled

  function TransferSuccessors(from: TransferState): set<TransferState> {
    match from
    case Requested => {Assigned, Cancelled}
    case Assigned => {Picking, Cancelled}
    case Picking => {InTransit, Cancelled}
    case InTransit => {TransferState.Received}
    case Received => {}
    case Cancelled => {}
  }

  predicate HasLeft(s: TransferState) { s == InTransit || s == TransferState.Received }

  /** Stock that has left cannot be unsent: a transfer in transit can only be received, and then nothing. */
  lemma {:induction false} LeavingIsFinal(from: TransferState, to: TransferState)
    requires to in TransferSuccessors(from)
    ensures HasLeft(from) ==> HasLeft(to)
    ensures HasLeft(to) && !HasLeft(from) ==> from == Picking && to == InTransit
  {
  }
}
