/** Which legs an order has and how a leg's status may move (internal/orders/legs.go). */
module Legs {
  import opened Models

  /** The canonical order of legs. */
  function Position(l: Leg): nat {
    match l case Transport => 0 case Equipment => 1 case Labor => 2
  }

  function LegsFor(t: OrderType, hasEquipment: bool, hasLabor: bool): (legs: seq<Leg>)
    ensures Distinct(legs) && forall i, j :: 0 <= i < j < |legs| ==> Position(legs[i]) < Position(legs[j])
    ensures legs == [] <==> t.UnknownType?
    ensures Transport in legs <==> t.TransportOnly? || t.TransportWithOptions?
    ensures Equipment in legs <==> t.EquipmentOnly? || (t.TransportWithOptions? && hasEquipment)
    ensures Labor in legs <==> t.LaborOnly? || (t.TransportWithOptions? && hasLabor)
  {
    match t
    case TransportOnly => [Transport]
    case EquipmentOnly => [Equipment]
    case LaborOnly => [Labor]
    case TransportWithOptions =>
      [Transport] + (if hasEquipment then [Equipment] else []) + (if hasLabor then [Labor] else [])
    case UnknownType(_) => []
  }

  ghost predicate Distinct<T>(s: seq<T>) {
    forall i, j :: 0 <= i < j < |s| ==> s[i] != s[j]
  }

  function NextAllowed(from: Status): seq<Status> {
    match from
    case Published => [Matched, Accepted]
    case Matched => [Accepted]
    case Accepted => [InProgress, LoadingInProgress, InTransit, Delivered]
    case InProgress => [LoadingInProgress, InTransit, Delivered]
    case LoadingInProgress => [InTransit, Delivered]
    case InTransit => [Delivered]
    case Delivered => [Completed]
    case _ => []
  }

  predicate CanTransition(from: Status, to: Status) {
    to in NextAllowed(from)
  }

  predicate IsReadyForClientConfirmation(statuses: seq<Status>) {
    statuses != [] && forall s <- statuses :: s == Delivered || s == Completed
  }

  predicate Cancellable(s: Status) {
    s in {Draft, Published, Matched, Accepted, Cancelled}
  }

  /** A leg can be called off while it has not moved past accepted, or is called off already. */
  lemma CancellableUpToAccepted(s: Status)
    ensures Cancellable(s) <==> Rank(s) <= Rank(Accepted) || s == Cancelled
  {
  }

  /** How far along its life a leg is; cancelled is the end of another branch. */
  function Rank(s: Status): int {
    match s
    case Draft => 0
    case Published => 1
    case Matched => 2
    case Accepted => 3
    case InProgress => 4
    case LoadingInProgress => 5
    case InTransit => 6
    case Delivered => 7
    case Completed => 8
    case Cancelled => 9
    case Disputed => 9
  }

  /** The documented intent of the table, against which the table itself is checked:
      an executor's move is exactly a forward move, except that nothing enters or leaves the
      states handled elsewhere, a leg must be accepted before work and delivered before completed. */
  lemma TransitionsAreForward(from: Status, to: Status)
    ensures CanTransition(from, to) ==> Rank(from) < Rank(to)
    ensures CanTransition(from, to) <==>
            || (Rank(Accepted) <= Rank(from) < Rank(to) <= Rank(Delivered))
            || (from == Delivered && to == Completed)
            || (Rank(Published) <= Rank(from) < Rank(to) <= Rank(Accepted))
  {
    match from {
      case Draft =>
      case Published =>
      case Matched =>
      case Accepted =>
      case InProgress =>
      case LoadingInProgress =>
      case InTransit =>
      case Delivered =>
      case Completed =>
      case Cancelled =>
      case Disputed =>
    }
  }
}
