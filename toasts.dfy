/** The notification surface the components write to: plain toasts, loading
    toasts that are later updated to a final kind and message, and nothing
    else. The rendering library behind it is not modelled; what the components
    show is recorded as an append-only log of events. */
module Toasts {

  datatype Kind = Success | Error | Warning | Info

  /** A toast's final kind and message, as a handler decides them. */
  datatype Toast = Toast(kind: Kind, message: string)

  datatype Event =
    | Shown(kind: Kind, message: string)
    | LoadingShown(id: nat, message: string)
    | Updated(id: nat, kind: Kind, message: string)

  class Toaster {
    var log: seq<Event>
    var nextId: nat

    /** Every loading toast in the log has an id below `nextId`, so a new one
        never reuses an id. */
    ghost predicate Valid()
      reads this
    {
      forall i :: 0 <= i < |log| && log[i].LoadingShown? ==> log[i].id < nextId
    }

    constructor ()
      ensures Valid() && log == [] && nextId == 0
    {
      log := [];
      nextId := 0;
    }

    /** `showSuccess`, `showError`, `showWarning`, `showInfo`. */
    method Show(kind: Kind, message: string)
      requires Valid()
      modifies this
      ensures Valid()
      ensures log == old(log) + [Shown(kind, message)] && nextId == old(nextId)
    {
      log := log + [Shown(kind, message)];
    }

    /** `showLoading`: opens a loading toast under a fresh id. */
    method ShowLoading(message: string) returns (id: nat)
      requires Valid()
      modifies this
      ensures Valid()
      ensures id == old(nextId) && nextId == old(nextId) + 1
      ensures log == old(log) + [LoadingShown(id, message)]
      ensures forall i :: 0 <= i < |old(log)| && log[i].LoadingShown? ==> log[i].id != id
    {
      id := nextId;
      log := log + [LoadingShown(id, message)];
      nextId := nextId + 1;
    }

    /** `updateToast`: turns toast `id` into a final toast of the given kind. */
    method Update(id: nat, kind: Kind, message: string)
      requires Valid()
      modifies this
      ensures Valid()
      ensures log == old(log) + [Updated(id, kind, message)] && nextId == old(nextId)
    {
      log := log + [Updated(id, kind, message)];
    }
  }
}
