/** The global toast queue (src/composables/useToast.ts): one list of visible
    notifications shared by every caller, and the counter that numbers them. */
module Toasts {
  import opened Common
  import opened Seqs

  datatype ToastType = Success | Error | Warning | Info

  /** What a caller asks `show` for; type and duration may be left out. */
  datatype ToastOptions = ToastOptions(message: string, kind: Option<ToastType>, duration: Option<int>)

  datatype Toast = Toast(id: int, message: string, kind: ToastType, duration: int)

  /** Milliseconds a toast stays when no (or a zero) duration is given. */
  const DefaultDuration := 3000

  /** The toast `show` builds: a missing type is `Info`; a missing or zero
      duration is `DefaultDuration`, any other duration is kept. */
  function MakeToast(id: int, options: ToastOptions): (t: Toast)
    ensures t.id == id && t.message == options.message
    ensures options.kind.None? ==> t.kind == Info
    ensures options.kind.Some? ==> t.kind == options.kind.value
    ensures options.duration.None? || options.duration == Some(0) ==> t.duration == DefaultDuration
    ensures options.duration.Some? && options.duration.value != 0 ==> t.duration == options.duration.value
  {
    Toast(id,
          options.message,
          if options.kind.Some? then options.kind.value else Info,
          if options.duration.Some? && options.duration.value != 0 then options.duration.value else DefaultDuration)
  }

  function HasId(id: int): Toast -> bool
  {
    (t: Toast) => t.id == id
  }

  /** Ids rise strictly along the list, so no id occurs twice. */
  ghost predicate IdsIncreasing(toasts: seq<Toast>)
  {
    forall i, j :: 0 <= i < j < |toasts| ==> toasts[i].id < toasts[j].id
  }

  /** Removing one toast keeps the ids rising, and the removed id no longer occurs. */
  lemma RemoveKeepsIdsIncreasing(toasts: seq<Toast>, k: nat)
    requires IdsIncreasing(toasts) && k < |toasts|
    ensures IdsIncreasing(RemoveAt(toasts, k))
    ensures forall i :: 0 <= i < |toasts| - 1 ==> RemoveAt(toasts, k)[i].id != toasts[k].id
  {
  }

  /** The queue's state: the visible toasts and the last id handed out. */
  class ToastQueue {
    var toasts: seq<Toast>
    var toastId: int

    /** Every id in the list was handed out already, and the list is in id order. */
    ghost predicate Valid()
      reads this
    {
      0 <= toastId && IdsIncreasing(toasts) &&
      forall i :: 0 <= i < |toasts| ==> 0 < toasts[i].id <= toastId
    }

    constructor ()
      ensures Valid() && toasts == [] && toastId == 0
    {
      toasts := [];
      toastId := 0;
    }

    /** `show`: take the next id (the counter is incremented first), append one
        toast at the end, and return the id, which exceeds every earlier one. */
    method Show(options: ToastOptions) returns (id: int)
      requires Valid()
      modifies this
      ensures Valid()
      ensures id == old(toastId) + 1 && toastId == id
      ensures toasts == old(toasts) + [MakeToast(id, options)]
      ensures forall i :: 0 <= i < |old(toasts)| ==> old(toasts)[i].id < id
    {
      toastId := toastId + 1;
      id := toastId;
      toasts := toasts + [MakeToast(id, options)];
    }

    /** `success`, `error`, `warning`, `info`: `show` with that type. */
    method ShowSuccess(message: string, duration: Option<int>) returns (id: int)
      requires Valid()
      modifies this
      ensures Valid() && id == old(toastId) + 1 && toastId == id
      ensures toasts == old(toasts) + [MakeToast(id, ToastOptions(message, Some(Success), duration))]
    {
      id := Show(ToastOptions(message, Some(Success), duration));
    }

    method ShowError(message: string, duration: Option<int>) returns (id: int)
      requires Valid()
      modifies this
      ensures Valid() && id == old(toastId) + 1 && toastId == id
      ensures toasts == old(toasts) + [MakeToast(id, ToastOptions(message, Some(Error), duration))]
    {
      id := Show(ToastOptions(message, Some(Error), duration));
    }

    method ShowWarning(message: string, duration: Option<int>) returns (id: int)
      requires Valid()
      modifies this
      ensures Valid() && id == old(toastId) + 1 && toastId == id
      ensures toasts == old(toasts) + [MakeToast(id, ToastOptions(message, Some(Warning), duration))]
    {
      id := Show(ToastOptions(message, Some(Warning), duration));
    }

    method ShowInfo(message: string, duration: Option<int>) returns (id: int)
      requires Valid()
      modifies this
      ensures Valid() && id == old(toastId) + 1 && toastId == id
      ensures toasts == old(toasts) + [MakeToast(id, ToastOptions(message, Some(Info), duration))]
    {
      id := Show(ToastOptions(message, Some(Info), duration));
    }

    /** `remove(id)`: splice out the first toast with that id; an unknown id changes
        nothing. Since ids are unique, no toast with that id is left. */
    method Remove(id: int)
      requires Valid()
      modifies this
      ensures Valid() && toastId == old(toastId)
      ensures IndexWhere(old(toasts), HasId(id)) == -1 ==> toasts == old(toasts)
      ensures IndexWhere(old(toasts), HasId(id)) != -1 ==>
        |toasts| == |old(toasts)| - 1 &&
        toasts == RemoveAt(old(toasts), IndexWhere(old(toasts), HasId(id)))
      ensures forall i :: 0 <= i < |toasts| ==> toasts[i].id != id
    {
      var index := IndexWhere(toasts, HasId(id));
      if index != -1 {
        RemoveKeepsIdsIncreasing(toasts, index);
        toasts := toasts[..index] + toasts[index + 1..];
        assert toasts == RemoveAt(old(toasts), index);
      }
    }

    /** `clear`: empty the list; the counter keeps counting from where it was. */
    method Clear()
      requires Valid()
      modifies this
      ensures Valid() && toasts == [] && toastId == old(toastId)
    {
      toasts := [];
    }
  }
}
