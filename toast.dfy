/**
 * The notification queue of frontend/src/components/ui/Toast.tsx: toasts are appended by
 * `addToast`, removed by id, and scheduled for removal after their duration. The random id and
 * the timers are inputs: a timer is recorded, and its firing is a call to `RemoveToast`.
 */
module Toast {
  import opened Wrappers

  datatype ToastType = Success | Error | Info | Warning

  datatype Toast = Toast(id: string, kind: ToastType, message: string, duration: int)

  /** A scheduled `removeToast(id)` after `delay` milliseconds. */
  datatype Timer = Timer(id: string, delay: int)

  const DefaultDuration: int := 5000

  /** `prev.filter(t => t.id !== id)`. */
  function Without(ts: seq<Toast>, id: string): (r: seq<Toast>)
    ensures |r| <= |ts|
    ensures forall t :: t in r <==> t in ts && t.id != id
    decreases |ts|
  {
    if |ts| == 0 then []
    else
      var rest := Without(ts[1..], id);
      assert forall t :: t in ts <==> t == ts[0] || t in ts[1..];
      if ts[0].id != id then [ts[0]] + rest else rest
  }

  /** Removing an id no toast has changes nothing. */
  lemma {:induction false} WithoutUnknown(ts: seq<Toast>, id: string)
    requires forall k :: 0 <= k < |ts| ==> ts[k].id != id
    ensures Without(ts, id) == ts
    decreases |ts|
  {
    if |ts| > 0 {
      WithoutUnknown(ts[1..], id);
      WithoutCons(ts, id);
      assert ts == [ts[0]] + ts[1..];
    }
  }

  lemma WithoutCons(ts: seq<Toast>, id: string)
    requires |ts| > 0
    ensures Without(ts, id) == (if ts[0].id != id then [ts[0]] else []) + Without(ts[1..], id)
  {
  }

  lemma {:induction false} WithoutAppend(ts: seq<Toast>, t: Toast, id: string)
    ensures Without(ts + [t], id) == Without(ts, id) + (if t.id != id then [t] else [])
    decreases |ts|
  {
    if |ts| > 0 {
      assert (ts + [t])[1..] == ts[1..] + [t];
      WithoutAppend(ts[1..], t, id);
    } else {
      assert ts + [t] == [t];
    }
  }

  /** A toast with a new id, once added and then removed, leaves the queue as it was. */
  lemma AddThenRemove(ts: seq<Toast>, t: Toast)
    requires forall k :: 0 <= k < |ts| ==> ts[k].id != t.id
    ensures Without(ts + [t], t.id) == ts
  {
    WithoutAppend(ts, t, t.id);
    WithoutUnknown(ts, t.id);
  }

  /** The moment a shown toast starts its exit animation, 300 ms before its removal; none for a
      toast without a positive duration. */
  function ExitDelay(t: Toast): (r: Option<int>)
    ensures t.duration > 0 <==> r.Some?
    ensures r.Some? ==> r.value == t.duration - 300
  {
    if t.duration != 0 && t.duration > 0 then Some(t.duration - 300) else None
  }

  class Toaster {
    var toasts: seq<Toast>
    var timers: seq<Timer>

    constructor()
      ensures toasts == [] && timers == []
    {
      toasts := [];
      timers := [];
    }

    /** `addToast(type, message, duration = 5000)` with the id drawn for it: one toast appended
        at the end and, for a positive duration, its removal scheduled. */
    method AddToast(kind: ToastType, message: string, duration: Option<int>, id: string)
      modifies this
      ensures toasts == old(toasts) + [Toast(id, kind, message, duration.GetOr(DefaultDuration))]
      ensures timers == old(timers) + (if duration.GetOr(DefaultDuration) > 0 then [Timer(id, duration.GetOr(DefaultDuration))] else [])
    {
      var d := duration.GetOr(DefaultDuration);
      toasts := toasts + [Toast(id, kind, message, d)];
      if d > 0 {
        timers := timers + [Timer(id, d)];
      }
    }

    /** `removeToast(id)`, from the close button or a fired timer. */
    method RemoveToast(id: string)
      modifies this
      ensures toasts == Without(old(toasts), id) && timers == old(timers)
    {
      toasts := Without(toasts, id);
    }

    method ShowSuccess(message: string, duration: Option<int>, id: string)
      modifies this
      ensures toasts == old(toasts) + [Toast(id, Success, message, duration.GetOr(DefaultDuration))]
      ensures timers == old(timers) + (if duration.GetOr(DefaultDuration) > 0 then [Timer(id, duration.GetOr(DefaultDuration))] else [])
    {
      AddToast(Success, message, duration, id);
    }

    method ShowError(message: string, duration: Option<int>, id: string)
      modifies this
      ensures toasts == old(toasts) + [Toast(id, Error, message, duration.GetOr(DefaultDuration))]
      ensures timers == old(timers) + (if duration.GetOr(DefaultDuration) > 0 then [Timer(id, duration.GetOr(DefaultDuration))] else [])
    {
      AddToast(Error, message, duration, id);
    }

    method ShowInfo(message: string, duration: Option<int>, id: string)
      modifies this
      ensures toasts == old(toasts) + [Toast(id, Info, message, duration.GetOr(DefaultDuration))]
      ensures timers == old(timers) + (if duration.GetOr(DefaultDuration) > 0 then [Timer(id, duration.GetOr(DefaultDuration))] else [])
    {
      AddToast(Info, message, duration, id);
    }

    method ShowWarning(message: string, duration: Option<int>, id: string)
      modifies this
      ensures toasts == old(toasts) + [Toast(id, Warning, message, duration.GetOr(DefaultDuration))]
      ensures timers == old(timers) + (if duration.GetOr(DefaultDuration) > 0 then [Timer(id, duration.GetOr(DefaultDuration))] else [])
    {
      AddToast(Warning, message, duration, id);
    }
  }
}
