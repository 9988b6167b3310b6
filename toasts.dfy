/** The notification list kept by the `useToast` hook: toasts are appended
    with a defaulted type and duration and removed by id. */
module Toasts {
  import opened Basics

  datatype ToastType = Success | Error | Warning

  /** One live notification. The `onClose` callback every toast carries is
      always `removeToast`, so it is not stored. */
  datatype Toast = Toast(id: string, message: string, kind: ToastType, duration: int)

  /** The optional second argument of `showToast`; an omitted argument is
      `ToastOptions(None, None)`. */
  datatype ToastOptions = ToastOptions(kind: Option<ToastType>, duration: Option<int>)

  /** A `(message, type)` pair handed to a controller's `onToastShow`. */
  datatype Notice = Notice(message: string, kind: ToastType)

  const DefaultDuration: int := 4000

  /** `options.type || 'success'`: every type name is a non-empty string,
      so only a missing type falls back to success. */
  function EffectiveType(kind: Option<ToastType>): (t: ToastType)
    ensures kind.Some? ==> t == kind.value
    ensures kind.None? ==> t == Success
  {
    match kind
    case Some(k) => k
    case None => Success
  }

  /** `options.duration || 4000`: a missing duration and a duration of 0
      (falsy in JavaScript) both become 4000; any other value is kept. */
  function EffectiveDuration(duration: Option<int>): (r: int)
    ensures r != 0
    ensures duration.Some? && duration.value != 0 ==> r == duration.value
    ensures duration.None? || duration.value == 0 ==> r == DefaultDuration
  {
    match duration
    case Some(d) => if d != 0 then d else DefaultDuration
    case None => DefaultDuration
  }

  /** The toast `showToast` builds; `id` is the clock reading it is given.
      The type and duration fall back to success and 4000 ms, and a toast
      never gets a zero duration. */
  function MakeToast(id: string, message: string, options: ToastOptions): (t: Toast)
    ensures t.id == id && t.message == message
    ensures options.kind.None? ==> t.kind == Success
    ensures options.kind.Some? ==> t.kind == options.kind.value
    ensures t.duration != 0
    ensures options.duration.Some? && options.duration.value != 0 ==> t.duration == options.duration.value
    ensures options.duration.None? || options.duration.value == 0 ==> t.duration == DefaultDuration
  {
    Toast(id, message, EffectiveType(options.kind), EffectiveDuration(options.duration))
  }

  /** `prev.filter(toast => toast.id !== id)`. */
  function WithoutId(ts: seq<Toast>, id: string): (r: seq<Toast>)
    ensures forall t :: t in r <==> t in ts && t.id != id
    ensures |r| <= |ts|
  {
    if ts == [] then []
    else if ts[0].id == id then WithoutId(ts[1..], id)
    else [ts[0]] + WithoutId(ts[1..], id)
  }

  /** Number of toasts carrying `id`; ids come from a millisecond clock, so
      more than one toast can carry the same id. */
  function CountId(ts: seq<Toast>, id: string): nat
  {
    if ts == [] then 0
    else (if ts[0].id == id then 1 else 0) + CountId(ts[1..], id)
  }

  /** Removal keeps the surviving toasts in their original relative order. */
  lemma {:induction false} WithoutIdKeepsOrder(ts: seq<Toast>, id: string)
    ensures IsSubsequence(WithoutId(ts, id), ts)
  {
    if ts != [] {
      WithoutIdKeepsOrder(ts[1..], id);
      assert ts == [ts[0]] + ts[1..];
      if ts[0].id == id {
        SkipSubsequence(ts[0], WithoutId(ts[1..], id), ts[1..]);
      } else {
        ConsSubsequence(ts[0], WithoutId(ts[1..], id), ts[1..]);
      }
    }
  }

  /** Removal drops every toast carrying the id, colliding ones included,
      and no other. */
  lemma {:induction false} WithoutIdCount(ts: seq<Toast>, id: string)
    ensures |WithoutId(ts, id)| == |ts| - CountId(ts, id)
  {
    if ts != [] {
      WithoutIdCount(ts[1..], id);
    }
  }

  /** Removing an id that no toast carries leaves the list as it was. */
  lemma {:induction false} WithoutIdAbsent(ts: seq<Toast>, id: string)
    requires forall t :: t in ts ==> t.id != id
    ensures WithoutId(ts, id) == ts
  {
    if ts != [] {
      assert ts[0] in ts;
      WithoutIdAbsent(ts[1..], id);
      assert ts == [ts[0]] + ts[1..];
    }
  }

  /** Removing the same id twice is the same as removing it once. */
  lemma WithoutIdIdempotent(ts: seq<Toast>, id: string)
    ensures WithoutId(WithoutId(ts, id), id) == WithoutId(ts, id)
  {
    WithoutIdAbsent(WithoutId(ts, id), id);
  }

  /** Removal acts on each part of a list independently. */
  lemma {:induction false} WithoutIdAppend(a: seq<Toast>, b: seq<Toast>, id: string)
    ensures WithoutId(a + b, id) == WithoutId(a, id) + WithoutId(b, id)
  {
    if a == [] {
      assert a + b == b;
    } else {
      assert (a + b)[0] == a[0];
      assert (a + b)[1..] == a[1..] + b;
      WithoutIdAppend(a[1..], b, id);
    }
  }

  /** Closing a toast just shown removes it, together with every earlier
      toast that received the same clock id. */
  lemma ShowThenRemove(ts: seq<Toast>, id: string, message: string, options: ToastOptions)
    ensures WithoutId(ts + [MakeToast(id, message, options)], id) == WithoutId(ts, id)
  {
    WithoutIdAppend(ts, [MakeToast(id, message, options)], id);
    assert WithoutId([MakeToast(id, message, options)], id) == [];
  }

  /** With a clock id no live toast carries, show-then-close is a round trip. */
  lemma ShowThenRemoveFresh(ts: seq<Toast>, id: string, message: string, options: ToastOptions)
    requires forall t :: t in ts ==> t.id != id
    ensures WithoutId(ts + [MakeToast(id, message, options)], id) == ts
  {
    ShowThenRemove(ts, id, message, options);
    WithoutIdAbsent(ts, id);
  }

  /** Two toasts shown in the same millisecond share an id, and closing
      either closes both. */
  lemma SameMillisecondToastsCloseTogether(ts: seq<Toast>, id: string, m1: string, m2: string,
                                           o1: ToastOptions, o2: ToastOptions)
    ensures WithoutId(ts + [MakeToast(id, m1, o1)] + [MakeToast(id, m2, o2)], id) == WithoutId(ts, id)
  {
    ShowThenRemove(ts + [MakeToast(id, m1, o1)], id, m2, o2);
    ShowThenRemove(ts, id, m1, o1);
  }

  /** The hook's state and its callbacks. */
  class ToastStore {
    var toasts: seq<Toast>

    constructor ()
      ensures toasts == []
    {
      toasts := [];
    }

    /** `showToast(message, options)`, with the clock reading passed in. */
    method ShowToast(id: string, message: string, options: ToastOptions)
      modifies this
      ensures toasts == old(toasts) + [MakeToast(id, message, options)]
    {
      toasts := toasts + [MakeToast(id, message, options)];
    }

    /** `removeToast(id)`: used by the close button and the auto-dismiss timer. */
    method RemoveToast(id: string)
      modifies this
      ensures toasts == WithoutId(old(toasts), id)
    {
      toasts := WithoutId(toasts, id);
    }

    method ShowSuccess(id: string, message: string, duration: Option<int>)
      modifies this
      ensures toasts == old(toasts) + [MakeToast(id, message, ToastOptions(Some(Success), duration))]
      ensures toasts[|toasts| - 1].kind == Success
    {
      ShowToast(id, message, ToastOptions(Some(Success), duration));
    }

    method ShowError(id: string, message: string, duration: Option<int>)
      modifies this
      ensures toasts == old(toasts) + [MakeToast(id, message, ToastOptions(Some(Error), duration))]
      ensures toasts[|toasts| - 1].kind == Error
    {
      ShowToast(id, message, ToastOptions(Some(Error), duration));
    }

    method ShowWarning(id: string, message: string, duration: Option<int>)
      modifies this
      ensures toasts == old(toasts) + [MakeToast(id, message, ToastOptions(Some(Warning), duration))]
      ensures toasts[|toasts| - 1].kind == Warning
    {
      ShowToast(id, message, ToastOptions(Some(Warning), duration));
    }
  }
}
