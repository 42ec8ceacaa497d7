/**
 * The toast store (client/src/components/ui/use-toast.tsx): a pure reducer
 * over the list of visible toasts, bounded by `TOAST_LIMIT`, and the module
 * state around it — the current state, the subscribed listeners, `dispatch`,
 * `toast` and the subscribe/unsubscribe pair of `useToast`.
 *
 * A listener is an opaque handle; calling it is recorded as a delivery of the
 * new state to that handle. The random toast id is a parameter.
 */
module Toast {
  import opened Text
  import Lists

  const ToastLimit: nat := 1

  datatype Variant = Default | Destructive

  /** A toast on screen; `open` is absent until the toast is dismissed. */
  datatype ToasterToast = ToasterToast(
    id: string,
    title: Option<string>,
    description: Option<string>,
    variant: Option<Variant>,
    open: Option<bool>)

  /** What a caller passes to `toast`; its own `id` is overridden by the generated one. */
  datatype ToastProps = ToastProps(
    title: Option<string>,
    description: Option<string>,
    variant: Option<Variant>,
    id: string)

  datatype ToastState = ToastState(toasts: seq<ToasterToast>)

  datatype Action =
    | AddToast(toast: ToasterToast)
    | DismissToast(toastId: Option<string>)
    | RemoveToast(toastId: Option<string>)
    | Unrecognised

  /** `slice(0, n)`. */
  function Take<T>(s: seq<T>, n: nat): (r: seq<T>)
    ensures |r| == if n < |s| then n else |s|
    ensures r == s[..|r|]
  {
    if n < |s| then s[..n] else s
  }

  /** Whether a dismiss with `toastId` closes `t`: the ids match, or no id was given. */
  predicate Dismisses(toastId: Option<string>, t: ToasterToast) {
    toastId == Some(t.id) || toastId.None?
  }

  function CloseMatching(ts: seq<ToasterToast>, toastId: Option<string>): (r: seq<ToasterToast>)
    ensures |r| == |ts|
    ensures forall i :: 0 <= i < |ts| ==>
      r[i] == if Dismisses(toastId, ts[i]) then ts[i].(open := Some(false)) else ts[i]
  {
    if ts == [] then []
    else
      var head := if Dismisses(toastId, ts[0]) then ts[0].(open := Some(false)) else ts[0];
      [head] + CloseMatching(ts[1..], toastId)
  }

  function IdIsNot(id: string): ToasterToast -> bool {
    (t: ToasterToast) => t.id != id
  }

  /** `toastReducer`. */
  function Reduce(s: ToastState, a: Action): (r: ToastState)
    ensures a.AddToast? ==> r.toasts == Take([a.toast] + s.toasts, ToastLimit)
    ensures a.DismissToast? ==> r.toasts == CloseMatching(s.toasts, a.toastId)
    ensures a.RemoveToast? && a.toastId.None? ==> r.toasts == []
    ensures a.RemoveToast? && a.toastId.Some? ==> r.toasts == Lists.Filter(s.toasts, IdIsNot(a.toastId.value))
    ensures a.Unrecognised? ==> r == s
  {
    match a
    case AddToast(t) => s.(toasts := Take([t] + s.toasts, ToastLimit))
    case DismissToast(toastId) => s.(toasts := CloseMatching(s.toasts, toastId))
    case RemoveToast(toastId) =>
      if toastId.None? then s.(toasts := [])
      else s.(toasts := Lists.Filter(s.toasts, IdIsNot(toastId.value)))
    case Unrecognised => s
  }

  /** With a limit of one, adding shows exactly the new toast. */
  lemma AddShowsOnlyNewest(s: ToastState, t: ToasterToast)
    ensures Reduce(s, AddToast(t)).toasts == [t]
  {
  }

  /** No action lengthens the list beyond the limit, or beyond its current length. */
  lemma ReduceBounded(s: ToastState, a: Action)
    ensures |Reduce(s, a).toasts| <= ToastLimit || |Reduce(s, a).toasts| <= |s.toasts|
    ensures |s.toasts| <= ToastLimit ==> |Reduce(s, a).toasts| <= ToastLimit
  {
  }

  /** The reducer folded over a sequence of actions. */
  function Run(s: ToastState, actions: seq<Action>): ToastState
    decreases |actions|
  {
    if actions == [] then s else Run(Reduce(s, actions[0]), actions[1..])
  }

  /** From the initial empty state, every run of actions keeps at most `TOAST_LIMIT` toasts. */
  lemma {:induction false} RunBounded(s: ToastState, actions: seq<Action>)
    requires |s.toasts| <= ToastLimit
    ensures |Run(s, actions).toasts| <= ToastLimit
    decreases |actions|
  {
    if actions != [] {
      ReduceBounded(s, actions[0]);
      RunBounded(Reduce(s, actions[0]), actions[1..]);
    }
  }

  lemma RunFromEmptyBounded(actions: seq<Action>)
    ensures |Run(ToastState([]), actions).toasts| <= ToastLimit
  {
    RunBounded(ToastState([]), actions);
  }

  /** A dismiss keeps the length, the order and the ids, and changes only `open`. */
  lemma DismissKeepsIds(s: ToastState, toastId: Option<string>)
    ensures |Reduce(s, DismissToast(toastId)).toasts| == |s.toasts|
    ensures forall i :: 0 <= i < |s.toasts| ==>
      Reduce(s, DismissToast(toastId)).toasts[i].(open := s.toasts[i].open) == s.toasts[i]
    ensures forall i :: 0 <= i < |s.toasts| ==>
      (Reduce(s, DismissToast(toastId)).toasts[i].open == Some(false) <==>
       Dismisses(toastId, s.toasts[i]) || s.toasts[i].open == Some(false))
  {
  }

  /** Dismissing twice is dismissing once. */
  lemma DismissIdempotent(s: ToastState, toastId: Option<string>)
    ensures Reduce(Reduce(s, DismissToast(toastId)), DismissToast(toastId)) == Reduce(s, DismissToast(toastId))
  {
  }

  /** A remove with an id drops exactly the toasts with that id and keeps the others in order. */
  lemma RemoveDropsExactlyId(s: ToastState, id: string)
    ensures forall i :: 0 <= i < |Reduce(s, RemoveToast(Some(id))).toasts| ==>
      Reduce(s, RemoveToast(Some(id))).toasts[i].id != id
    ensures forall i :: 0 <= i < |s.toasts| && s.toasts[i].id != id ==>
      s.toasts[i] in Reduce(s, RemoveToast(Some(id))).toasts
    ensures Lists.IsSubsequence(Reduce(s, RemoveToast(Some(id))).toasts, s.toasts)
  {
    Lists.FilterIsSubsequence(s.toasts, IdIsNot(id));
  }

  /** Removing twice is removing once. */
  lemma RemoveIdempotent(s: ToastState, toastId: Option<string>)
    ensures Reduce(Reduce(s, RemoveToast(toastId)), RemoveToast(toastId)) == Reduce(s, RemoveToast(toastId))
  {
    if toastId.Some? {
      Lists.FilterIdempotent(s.toasts, IdIsNot(toastId.value));
    }
  }

  /** An opaque listener handle (the `setState` a mounted hook subscribed). */
  type Listener = nat

  /** One call of a listener with the state it was given. */
  datatype Delivery = Delivery(listener: Listener, state: ToastState)

  /** The module-level state of the toast store. */
  class ToastHub {
    var memoryState: ToastState
    var listeners: seq<Listener>
    var delivered: seq<Delivery>

    ghost predicate Valid()
      reads this
    {
      |memoryState.toasts| <= ToastLimit
    }

    constructor ()
      ensures Valid()
      ensures memoryState == ToastState([]) && listeners == [] && delivered == []
    {
      memoryState := ToastState([]);
      listeners := [];
      delivered := [];
    }

    /** `dispatch`: reduce, then call every listener, in order, with the new state. */
    method Dispatch(action: Action)
      requires Valid()
      modifies this
      ensures Valid()
      ensures memoryState == Reduce(old(memoryState), action)
      ensures listeners == old(listeners)
      ensures |delivered| == |old(delivered)| + |listeners|
      ensures delivered[..|old(delivered)|] == old(delivered)
      ensures forall k :: 0 <= k < |listeners| ==>
        delivered[|old(delivered)| + k] == Delivery(listeners[k], memoryState)
    {
      ReduceBounded(memoryState, action);
      memoryState := Reduce(memoryState, action);
      var i := 0;
      while i < |listeners|
        invariant 0 <= i <= |listeners|
        invariant memoryState == Reduce(old(memoryState), action) && listeners == old(listeners)
        invariant |delivered| == |old(delivered)| + i
        invariant delivered[..|old(delivered)|] == old(delivered)
        invariant forall k :: 0 <= k < i ==> delivered[|old(delivered)| + k] == Delivery(listeners[k], memoryState)
      {
        delivered := delivered + [Delivery(listeners[i], memoryState)];
        i := i + 1;
      }
    }

    /** `toast(props)`: show a toast under the generated id and return that id. */
    method Toast(props: ToastProps, generatedId: string) returns (id: string)
      requires Valid()
      modifies this
      ensures Valid()
      ensures id == generatedId
      ensures memoryState.toasts == [ToasterToast(generatedId, props.title, props.description, props.variant, None)]
      ensures listeners == old(listeners)
      ensures |delivered| == |old(delivered)| + |listeners|
      ensures delivered[..|old(delivered)|] == old(delivered)
      ensures forall k :: 0 <= k < |listeners| ==>
        delivered[|old(delivered)| + k] == Delivery(listeners[k], memoryState)
    {
      id := generatedId;
      Dispatch(AddToast(ToasterToast(id, props.title, props.description, props.variant, None)));
    }

    /** The `dismiss` handle `toast` returns: dismiss this toast by its id. */
    method DismissHandle(id: string)
      requires Valid()
      modifies this
      ensures Valid()
      ensures memoryState == Reduce(old(memoryState), DismissToast(Some(id)))
      ensures listeners == old(listeners)
      ensures |delivered| == |old(delivered)| + |listeners|
      ensures delivered[..|old(delivered)|] == old(delivered)
      ensures forall k :: 0 <= k < |listeners| ==>
        delivered[|old(delivered)| + k] == Delivery(listeners[k], memoryState)
    {
      Dispatch(DismissToast(Some(id)));
    }

    /** The `dismiss` of `useToast`: dismiss one toast by id, or every toast when no id is given. */
    method Dismiss(toastId: Option<string>)
      requires Valid()
      modifies this
      ensures Valid()
      ensures memoryState == Reduce(old(memoryState), DismissToast(toastId))
      ensures listeners == old(listeners)
      ensures |delivered| == |old(delivered)| + |listeners|
      ensures delivered[..|old(delivered)|] == old(delivered)
      ensures forall k :: 0 <= k < |listeners| ==>
        delivered[|old(delivered)| + k] == Delivery(listeners[k], memoryState)
    {
      Dispatch(DismissToast(toastId));
    }

    /** The `update` handle `toast` returns: show the new props under the same id. */
    method UpdateHandle(id: string, props: ToastProps)
      requires Valid()
      modifies this
      ensures Valid()
      ensures memoryState.toasts == [ToasterToast(id, props.title, props.description, props.variant, None)]
      ensures listeners == old(listeners)
      ensures |delivered| == |old(delivered)| + |listeners|
      ensures delivered[..|old(delivered)|] == old(delivered)
      ensures forall k :: 0 <= k < |listeners| ==>
        delivered[|old(delivered)| + k] == Delivery(listeners[k], memoryState)
    {
      Dispatch(AddToast(ToasterToast(id, props.title, props.description, props.variant, None)));
    }

    /** `useToast` on mount: the listener is appended. */
    method Subscribe(l: Listener)
      modifies this
      ensures listeners == old(listeners) + [l]
      ensures memoryState == old(memoryState) && delivered == old(delivered)
    {
      listeners := listeners + [l];
    }

    /** `useToast` on unmount: `indexOf`, then `splice` of that one entry when found. */
    method Unsubscribe(l: Listener)
      modifies this
      ensures l in old(listeners) ==>
        exists i :: 0 <= i < |old(listeners)| && old(listeners)[i] == l && l !in old(listeners)[..i]
          && listeners == old(listeners)[..i] + old(listeners)[i + 1..]
      ensures l !in old(listeners) ==> listeners == old(listeners)
      ensures multiset(listeners) == multiset(old(listeners)) - multiset{l}
      ensures memoryState == old(memoryState) && delivered == old(delivered)
    {
      var index := IndexOf(listeners, l);
      if index > -1 {
        MultisetRemoveAt(listeners, index);
        listeners := listeners[..index] + listeners[index + 1..];
      }
    }
  }

  /** Cutting position `i` out of a sequence removes one occurrence of its element. */
  lemma MultisetRemoveAt<T>(s: seq<T>, i: nat)
    requires i < |s|
    ensures multiset(s[..i] + s[i + 1..]) == multiset(s) - multiset{s[i]}
  {
    assert s == s[..i] + [s[i]] + s[i + 1..];
  }

  /** `Array.prototype.indexOf`: the first position holding `x`, or -1. */
  method IndexOf(s: seq<Listener>, x: Listener) returns (index: int)
    ensures -1 <= index < |s|
    ensures index == -1 <==> x !in s
    ensures index >= 0 ==> s[index] == x && x !in s[..index]
  {
    var i := 0;
    while i < |s|
      invariant 0 <= i <= |s|
      invariant x !in s[..i]
    {
      if s[i] == x {
        return i;
      }
      assert s[..i + 1] == s[..i] + [s[i]];
      i := i + 1;
    }
    assert s[..i] == s;
    return -1;
  }
}
