/** The toast store: the list of notifications currently on screen. */
module Toasts {

  datatype ToastType = Success | Error | Info | Warning

  /** A toast: its id, its type, how long it stays (ms), and the message of
      the component it renders. */
  datatype Toast = Toast(id: string, kind: ToastType, timeout: int, message: string)

  const DEFAULT_TIMEOUT: int := 10000

  /** The toasts of ts whose id is not `id`, in their original order. */
  function WithoutId(ts: seq<Toast>, id: string): (r: seq<Toast>)
    ensures |r| <= |ts|
  {
    if ts == [] then []
    else Survivor(ts[0], id) + WithoutId(ts[1..], id)
  }

  /** What survives of one toast, as a list of at most one. */
  function Survivor(t: Toast, id: string): seq<Toast>
  {
    if t.id == id then [] else [t]
  }

  /** The filtered list holds exactly the toasts of ts whose id differs. */
  lemma {:induction false} WithoutIdMembers(ts: seq<Toast>, id: string)
    ensures forall t :: t in WithoutId(ts, id) <==> t in ts && t.id != id
  {
    if ts != [] {
      WithoutIdMembers(ts[1..], id);
      assert ts == [ts[0]] + ts[1..];
      forall t ensures t in WithoutId(ts, id) <==> t in ts && t.id != id {
        assert t in ts <==> t == ts[0] || t in ts[1..];
      }
    }
  }

  /** One step of the filter: the first toast's survivor, then the rest. */
  lemma Unfold(ts: seq<Toast>, id: string)
    requires ts != []
    ensures WithoutId(ts, id) == Survivor(ts[0], id) + WithoutId(ts[1..], id)
  {
  }

  /** Filtering distributes over concatenation: each toast that survives
      keeps its position relative to every other survivor. */
  lemma {:induction false} WithoutIdAppend(a: seq<Toast>, b: seq<Toast>, id: string)
    ensures WithoutId(a + b, id) == WithoutId(a, id) + WithoutId(b, id)
  {
    if a == [] {
      assert a + b == b;
    } else {
      var rest := a[1..] + b;
      assert a + b == [a[0]] + rest;
      Unfold(a + b, id);
      assert (a + b)[0] == a[0] && (a + b)[1..] == rest;
      WithoutIdAppend(a[1..], b, id);
      Unfold(a, id);
      var head := Survivor(a[0], id);
      assert WithoutId(a + b, id) == head + (WithoutId(a[1..], id) + WithoutId(b, id));
      assert head + (WithoutId(a[1..], id) + WithoutId(b, id)) == (head + WithoutId(a[1..], id)) + WithoutId(b, id);
    }
  }

  /** Removing an id that no toast carries leaves the list as it was. */
  lemma {:induction false} WithoutAbsentId(ts: seq<Toast>, id: string)
    requires forall t :: t in ts ==> t.id != id
    ensures WithoutId(ts, id) == ts
  {
    if ts != [] {
      WithoutAbsentId(ts[1..], id);
    }
  }

  /** Removing the same id twice is removing it once. */
  lemma {:induction false} WithoutIdIdempotent(ts: seq<Toast>, id: string)
    ensures WithoutId(WithoutId(ts, id), id) == WithoutId(ts, id)
  {
    WithoutIdMembers(ts, id);
    WithoutAbsentId(WithoutId(ts, id), id);
  }

  /** Adding a toast under a fresh id and removing that id restores the list. */
  lemma {:induction false} AddThenRemove(ts: seq<Toast>, t: Toast)
    requires forall u :: u in ts ==> u.id != t.id
    ensures WithoutId(ts + [t], t.id) == ts
  {
    WithoutIdAppend(ts, [t], t.id);
    WithoutAbsentId(ts, t.id);
    assert WithoutId([t], t.id) == [];
  }

  class ToastStore {
    var toasts: seq<Toast>

    constructor ()
      ensures toasts == []
    {
      toasts := [];
    }

    /** `addToast`: the id is the caller's (the store draws it at random). */
    method AddToast(id: string, message: string, kind: ToastType := Info, timeout: int := DEFAULT_TIMEOUT)
      modifies this
      ensures toasts == old(toasts) + [Toast(id, kind, timeout, message)]
    {
      toasts := toasts + [Toast(id, kind, timeout, message)];
    }

    /** `removeToast`: keep every toast whose id differs. */
    method RemoveToast(id: string)
      modifies this
      ensures toasts == WithoutId(old(toasts), id)
      ensures forall t :: t in toasts ==> t.id != id
    {
      WithoutIdMembers(toasts, id);
      toasts := WithoutId(toasts, id);
    }
  }
}
