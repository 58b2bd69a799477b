/** The undo history of an editor against a list with a cursor in it. */
module StateHistory {
  import opened Options

  datatype Entry = Entry(text: string, selectionStart: int, selectionEnd: int)

  datatype Status = Status(canUndo: bool, canRedo: bool)

  /** What lies before the current entry, oldest first, the entry, and what undo has left behind. */
  datatype Zipper = Zipper(past: seq<Entry>, present: Entry, future: seq<Entry>) {
    function All(): seq<Entry> { past + [present] + future }

    function StatusOf(): Status { Status(past != [], future != []) }
  }

  /** The newest entries, as many as the cap allows. */
  function Newest(entries: seq<Entry>, cap: Option<nat>): seq<Entry> {
    if cap.None? || |entries| <= cap.value then entries else entries[|entries| - cap.value..]
  }

  /** A new text is put after the current one, in place of whatever could be redone; the oldest entries go when there
      are too many. The same text only moves the selection. */
  function PushZ(z: Zipper, e: Entry, cap: Option<nat>): Zipper
    requires cap.Some? ==> cap.value >= 1
  {
    if e.text == z.present.text then z.(present := e)
    else Zipper(Newest(z.past + [z.present], if cap.None? then None else Some(cap.value - 1)), e, [])
  }

  function UndoZ(z: Zipper): Zipper
    requires z.past != []
  {
    var k := |z.past| - 1;
    Zipper(z.past[..k], z.past[k], [z.present] + z.future)
  }

  function RedoZ(z: Zipper): Zipper
    requires z.future != []
  {
    Zipper(z.past + [z.present], z.future[0], z.future[1..])
  }

  lemma {:induction false} NewestSnoc(entries: seq<Entry>, e: Entry, cap: Option<nat>)
    requires cap.Some? ==> cap.value >= 1
    ensures var newest := Newest(entries + [e], cap);
            && |newest| >= 1 && newest[|newest| - 1] == e
            && newest[..|newest| - 1] == Newest(entries, if cap.None? then None else Some(cap.value - 1))
  {
  }

  function At(entries: seq<Entry>, index: nat): Zipper
    requires index < |entries|
  {
    Zipper(entries[..index], entries[index], entries[index + 1..])
  }

  /** The entries up to the current one and a new one, as many as the cap allows, with the cursor at their end. */
  lemma PushedAt(entries: seq<Entry>, index: nat, e: Entry, cap: Option<nat>)
    requires index < |entries| && (cap.Some? ==> cap.value >= 1) && e.text != entries[index].text
    ensures var newest := Newest(entries[..index + 1] + [e], cap);
            |newest| >= 1 && Fits(|newest|, cap) && At(newest, |newest| - 1) == PushZ(At(entries, index), e, cap)
  {
    var before := entries[..index + 1];
    assert before == entries[..index] + [entries[index]];
    NewestSnoc(before, e, cap);
    var newest := Newest(before + [e], cap);
    assert newest[|newest| - 1 + 1..] == [];
  }

  predicate Fits(n: nat, cap: Option<nat>) { cap.Some? ==> n <= cap.value }

  /** No two neighbours have the same text. */
  predicate Distinct(entries: seq<Entry>) {
    forall i :: 0 <= i < |entries| - 1 ==> entries[i].text != entries[i + 1].text
  }

  class History {
    var history: seq<Entry>
    var index: int
    var lastStatus: Status
    /** The statuses the listener has been told, or is about to be. */
    var scheduled: seq<Status>
    const cap: Option<nat>

    predicate Valid()
      reads this
    {
      && 0 <= index < |history| && Fits(|history|, cap)
      && lastStatus == At(history, index).StatusOf()
      && lastStatus == if scheduled == [] then Status(false, false) else scheduled[|scheduled| - 1]
    }

    function View(): Zipper
      requires Valid()
      reads this
    {
      At(history, index)
    }

    /** No two neighbours in the history have the same text. So it is at the start and after every reset, and so it
        stays; only a list that is taken over can bring equal neighbours in. */
    predicate NeighboursDiffer()
      reads this
    {
      Distinct(history)
    }

    constructor (initial: Entry, cap: Option<nat>)
      requires cap.Some? ==> cap.value >= 1
      ensures NeighboursDiffer()
      ensures Valid() && View() == Zipper([], initial, []) && this.cap == cap
    {
      history, index, lastStatus, scheduled, this.cap := [initial], 0, Status(false, false), [], cap;
    }

    method Notify()
      requires 0 <= index < |history|
      requires lastStatus == if scheduled == [] then Status(false, false) else scheduled[|scheduled| - 1]
      modifies `lastStatus, `scheduled
      ensures lastStatus == At(history, index).StatusOf()
      ensures scheduled == if lastStatus == old(lastStatus) then old(scheduled) else old(scheduled) + [lastStatus]
    {
      var status := Status(index > 0, index < |history| - 1);
      if status != lastStatus {
        lastStatus := status;
        scheduled := scheduled + [status];
      }
    }

    method TrimToMaxEntries()
      modifies `history, `index
      ensures history == Newest(old(history), cap)
      ensures index == if Fits(|old(history)|, cap) then old(index)
                       else if old(index) <= |old(history)| - |history| then 0
                         else old(index) - (|old(history)| - |history|)
    {
      if cap.None? || |history| <= cap.value { return; }
      var overflow := |history| - cap.value;
      history := history[overflow..];
      index := if index - overflow > 0 then index - overflow else 0;
    }

    method Push(entry: Entry)
      requires Valid()
      modifies this
      ensures old(NeighboursDiffer()) ==> NeighboursDiffer()
      ensures Valid() && View() == PushZ(old(View()), entry, cap)
    {
      if entry.text != history[index].text {
        PushNew(entry);
      } else {
        Replace(entry);
      }
    }

    method PushNew(entry: Entry)
      requires Valid() && entry.text != View().present.text
      modifies this
      ensures old(NeighboursDiffer()) ==> NeighboursDiffer()
      ensures Valid() && View() == PushZ(old(View()), entry, cap)
    {
      PushedAt(history, index, entry, cap);
      PushedDistinct(history, index, entry, cap);
      Append(entry);
      Notify();
    }

    /** What could be redone makes room for the entry. */
    method Append(entry: Entry)
      requires 0 <= index < |history|
      modifies `history, `index
      ensures history == Newest(old(history[..index + 1]) + [entry], cap) && index == |history| - 1
    {
      history := history[..index + 1] + [entry];
      TrimToMaxEntries();
      index := |history| - 1;
    }

    method Replace(entry: Entry)
      requires Valid() && entry.text == View().present.text
      modifies this
      ensures old(NeighboursDiffer()) ==> NeighboursDiffer()
      ensures Valid() && View() == PushZ(old(View()), entry, cap)
    {
      ghost var before := View();
      if NeighboursDiffer() { DistinctReplaced(history, index, entry); }
      history := history[index := entry];
      assert history[..index] == before.past && history[index + 1..] == before.future;
      Notify();
    }

    /** Nothing happens, and nothing is returned, when there is nothing to undo. */
    method Undo() returns (r: Option<Entry>)
      requires Valid()
      modifies this
      ensures NeighboursDiffer() == old(NeighboursDiffer())
      ensures Valid() && (r.Some? <==> old(View()).past != []) && (r.Some? <==> old(lastStatus).canUndo)
      ensures View() == if r.Some? then UndoZ(old(View())) else old(View())
      ensures r.Some? ==> r.value == View().present
    {
      if index <= 0 { return None; }
      index := index - 1;
      Notify();
      assert [history[index + 1]] + history[index + 2..] == history[index + 1..];
      return Some(history[index]);
    }

    method Redo() returns (r: Option<Entry>)
      requires Valid()
      modifies this
      ensures NeighboursDiffer() == old(NeighboursDiffer())
      ensures Valid() && (r.Some? <==> old(View()).future != []) && (r.Some? <==> old(lastStatus).canRedo)
      ensures View() == if r.Some? then RedoZ(old(View())) else old(View())
      ensures r.Some? ==> r.value == View().present
    {
      if index >= |history| - 1 { return None; }
      index := index + 1;
      Notify();
      return Some(history[index]);
    }

    method Reset(initial: Entry)
      requires Valid() && (cap.Some? ==> cap.value >= 1)
      modifies this
      ensures Valid() && View() == Zipper([], initial, []) && NeighboursDiffer()
    {
      history, index := [initial], 0;
      Notify();
    }

    method Serialize() returns (entries: seq<Entry>, at: int)
      requires Valid()
      ensures 0 <= at < |entries| && At(entries, at) == View() && entries == history
    {
      return history, index;
    }

    /** The newest entries are taken over, but the cursor is put where it was from the oldest. */
    method Hydrate(entries: seq<Entry>, at: int, fallback: Entry)
      requires Valid()
      modifies this
      ensures Valid() && View() == HydrateZ(entries, at, fallback, cap)
      ensures NeighboursDiffer() <==> entries == [] || Distinct(Newest(entries, cap))
    {
      if entries == [] {
        Reset(fallback);
      } else {
        TakeOver(entries, at);
      }
    }

    method TakeOver(entries: seq<Entry>, at: int)
      requires Valid() && entries != []
      modifies this
      ensures Valid() && history == Newest(entries, cap) && index == Clamp(at, |history|)
    {
      history := entries;
      TrimToMaxEntries();
      index := Clamp(at, |history|);
      Notify();
    }
  }

  function Clamp(at: int, n: nat): int { var low := if at > 0 then at else 0; if low < n - 1 then low else n - 1 }

  function HydrateZ(entries: seq<Entry>, at: int, fallback: Entry, cap: Option<nat>): Zipper
    requires cap.Some? ==> cap.value >= 1
  {
    if entries == [] then Zipper([], fallback, [])
    else At(Newest(entries, cap), Clamp(at, |Newest(entries, cap)|))
  }

  // What the history promises.

  /** Undo and redo take each other back, and keep what is remembered. */
  lemma {:induction false} UndoThenRedo(z: Zipper)
    requires z.past != []
    ensures RedoZ(UndoZ(z)) == z && UndoZ(z).All() == z.All()
  {
    var k := |z.past| - 1;
    assert z.past[..k] + [z.past[k]] == z.past;
    assert ([z.present] + z.future)[1..] == z.future;
    assert z.past[..k] + [z.past[k]] + ([z.present] + z.future) == z.past + [z.present] + z.future;
  }

  lemma {:induction false} RedoThenUndo(z: Zipper)
    requires z.future != []
    ensures UndoZ(RedoZ(z)) == z && RedoZ(z).All() == z.All()
  {
    assert [z.future[0]] + z.future[1..] == z.future;
    assert (z.past + [z.present])[..|z.past|] == z.past;
    assert z.past + [z.present] + [z.future[0]] + z.future[1..] ==
           z.past + [z.present] + ([z.future[0]] + z.future[1..]);
  }

  /** Undo after a push with a new text brings back what was there, unless the cap leaves room for one entry only. */
  lemma {:induction false} UndoPush(z: Zipper, e: Entry, cap: Option<nat>)
    requires (cap.Some? ==> cap.value >= 1) && e.text != z.present.text
    ensures var w := PushZ(z, e, cap);
            && (w.past != [] <==> cap != Some(1))
            && (w.past != [] ==> UndoZ(w).present == z.present && UndoZ(w).future == [e])
            && w.future == [] && Fits(|w.All()|, cap) == Fits(|w.past| + 1, cap)
            && (Fits(|z.past| + 2, cap) ==> UndoZ(w).past == z.past)
  {
    var all := z.past + [z.present];
    assert all[|all| - 1] == z.present;
  }

  /** Neighbours stay different: a push never leaves two equal texts side by side, and undo and redo change nothing in
      what is remembered. */
  lemma {:induction false} DistinctKept(z: Zipper, e: Entry, cap: Option<nat>)
    requires (cap.Some? ==> cap.value >= 1) && Distinct(z.All())
    ensures Distinct(PushZ(z, e, cap).All())
  {
    if e.text == z.present.text {
      DistinctReplaced(z.All(), |z.past|, e);
      assert PushZ(z, e, cap).All() == z.All()[|z.past| := e];
    } else {
      var all := z.past + [z.present];
      var w := PushZ(z, e, cap);
      assert z.All()[..|all|] == all;
      DistinctSnoc(z.All(), |all| - |w.past|, |all|, e);
      assert w.All() == z.All()[|all| - |w.past|..|all|] + [e];
    }
  }

  lemma PushedDistinct(entries: seq<Entry>, index: nat, e: Entry, cap: Option<nat>)
    requires index < |entries| && (cap.Some? ==> cap.value >= 1) && e.text != entries[index].text
    ensures Distinct(entries) ==> Distinct(Newest(entries[..index + 1] + [e], cap))
  {
    if Distinct(entries) {
      var newest := Newest(entries[..index + 1] + [e], cap);
      var from := index + 2 - |newest|;
      DistinctSnoc(entries, from, index + 1, e);
      assert newest == entries[from..index + 1] + [e];
    }
  }

  lemma {:induction false} DistinctReplaced(entries: seq<Entry>, k: nat, e: Entry)
    requires Distinct(entries) && k < |entries| && e.text == entries[k].text
    ensures Distinct(entries[k := e])
  {
  }

  lemma {:induction false} DistinctSnoc(entries: seq<Entry>, from: nat, to: nat, e: Entry)
    requires Distinct(entries) && from <= to <= |entries| && (to > 0 ==> e.text != entries[to - 1].text)
    ensures Distinct(entries[from..to] + [e])
  {
    var s := entries[from..to] + [e];
    forall i | 0 <= i < |s| - 1
      ensures s[i].text != s[i + 1].text
    {
      assert s[i] == entries[from + i] && (i + 1 < to - from ==> s[i + 1] == entries[from + i + 1]);
    }
  }

  /** A serialized history comes back as it was exactly if the receiver has room for it. */
  lemma {:induction false} HydrateSerialized(z: Zipper, fallback: Entry, cap: Option<nat>)
    requires cap.Some? ==> cap.value >= 1
    ensures HydrateZ(z.All(), |z.past|, fallback, cap) == z <==> Fits(|z.All()|, cap)
  {
    var w := HydrateZ(z.All(), |z.past|, fallback, cap);
    assert z.All()[..|z.past|] == z.past && z.All()[|z.past| + 1..] == z.future;
    if !Fits(|z.All()|, cap) {
      assert |w.past| + 1 + |w.future| == cap.value;
    }
  }

  /** The cursor is put where it was, or as near to that as the entries taken over allow. */
  lemma {:induction false} HydrateCursor(entries: seq<Entry>, at: int, fallback: Entry, cap: Option<nat>)
    requires (cap.Some? ==> cap.value >= 1) && entries != []
    ensures var z := HydrateZ(entries, at, fallback, cap);
            && (at < 0 ==> z.past == []) && (at >= |z.All()| ==> z.future == [])
            && (0 <= at < |z.All()| ==> |z.past| == at)
            && z.All() == if Fits(|entries|, cap) then entries else entries[|entries| - cap.value..]
  {
    var newest := Newest(entries, cap);
    var index := Clamp(at, |newest|);
    AtIsAll(newest, index);
    CursorClamped(newest, at, index);
  }

  lemma CursorClamped(newest: seq<Entry>, at: int, index: int)
    requires newest != [] && index == Clamp(at, |newest|)
    ensures 0 <= index < |newest| && (at < 0 ==> index == 0) && (at >= |newest| ==> index == |newest| - 1)
    ensures 0 <= at < |newest| ==> index == at
  {
  }

  lemma AtIsAll(entries: seq<Entry>, index: nat)
    requires index < |entries|
    ensures At(entries, index).All() == entries && |At(entries, index).past| == index
    ensures At(entries, index).future == [] <==> index == |entries| - 1
  {
  }

  /** Taken over by a smaller history, the cursor slips to a later entry. */
  lemma {:induction false} CursorSlips(a: Entry, b: Entry, c: Entry)
    ensures HydrateZ([a, b, c], 1, a, Some(2)) == Zipper([b], c, [])
  {
  }
}
