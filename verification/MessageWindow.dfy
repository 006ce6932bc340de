/** The sliding window of recent messages, grouped by view. */
module MessageWindows {
  import opened Orders
  import opened Quorums

  datatype Window = Window(messages: seq<seq<HotStuffMessage>>, lowest: nat)

  /** The messages kept for a view. */
  function Slot(w: Window, view: nat): seq<HotStuffMessage> {
    if w.lowest <= view < w.lowest + |w.messages| then w.messages[view - w.lowest] else []
  }

  // ---------- the window refines a log ----------

  datatype WindowOp = PushOp(m: HotStuffMessage) | PruneOp(view: nat)

  /** All messages ever pushed for a view, in arrival order. */
  function Pushed(ops: seq<WindowOp>, view: nat): seq<HotStuffMessage> {
    if ops == [] then []
    else
      var last := ops[|ops| - 1];
      Pushed(ops[..|ops| - 1], view) + if last.PushOp? && last.m.view == view then [last.m] else []
  }

  /** The highest view pruned to so far, starting from `start`. */
  function PrunedTo(ops: seq<WindowOp>, start: nat): nat {
    if ops == [] then start
    else
      var low, last := PrunedTo(ops[..|ops| - 1], start), ops[|ops| - 1];
      if last.PruneOp? && last.view > low then last.view else low
  }

  /** The window holds exactly the log of every view that is not pruned. */
  ghost predicate Refines(w: Window, ops: seq<WindowOp>, start: nat) {
    && w.lowest == PrunedTo(ops, start)
    && forall view :: w.lowest <= view ==> Slot(w, view) == Pushed(ops, view)
  }

  function New(start: nat): Window { Window([], start) }

  /** What a push does to the window, view by view. */
  ghost predicate PushNext(w: Window, m: HotStuffMessage, w': Window, ok: bool) {
    && ok == (w.lowest <= m.view) && w'.lowest == w.lowest
    && (!ok ==> w' == w)
    && forall view: nat :: Slot(w', view) == Slot(w, view) + if ok && view == m.view then [m] else []
  }

  ghost predicate PruneNext(w: Window, v: nat, w': Window) {
    && w'.lowest == (if w.lowest < v then v else w.lowest)
    && forall view: nat :: w'.lowest <= view ==> Slot(w', view) == Slot(w, view)
  }

  ghost predicate OpNext(w: Window, op: WindowOp, w': Window) {
    match op
    case PushOp(m) => PushNext(w, m, w', w.lowest <= m.view)
    case PruneOp(v) => PruneNext(w, v, w')
  }

  lemma {:induction false} OpRefines(w: Window, op: WindowOp, w': Window, ops: seq<WindowOp>, start: nat)
    requires Refines(w, ops, start) && OpNext(w, op, w')
    ensures Refines(w', ops + [op], start)
  {
    assert (ops + [op])[..|ops|] == ops;
  }

  /** After any sequence of pushes and prunes the window is the log of the views from its
      lowest view on. */
  lemma {:induction false} WindowRefinesLog(ws: seq<Window>, ops: seq<WindowOp>, start: nat, k: nat)
    requires |ws| == |ops| + 1 && ws[0] == New(start) && k <= |ops|
    requires forall i :: 0 <= i < |ops| ==> OpNext(ws[i], ops[i], ws[i + 1])
    ensures Refines(ws[k], ops[..k], start)
  {
    if k > 0 {
      WindowRefinesLog(ws, ops, start, k - 1);
      OpRefines(ws[k - 1], ops[k - 1], ws[k], ops[..k - 1], start);
      assert ops[..k] == ops[..k - 1] + [ops[k - 1]];
    }
  }

  /** In particular all messages kept for a view are of that view. */
  lemma {:induction false} PushedView(ops: seq<WindowOp>, view: nat)
    ensures forall i :: 0 <= i < |Pushed(ops, view)| ==> Pushed(ops, view)[i].view == view
  {
    if ops != [] {
      PushedView(ops[..|ops| - 1], view);
    }
  }

  /** So the certificate for a view is built from votes of that view only. */
  lemma {:induction false} SlotHasOneView(w: Window, ops: seq<WindowOp>, start: nat, view: nat)
    requires Refines(w, ops, start) && w.lowest <= view
    ensures forall i :: 0 <= i < |Slot(w, view)| ==> Slot(w, view)[i].view == view
  {
    PushedView(ops, view);
    assert Slot(w, view) == Pushed(ops, view);
  }

  // ---------- the window object ----------

  class MessageWindow {
    var messages: seq<seq<HotStuffMessage>>
    var lowest: nat

    function State(): Window
      reads this
    {
      Window(messages, lowest)
    }

    constructor (view: nat)
      ensures State() == New(view)
    {
      messages, lowest := [], view;
    }

    method PruneBeforeView(view: nat)
      modifies this
      ensures PruneNext(old(State()), view, State())
    {
      if view < lowest {
        return;
      }
      if view > lowest + |messages| {
        messages := [];
        lowest := view;
        return;
      }
      var remove := view - lowest;
      messages := messages[remove..];
      lowest := view;
    }

    method Push(m: HotStuffMessage) returns (ok: bool)
      modifies this
      ensures PushNext(old(State()), m, State(), ok)
    {
      if m.view < lowest {
        return false;
      }
      var index := m.view - lowest;
      if index < |messages| {
        messages := messages[index := messages[index] + [m]];
      } else {
        while index > |messages|
          invariant |old(messages)| <= |messages| <= index && messages[..|old(messages)|] == old(messages)
          invariant forall i :: |old(messages)| <= i < |messages| ==> messages[i] == []
          invariant lowest == old(lowest)
        {
          messages := messages + [[]];
        }
        ghost var padded := messages;
        messages := messages[..index] + [[m]] + messages[index..];
        assert messages == padded + [[m]];
        assert forall i :: 0 <= i < |old(messages)| ==> messages[i] == padded[..|old(messages)|][i] == old(messages)[i];
      }
      ok := true;
    }

    /** Nothing for views outside the window, else the view's messages. */
    method GetMessagesForView(view: nat) returns (r: Option<seq<HotStuffMessage>>)
      ensures r == if lowest <= view < lowest + |messages| then Some(Slot(State(), view)) else None
    {
      if view < lowest {
        return None;
      }
      var highest := lowest + |messages|;
      if view > highest {
        return None;
      }
      var index := view - lowest;
      r := if index < |messages| then Some(messages[index]) else None;
    }
  }

  // ---------- iteration ----------

  function Concat(ss: seq<seq<HotStuffMessage>>): seq<HotStuffMessage> {
    if ss == [] then [] else ss[0] + Concat(ss[1..])
  }

  class MessageWindowIter {
    var outer: seq<seq<HotStuffMessage>>
    var inner: Option<seq<HotStuffMessage>>

    /** What the iterator has still to visit. */
    function Ahead(): seq<HotStuffMessage>
      reads this
    {
      (if inner == None then [] else inner.value) + Concat(outer)
    }

    constructor (w: Window)
      ensures Ahead() == Concat(w.messages)
    {
      if w.messages == [] {
        outer, inner := [], None;
      } else {
        outer, inner := w.messages[1..], Some(w.messages[0]);
      }
    }

    /** The next message; nothing exactly at the end. */
    method Next() returns (m: Option<HotStuffMessage>)
      modifies this
      ensures m == None <==> old(Ahead()) == []
      ensures m != None ==> old(Ahead()) == [m.value] + Ahead()
      ensures m == None ==> Ahead() == []
    {
      while true
        invariant Ahead() == old(Ahead())
        decreases |outer|, inner != None
      {
        if inner != None && inner.value != [] {
          m := Some(inner.value[0]);
          inner := Some(inner.value[1..]);
          return;
        }
        if outer == [] {
          inner := None;
          return None;
        }
        inner := Some(outer[0]);
        outer := outer[1..];
      }
    }
  }

  /** Iterating visits the messages of all views, view after view. */
  method Collect(w: Window) returns (r: seq<HotStuffMessage>)
    ensures r == Concat(w.messages)
  {
    var it := new MessageWindowIter(w);
    r := [];
    var m := it.Next();
    while m != None
      invariant m != None ==> r + [m.value] + it.Ahead() == Concat(w.messages)
      invariant m == None ==> r == Concat(w.messages)
      decreases |it.Ahead()|, m != None
    {
      ghost var ahead := it.Ahead();
      r := r + [m.value];
      m := it.Next();
      assert m != None ==> ahead == [m.value] + it.Ahead();
    }
  }
}
