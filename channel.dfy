/** A closable, unbounded FIFO channel: one shared State, reached through a
    sender handle and a receiver handle (channel.h).

    The decisions each operation takes are first given as functions on the
    value of the shared state (SendStep, RecvStep, CloseStep); the classes
    State and Channel update that state in place and are proved against
    those functions; Run strings the steps of the two live handles together
    so that properties of whole runs (FIFO order, a single successful close,
    nothing lost across close) can be stated as lemmas. */
module Channels {

  datatype Option<T> = None | Some(value: T)

  /** The value of the shared state: the pending items, front first, and the
      closed flag. */
  datatype Shared<T> = Shared(queue: seq<T>, closed: bool)

  /** What an operation sees of the handle it is called on: whether the
      handle still refers to a state (a moved-from handle does not) and the
      role it was created with. */
  datatype Handle = Handle(hasState: bool, isSender: bool)

  /** The predicate a receiver waits for on the condition variable. Only a
      live receiver waits; on any other handle recv returns at once. */
  predicate RecvReady<T>(h: Handle, s: Shared<T>): (ready: bool)
    ensures !h.hasState || h.isSender ==> ready
    ensures ready && h.hasState && !h.isSender && |s.queue| == 0 ==> s.closed
  {
    h.hasState && !h.isSender ==> |s.queue| > 0 || s.closed
  }

  /** send: only a live sender on an open channel enqueues, at the tail. */
  function SendStep<T>(h: Handle, s: Shared<T>, item: T): (r: (bool, Shared<T>))
    ensures r.0 <==> h.isSender && h.hasState && !s.closed
    ensures r.1.closed == s.closed
    ensures r.1.queue == if r.0 then s.queue + [item] else s.queue
  {
    if !h.isSender || !h.hasState then (false, s)
    else if s.closed then (false, s)
    else (true, Shared(s.queue + [item], s.closed))
  }

  /** recv, once the wait is over: a live receiver takes the front item; it
      gets nothing only when the queue is drained and the channel closed. */
  function RecvStep<T>(h: Handle, s: Shared<T>): (r: (Option<T>, Shared<T>))
    requires RecvReady(h, s)
    ensures r.0.Some? <==> h.hasState && !h.isSender && |s.queue| > 0
    ensures r.0.Some? ==> s.queue == [r.0.value] + r.1.queue && r.1.closed == s.closed
    ensures r.0.None? ==> r.1 == s
    ensures r.0.None? && h.hasState && !h.isSender ==> |s.queue| == 0 && s.closed
  {
    if h.isSender || !h.hasState then (None, s)
    else if |s.queue| == 0 then (None, s)
    else (Some(s.queue[0]), Shared(s.queue[1..], s.closed))
  }

  /** close: either live handle closes an open channel, and only once; the
      pending items stay where they are. */
  function CloseStep<T>(h: Handle, s: Shared<T>): (r: (bool, Shared<T>))
    ensures r.0 <==> h.hasState && !s.closed
    ensures r.1.queue == s.queue
    ensures r.1.closed <==> s.closed || h.hasState
  {
    if !h.hasState then (false, s)
    else if s.closed then (false, s)
    else (true, Shared(s.queue, true))
  }

  /** The state both handles share. */
  class State<T> {
    var queue: seq<T>
    var closed: bool

    constructor ()
      ensures queue == [] && !closed
    {
      queue := [];
      closed := false;
    }

    function View(): Shared<T>
      reads this
    {
      Shared(queue, closed)
    }
  }

  /** One endpoint. A null state stands for a handle that has been moved
      from or destroyed. */
  class Channel<T> {
    var state: State?<T>
    var isSender: bool

    function Role(): Handle
      reads this
    {
      Handle(state != null, isSender)
    }

    /** The constructor make_channel uses. */
    constructor (state: State?<T>, isSender: bool)
      ensures this.state == state && this.isSender == isSender
    {
      this.state := state;
      this.isSender := isSender;
    }

    method Send(item: T) returns (ok: bool)
      modifies state
      ensures state == null ==> !ok
      ensures state != null ==> (ok, state.View()) == SendStep(Role(), old(state.View()), item)
    {
      if !isSender || state == null {
        return false;
      }
      if state.closed {
        return false;
      }
      state.queue := state.queue + [item];
      return true;
    }

    /** The requires is the condition recv blocks on until the other
        endpoint sends or closes. */
    method Recv() returns (x: Option<T>)
      requires RecvReady(Role(), if state == null then Shared([], true) else state.View())
      modifies state
      ensures state == null ==> x == None
      ensures state != null ==> (x, state.View()) == RecvStep(Role(), old(state.View()))
    {
      if isSender || state == null {
        return None;
      }
      if |state.queue| == 0 {
        return None;
      }
      x := Some(state.queue[0]);
      state.queue := state.queue[1..];
    }

    method Close() returns (ok: bool)
      modifies state
      ensures state == null ==> !ok
      ensures state != null ==> (ok, state.View()) == CloseStep(Role(), old(state.View()))
    {
      if state == null {
        return false;
      }
      if state.closed {
        return false;
      }
      state.closed := true;
      return true;
    }

    /** The destructor: close through this handle, then let go of the state. */
    method Drop()
      modifies this, state
      ensures state == null && isSender == old(isSender)
      ensures old(state) != null ==> old(state).View() == CloseStep(old(Role()), old(state.View())).1
    {
      var _ := Close();
      state := null;
    }
  }

  /** make_channel: one fresh, open, empty state and the two handles on it. */
  method MakeChannel<T>() returns (sender: Channel<T>, receiver: Channel<T>)
    ensures fresh(sender) && fresh(receiver) && sender != receiver
    ensures sender.state != null && fresh(sender.state) && receiver.state == sender.state
    ensures sender.isSender && !receiver.isSender
    ensures sender.state.View() == Shared([], false)
  {
    var ptr := new State<T>();
    sender := new Channel(ptr, true);
    receiver := new Channel(ptr, false);
  }

  // ---------------------------------------------------------------------
  // Runs of operations by the two live handles of one channel.

  /** An operation by the sender (SendOp), the receiver (RecvOp), or either
      of them (CloseOp). */
  datatype Op<T> = SendOp(item: T) | RecvOp | CloseOp(bySender: bool)

  /** What an operation returned. */
  datatype Outcome<T> = Sent(ok: bool) | Received(got: Option<T>) | CloseReturned(ok: bool)

  const SenderEnd := Handle(true, true)
  const ReceiverEnd := Handle(true, false)

  predicate ClosedIt<T>(o: Outcome<T>)
  {
    o.CloseReturned? && o.ok
  }

  /** The item an operation added to the queue: that of a send that succeeded. */
  function Pushed<T>(op: Op<T>, o: Outcome<T>): seq<T>
  {
    if op.SendOp? && o.Sent? && o.ok then [op.item] else []
  }

  /** The item an operation took from the queue: that of a recv that got one. */
  function Popped<T>(o: Outcome<T>): seq<T>
  {
    if o.Received? && o.got.Some? then [o.got.value] else []
  }

  /** One operation on the state; None when it is a recv that would wait. */
  function Step<T>(s: Shared<T>, op: Op<T>): (r: Option<(Outcome<T>, Shared<T>)>)
    ensures r.None? <==> op.RecvOp? && |s.queue| == 0 && !s.closed
    ensures r.Some? ==> (r.value.1.closed <==> s.closed || ClosedIt(r.value.0))
    ensures r.Some? && ClosedIt(r.value.0) ==> !s.closed
  {
    match op
    case SendOp(x) =>
      var r := SendStep(SenderEnd, s, x);
      Some((Sent(r.0), r.1))
    case RecvOp =>
      if RecvReady(ReceiverEnd, s) then
        var r := RecvStep(ReceiverEnd, s);
        Some((Received(r.0), r.1))
      else None
    case CloseOp(bySender) =>
      var r := CloseStep(Handle(true, bySender), s);
      Some((CloseReturned(r.0), r.1))
  }

  /** The outcomes and final state of a run, or None when some recv in it
      would wait for ever. */
  function Run<T>(s: Shared<T>, ops: seq<Op<T>>): (r: Option<(seq<Outcome<T>>, Shared<T>)>)
    ensures r.Some? ==> |r.value.0| == |ops|
    ensures r.Some? && s.closed ==> r.value.1.closed
    decreases |ops|
  {
    if |ops| == 0 then Some(([], s))
    else
      match Step(s, ops[0])
      case None => None
      case Some((o, t)) =>
        match Run(t, ops[1..])
        case None => None
        case Some((os, u)) => Some(([o] + os, u))
  }

  /** Continue a run with more operations. */
  function Then<T>(r: Option<(seq<Outcome<T>>, Shared<T>)>, ops: seq<Op<T>>): Option<(seq<Outcome<T>>, Shared<T>)>
  {
    match r
    case None => None
    case Some((os, t)) =>
      match Run(t, ops)
      case None => None
      case Some((os', u)) => Some((os + os', u))
  }

  function Sends<T>(xs: seq<T>): (ops: seq<Op<T>>)
    ensures |ops| == |xs|
    ensures forall i :: 0 <= i < |xs| ==> ops[i] == SendOp(xs[i])
  {
    if |xs| == 0 then [] else [SendOp(xs[0])] + Sends(xs[1..])
  }

  function Recvs<T>(n: nat): (ops: seq<Op<T>>)
    ensures |ops| == n
    ensures forall i :: 0 <= i < n ==> ops[i] == RecvOp
  {
    if n == 0 then [] else [RecvOp] + Recvs(n - 1)
  }

  function SendResults<T>(ok: bool, n: nat): (os: seq<Outcome<T>>)
    ensures |os| == n
    ensures forall i :: 0 <= i < n ==> os[i] == Sent(ok)
  {
    if n == 0 then [] else [Sent(ok)] + SendResults(ok, n - 1)
  }

  function Deliveries<T>(xs: seq<T>): (os: seq<Outcome<T>>)
    ensures |os| == |xs|
    ensures forall i :: 0 <= i < |xs| ==> os[i] == Received(Some(xs[i]))
  {
    if |xs| == 0 then [] else [Received(Some(xs[0]))] + Deliveries(xs[1..])
  }

  /** The items of the sends that succeeded in a run, in call order. */
  function SentItems<T>(ops: seq<Op<T>>, os: seq<Outcome<T>>): seq<T>
    requires |ops| == |os|
  {
    if |ops| == 0 then [] else Pushed(ops[0], os[0]) + SentItems(ops[1..], os[1..])
  }

  /** The items the receiver got in a run, in call order. */
  function Got<T>(os: seq<Outcome<T>>): seq<T>
  {
    if |os| == 0 then [] else Popped(os[0]) + Got(os[1..])
  }

  function CloseSuccesses<T>(os: seq<Outcome<T>>): nat
  {
    if |os| == 0 then 0
    else (if ClosedIt(os[0]) then 1 else 0) + CloseSuccesses(os[1..])
  }

  /** Running a + b is running a, then b from where a left off. */
  lemma {:induction false} RunAppend<T>(s: Shared<T>, a: seq<Op<T>>, b: seq<Op<T>>)
    ensures Run(s, a + b) == Then(Run(s, a), b)
    decreases |a|
  {
    if |a| == 0 {
      assert a + b == b;
      match Run(s, b)
      case None =>
      case Some((os, u)) => assert [] + os == os;
    } else {
      assert (a + b)[0] == a[0];
      assert (a + b)[1..] == a[1..] + b;
      match Step(s, a[0])
      case None =>
      case Some((o, t)) =>
        RunAppend(t, a[1..], b);
        match Run(t, a[1..])
        case None =>
        case Some((os, u)) =>
          match Run(u, b)
          case None =>
          case Some((os', v)) => assert [o] + (os + os') == ([o] + os) + os';
    }
  }

  /** A run of at least one operation is its first step followed by the rest. */
  lemma RunCons<T>(s: Shared<T>, ops: seq<Op<T>>)
    requires |ops| > 0 && Step(s, ops[0]).Some?
    ensures Run(s, ops) == Then(Some(([Step(s, ops[0]).value.0], Step(s, ops[0]).value.1)), ops[1..])
  {
  }

  /** On an open channel every send succeeds and the items join the tail of
      the queue in the order they were sent. */
  lemma {:induction false} SendsAppendInOrder<T>(s: Shared<T>, xs: seq<T>)
    requires !s.closed
    ensures Run(s, Sends(xs)) == Some((SendResults(true, |xs|), Shared(s.queue + xs, false)))
    decreases |xs|
  {
    if |xs| == 0 {
      assert s.queue + xs == s.queue;
    } else {
      var t := Shared(s.queue + [xs[0]], false);
      assert t.queue + xs[1..] == s.queue + xs by {
        assert xs == [xs[0]] + xs[1..];
      }
      SendsAppendInOrder(t, xs[1..]);
      RunCons(s, Sends(xs));
    }
  }

  /** On a closed channel every send fails and nothing changes. */
  lemma {:induction false} SendsRejectedWhenClosed<T>(s: Shared<T>, xs: seq<T>)
    requires s.closed
    ensures Run(s, Sends(xs)) == Some((SendResults(false, |xs|), s))
    decreases |xs|
  {
    if |xs| > 0 {
      assert Sends(xs)[1..] == Sends(xs[1..]);
      SendsRejectedWhenClosed(s, xs[1..]);
    }
  }

  /** n receives take the first n pending items, front first, whether or
      not the channel is closed. */
  lemma {:induction false} RecvsTakeFront<T>(s: Shared<T>, n: nat)
    requires n <= |s.queue|
    ensures Run(s, Recvs<T>(n)) == Some((Deliveries(s.queue[..n]), Shared(s.queue[n..], s.closed)))
    decreases n
  {
    if n > 0 {
      var t := Shared(s.queue[1..], s.closed);
      assert Recvs<T>(n)[1..] == Recvs<T>(n - 1);
      RecvsTakeFront(t, n - 1);
      assert s.queue[..n][1..] == t.queue[..n - 1];
      assert t.queue[n - 1..] == s.queue[n..];
    }
  }

  /** A run of one operation is that operation's step. */
  lemma RunOne<T>(s: Shared<T>, op: Op<T>)
    requires Step(s, op).Some?
    ensures Run(s, [op]) == Some(([Step(s, op).value.0], Step(s, op).value.1))
  {
    var ops: seq<Op<T>> := [op];
    assert ops[1..] == [];
    RunCons(s, ops);
    assert Run(Step(s, op).value.1, ops[1..]) == Some(([], Step(s, op).value.1));
    assert [Step(s, op).value.0] + [] == [Step(s, op).value.0];
  }

  /** Nothing is lost across close: after close every pending item is still
      delivered, in order, and then recv reports the end of the stream. */
  lemma {:induction false} DrainAfterClose<T>(s: Shared<T>)
    requires s.closed
    ensures Run(s, Recvs<T>(|s.queue|) + [RecvOp]) ==
            Some((Deliveries(s.queue) + [Received(None)], Shared([], true)))
  {
    var t: Shared<T> := Shared([], true);
    assert s.queue[..|s.queue|] == s.queue && s.queue[|s.queue|..] == [];
    RecvsTakeFront(s, |s.queue|);
    RunOne(t, RecvOp);
    RunAppend(s, Recvs<T>(|s.queue|), [RecvOp]);
  }

  /** The whole life of a channel as the demonstration program uses it:
      send x1..xn on a fresh channel, close from the sender's side, and
      receive until the end of the stream. */
  lemma {:induction false} SendCloseDrain<T>(xs: seq<T>)
    ensures Run(Shared([], false), Sends(xs) + [CloseOp(true)] + (Recvs<T>(|xs|) + [RecvOp])) ==
            Some((SendResults(true, |xs|) + [CloseReturned(true)] + (Deliveries(xs) + [Received(None)]), Shared([], true)))
  {
    var s0, s1, s2 := Shared([], false), Shared(xs, false), Shared(xs, true);
    var sending, closing, draining := Sends(xs), [CloseOp(true)], Recvs<T>(|xs|) + [RecvOp];
    assert Run(s0, sending) == Some((SendResults(true, |xs|), s1)) by {
      SendsAppendInOrder(s0, xs);
      assert s0.queue + xs == xs;
    }
    assert Run(s0, sending + closing) == Some((SendResults(true, |xs|) + [CloseReturned(true)], s2)) by {
      RunOne(s1, CloseOp(true));
      RunAppend(s0, sending, closing);
    }
    assert Run(s2, draining) == Some((Deliveries(xs) + [Received(None)], Shared([], true))) by {
      DrainAfterClose(s2);
    }
    RunAppend(s0, sending + closing, draining);
  }

  /** Once closed, a channel stays closed, and no send and no close succeeds
      any more. */
  lemma {:induction false} ClosedIsTerminal<T>(s: Shared<T>, ops: seq<Op<T>>)
    requires s.closed && Run(s, ops).Some?
    ensures Run(s, ops).value.1.closed
    ensures forall j :: 0 <= j < |ops| ==> Run(s, ops).value.0[j] != Sent(true)
    ensures CloseSuccesses(Run(s, ops).value.0) == 0
    decreases |ops|
  {
    if |ops| > 0 {
      var (o, t) := Step(s, ops[0]).value;
      ClosedIsTerminal(t, ops[1..]);
    }
  }

  /** close succeeds exactly once over any run that closes an open channel,
      and never over a run that does not. */
  lemma {:induction false} CloseSucceedsOnce<T>(s: Shared<T>, ops: seq<Op<T>>)
    requires Run(s, ops).Some?
    ensures CloseSuccesses(Run(s, ops).value.0) == if !s.closed && Run(s, ops).value.1.closed then 1 else 0
    decreases |ops|
  {
    if |ops| > 0 {
      var (o, t) := Step(s, ops[0]).value;
      CloseSucceedsOnce(t, ops[1..]);
    }
  }

  /** A send that comes after a successful close in the same run fails. */
  lemma {:induction false} NoSendAfterClose<T>(s: Shared<T>, ops: seq<Op<T>>, i: nat, j: nat)
    requires Run(s, ops).Some?
    requires i < j < |ops| && ClosedIt(Run(s, ops).value.0[i])
    ensures Run(s, ops).value.0[j] != Sent(true)
    decreases |ops|
  {
    var (o, t) := Step(s, ops[0]).value;
    if i == 0 {
      ClosedIsTerminal(t, ops[1..]);
      assert Run(s, ops).value.0[j] == Run(t, ops[1..]).value.0[j - 1];
    } else {
      NoSendAfterClose(t, ops[1..], i - 1, j - 1);
    }
  }

  /** FIFO order over any run, whatever the interleaving of sends and
      receives: what the receiver got, followed by what is still pending,
      is what was pending at the start followed by every item whose send
      succeeded, in the order of the sends. So the receiver gets a prefix
      of that sequence, and all of it once the queue is drained. */
  lemma {:induction false} Fifo<T>(s: Shared<T>, ops: seq<Op<T>>)
    requires Run(s, ops).Some?
    ensures Got(Run(s, ops).value.0) + Run(s, ops).value.1.queue ==
            s.queue + SentItems(ops, Run(s, ops).value.0)
    decreases |ops|
  {
    if |ops| > 0 {
      var o, t, os', u := RunFirst(s, ops);
      StepMovesQueue(s, ops[0]);
      Fifo(t, ops[1..]);
      GotAndSentCons(ops, o, os');
      Regroup(Popped(o), Got(os'), u.queue, t.queue, SentItems(ops[1..], os'), s.queue, Pushed(ops[0], o));
    }
  }

  /** The sequence algebra of one step of Fifo. */
  lemma Regroup<T>(popped: seq<T>, got: seq<T>, rest: seq<T>, mid: seq<T>, sent: seq<T>, start: seq<T>, pushed: seq<T>)
    requires got + rest == mid + sent
    requires start + pushed == popped + mid
    ensures (popped + got) + rest == start + (pushed + sent)
  {
    calc {
      (popped + got) + rest;
      popped + (got + rest);
      (popped + mid) + sent;
      start + (pushed + sent);
    }
  }

  /** One step adds to the tail what a successful send pushed and removes
      from the front what a recv popped. */
  lemma StepMovesQueue<T>(s: Shared<T>, op: Op<T>)
    requires Step(s, op).Some?
    ensures s.queue + Pushed(op, Step(s, op).value.0) == Popped(Step(s, op).value.0) + Step(s, op).value.1.queue
  {
  }

  /** A completed run splits into its first step and the run of the rest. */
  lemma RunFirst<T>(s: Shared<T>, ops: seq<Op<T>>) returns (o: Outcome<T>, t: Shared<T>, os': seq<Outcome<T>>, u: Shared<T>)
    requires |ops| > 0 && Run(s, ops).Some?
    ensures Step(s, ops[0]) == Some((o, t)) && Run(t, ops[1..]) == Some((os', u))
    ensures Run(s, ops) == Some(([o] + os', u))
  {
    o, t := Step(s, ops[0]).value.0, Step(s, ops[0]).value.1;
    os', u := Run(t, ops[1..]).value.0, Run(t, ops[1..]).value.1;
  }

  lemma GotAndSentCons<T>(ops: seq<Op<T>>, o: Outcome<T>, os: seq<Outcome<T>>)
    requires |ops| == |os| + 1
    ensures Got([o] + os) == Popped(o) + Got(os)
    ensures SentItems(ops, [o] + os) == Pushed(ops[0], o) + SentItems(ops[1..], os)
  {
  }

  /** The notifications of send and close: after a successful send, or a
      close through either live handle, a receiver waiting on the channel
      can go on. */
  lemma WakesReceiver<T>(h: Handle, s: Shared<T>, item: T)
    ensures SendStep(h, s, item).0 ==> RecvReady(ReceiverEnd, SendStep(h, s, item).1)
    ensures h.hasState ==> RecvReady(ReceiverEnd, CloseStep(h, s).1)
  {
  }
}
