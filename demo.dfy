/** Clients of the channel that use only the contracts of Channels: the
    demonstration program's producer/consumer run, with the two threads'
    operations put one after the other, and close called from both ends. */
module Demo {
  import opened Channels

  /** The producer sends every item and drops its handle; the consumer then
      receives until recv reports the end of the stream, and finally drops
      its own handle. The consumer gets exactly the items sent, in order. */
  method Stream<T>(xs: seq<T>) returns (received: seq<T>)
    ensures received == xs
  {
    var tx, rx := MakeChannel<T>();
    var st := tx.state;
    var i := 0;
    while i < |xs|
      invariant 0 <= i <= |xs|
      invariant tx.state == st && tx.isSender && rx.state == st && !rx.isSender
      invariant st.queue == xs[..i] && !st.closed
    {
      var _ := tx.Send(xs[i]);
      i := i + 1;
    }
    tx.Drop();

    received := [];
    var done := false;
    while !done
      invariant rx.state == st && !rx.isSender && st.closed
      invariant received + st.queue == xs
      invariant done ==> |st.queue| == 0
      decreases |st.queue|, !done
    {
      var x := rx.Recv();
      match x
      case Some(v) =>
        received := received + [v];
      case None =>
        done := true;
    }
    rx.Drop();
  }

  /** Two calls of close on one channel, the first through the sender or
      the receiver as chosen and the second through the other handle:
      only the first succeeds, and a send afterwards is refused. */
  method CloseFromBothEnds<T>(senderFirst: bool, item: T) returns (first: bool, second: bool, sent: bool)
    ensures first && !second && !sent
  {
    var tx, rx := MakeChannel<T>();
    if senderFirst {
      first := tx.Close();
      second := rx.Close();
    } else {
      first := rx.Close();
      second := tx.Close();
    }
    sent := tx.Send(item);
  }
}
