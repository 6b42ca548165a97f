/**
 * The delivery worker (send_command_to_esp32), abstracted to the order in which
 * it takes commands off the queue: one at a time, up to the first Exit
 * sentinel, where it stops. The HTTP request and its outcome do not change
 * that order (a failed delivery is not retried). Whether the worker reaches
 * the sentinel before the process ends is not part of this model.
 */
module Dispatch {
  import opened Commands

  /** The commands the worker takes off the queue, in order, if it runs until the sentinel. */
  function BeforeExit(queue: seq<Command>): (sent: seq<Command>)
    ensures |sent| <= |queue| && sent == queue[..|sent|]
    ensures Exit !in sent
    ensures |sent| < |queue| ==> queue[|sent|] == Exit
  {
    if queue == [] || queue[0] == Exit then
      []
    else
      var rest := BeforeExit(queue[1..]);
      assert queue[..|rest| + 1] == [queue[0]] + queue[1..][..|rest|];
      [queue[0]] + rest
  }

  /** The worker loop: dequeue, stop at the sentinel, otherwise attempt delivery and go on. */
  method Deliver(queue: seq<Command>) returns (sent: seq<Command>)
    ensures sent == BeforeExit(queue)
  {
    sent := [];
    var i := 0;
    while i < |queue| && queue[i] != Exit
      invariant i <= |queue|
      invariant sent == queue[..i]
      invariant BeforeExit(queue) == sent + BeforeExit(queue[i..])
    {
      assert queue[i..][1..] == queue[i + 1..];
      assert BeforeExit(queue[i..]) == [queue[i]] + BeforeExit(queue[i + 1..]);
      assert queue[..i + 1] == queue[..i] + [queue[i]];
      sent := sent + [queue[i]];
      i := i + 1;
    }
  }

  /**
   * After shutdown on a queue without sentinel, the worker, if it reaches the sentinel,
   * takes the whole queue off in order and then the final stop.
   */
  lemma {:induction false} ShutdownOrder(queue: seq<Command>)
    requires Exit !in queue
    ensures BeforeExit(queue + [Stop, Exit]) == queue + [Stop]
  {
    if queue != [] {
      assert (queue + [Stop, Exit])[1..] == queue[1..] + [Stop, Exit];
      ShutdownOrder(queue[1..]);
    }
  }
}
