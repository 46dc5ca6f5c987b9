/** The promises are about something: a run in which a submitted launch ends up owned, and one in which an abort between
    the publication and the worker's scan makes it ABORTED. */
module Reachable {
  import opened Wrappers
  import opened Kernel
  import opened Launch
  import opened Construct
  import opened Protocol

  const INPUTS := Inputs(false, false, false, true)
  const GOOD := WorkAnswers(None, Opened, Cloned, 0)
  const REFUSED := Answers(ReadBytes(8, 4, 2), Delivered, Exited(ByExit, 127))
  const EOF := Answers(ReadEof, Delivered, StillRunning)

  lemma {:induction false} Extend(w: World, es: seq<Event>, e: Event)
    requires Legal(w, es) && Enabled(After(w, es), e)
    ensures Legal(w, es + [e]) && After(w, es + [e]) == Apply(After(w, es), e)
    decreases |es|
  {
    hide Enabled, Apply;
    if es == [] {
      assert [] + [e] == [e] && [e][1..] == [];
    } else {
      assert (es + [e])[1..] == es[1..] + [e];
      Extend(Apply(w, es[0]), es[1..], e);
    }
  }

  ghost predicate Tickets(w: World, stop: bool, phase: Phase) {
    && |w.slots| == SLOTS && w.lock == Unlocked && !w.broken && w.next == 0
    && |w.tickets| == 1
       && w.tickets[0] == NEW_OWNER.(slot := 1, generation := 1, home := 1, asked := INPUTS, stopRequested := stop,
                                     cancelled := stop)
    && w.slots[0].phase == phase && w.slots[0].owner == Some(0) && w.slots[0].generation == 1
    && w.slots[0].inputs == Some(INPUTS) && w.slots[0].stop == stop
  }

  /** One ticket, submitted through the first slot, its post made. */
  lemma Submitted() returns (es: seq<Event>)
    ensures Legal(INIT, es)
    ensures var w := After(INIT, es);
            Tickets(w, false, Queued) && w.worker == Waiting && w.sem == 1 && w.slots[0].native == FRESH_NATIVE
  {
    es := [];
    assert FirstFree(INIT.slots) == 0;
    Extend(INIT, es, SubmitFill(INPUTS));
    es := es + [SubmitFill(INPUTS)];
    var a := After(INIT, es);
    assert a == Fill(INIT, INPUTS);
    Extend(INIT, es, SubmitPublish);
    es := es + [SubmitPublish];
    Extend(INIT, es, SubmitPost);
    es := es + [SubmitPost];
  }

  lemma Claimed(stop: bool, es0: seq<Event>) returns (es: seq<Event>)
    requires Legal(INIT, es0)
    requires var w := After(INIT, es0);
             Tickets(w, stop, Queued) && w.worker == Waiting && w.sem == 1 && w.slots[0].native == FRESH_NATIVE
    ensures Legal(INIT, es)
    ensures var w := After(INIT, es);
            Tickets(w, stop, Working) && w.worker == Busy(0, Snapshot, NO_KIT) && w.slots[0].native == FRESH_NATIVE
  {
    hide Legal, After;
    es := es0;
    Extend(INIT, es, WorkerWake);
    es := es + [WorkerWake];
    assert After(INIT, es).worker == Scanning(0);
    Extend(INIT, es, WorkerScan);
    es := es + [WorkerScan];
  }

  ghost predicate At(w: World, stop: bool, stage: Stage) {
    Tickets(w, stop, Working) && w.worker.Busy? && w.worker.slot == 0 && w.worker.stage == stage
  }

  /** The worker's next step, when everything it asks for is granted. */
  lemma Works(stop: bool, es: seq<Event>, stage: Stage) returns (fs: seq<Event>)
    requires Legal(INIT, es) && At(After(INIT, es), stop, stage) && stage != Publish
    ensures Legal(INIT, fs)
    ensures var w, v := After(INIT, es), After(INIT, fs);
            var c := Work(Bench(w.slots[0].native, stage, w.worker.kit, w.os), INPUTS, stop, GOOD);
            At(v, stop, c.stage) && v.slots[0].native == c.native && v.worker.kit == c.kit && v.os == c.os
  {
    hide Legal, After, Work;
    Extend(INIT, es, WorkerWork(GOOD));
    fs := es + [WorkerWork(GOOD)];
  }

  lemma HandedOver(stop: bool, es: seq<Event>) returns (fs: seq<Event>)
    requires Legal(INIT, es) && At(After(INIT, es), stop, Publish)
    ensures Legal(INIT, fs)
    ensures var w, v := After(INIT, es), After(INIT, fs);
            v.slots == w.slots[0 := w.slots[0].(phase := Done)] && v.tickets == w.tickets && v.lock == Unlocked
            && v.worker == Waiting
  {
    hide Legal, After;
    Extend(INIT, es, WorkerPublish);
    fs := es + [WorkerPublish];
  }

  /** The worker has created the child. */
  lemma Built() returns (es: seq<Event>)
    ensures Legal(INIT, es) && At(After(INIT, es), false, Publish)
    ensures var n := After(INIT, es).slots[0].native; n.created && !n.cancelled
  {
    es := Submitted();
    es := Claimed(false, es);
    hide Legal, After, CloseAll, Tickets;
    es := Works(false, es, Snapshot);
    es := Works(false, es, Checking);
    es := Works(false, es, Make(0));
    es := Works(false, es, Make(1));
    es := Works(false, es, Make(2));
    es := Works(false, es, Make(3));
    es := Works(false, es, Recheck);
    es := Works(false, es, Clone);
  }

  /** A launch can be owned. */
  lemma OwnedIsReachable() returns (es: seq<Event>)
    ensures Legal(INIT, es) && |After(INIT, es).tickets| == 1 && After(INIT, es).tickets[0].step == OWNED
  {
    es := Built();
    es := Answered(false, es);
  }

  /** A child that cannot execute its program says so in one record, is killed and reaped, and the launch has failed for
      that reason. */
  lemma FailedIsReachable() returns (es: seq<Event>)
    ensures Legal(INIT, es) && |After(INIT, es).tickets| == 1
    ensures var t := After(INIT, es).tickets[0]; t.step == FAILED && t.failure == Failure(4, 2)
  {
    es := Built();
    es := HandedOver(false, es);
    hide Legal, After, Close, Kill, Wait;
    Extend(INIT, es, Check(0, REFUSED));
    es := es + [Check(0, REFUSED)];
  }

  /** The owner's check once the worker is done: end of file on the handshake pipe, or what the worker left. */
  lemma Answered(stop: bool, es: seq<Event>) returns (fs: seq<Event>)
    requires Legal(INIT, es) && At(After(INIT, es), stop, Publish)
    requires var n := After(INIT, es).slots[0].native; (n.created && !stop) || (n.cancelled && !n.created)
    ensures Legal(INIT, fs) && |After(INIT, fs).tickets| == 1
    ensures After(INIT, fs).tickets[0].step == if After(INIT, es).slots[0].native.created then OWNED else ABORTED
  {
    fs := HandedOver(stop, es);
    hide Legal, After, Close;
    Extend(INIT, fs, Check(0, EOF));
    fs := fs + [Check(0, EOF)];
  }

  /** An abort before the worker's scan is honoured. */
  lemma AbortedIsReachable() returns (es: seq<Event>)
    ensures Legal(INIT, es) && |After(INIT, es).tickets| == 1 && After(INIT, es).tickets[0].step == ABORTED
  {
    es := Submitted();
    es := AbortAsked(es);
    es := Claimed(true, es);
    hide Legal, After, Tickets;
    es := Works(true, es, Snapshot);
    es := Works(true, es, Checking);
    es := Answered(true, es);
  }

  lemma AbortAsked(es: seq<Event>) returns (fs: seq<Event>)
    requires Legal(INIT, es)
    requires var w := After(INIT, es);
             Tickets(w, false, Queued) && w.worker == Waiting && w.sem == 1 && w.slots[0].native == FRESH_NATIVE
    ensures Legal(INIT, fs)
    ensures var w := After(INIT, fs);
            Tickets(w, true, Queued) && w.worker == Waiting && w.sem == 1 && w.slots[0].native == FRESH_NATIVE
  {
    hide Legal, After;
    Extend(INIT, es, AbortBegin(0, EOF));
    fs := es + [AbortBegin(0, EOF)];
    assert After(INIT, fs).lock == Stopping(0);
    Extend(INIT, fs, AbortEnd(EOF));
    fs := fs + [AbortEnd(EOF)];
  }
}
