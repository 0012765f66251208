/** The receive-side acknowledgment fields of a channel, updated in place. */
module AckChannels {
  import opened SequenceNumbers
  import opened ChannelAcks
  import Spec = ChannelAcks

  /** The receive-side fields of a channel. */
  class AckChannel {
    var rxAckSequence: nat
    var rxAckCount: int
    var rxUnacked: nat
    var ackTimer: bool
    var sent: seq<Ack>

    ghost function View(): State
      reads this
    {
      State(rxAckSequence, rxAckCount, rxUnacked, ackTimer, sent)
    }

    /** Numbers passed so far, and those of them that were to be acknowledged and did not repeat the last one. */
    ghost var passed: set<nat>
    ghost var wanted: set<nat>

    ghost function History(): Run
      reads this
    {
      Run(View(), passed, wanted)
    }

    /** Acknowledgments are truthful, and no wanted number is forgotten. */
    ghost predicate Valid()
      reads this
    {
      Honest(History()) && forall p :: p in wanted ==> Answered(View(), p)
    }

    constructor ()
      ensures Valid() && View() == FRESH && passed == {} && wanted == {}
    {
      rxAckSequence, rxAckCount, rxUnacked, ackTimer, sent := 0, 0, 0, false, [];
      passed, wanted := {}, {};
    }

    method TxAck(ackSeq: nat, ackCount: int)
      modifies this`sent
      ensures sent == old(sent) + [Ack(ackSeq, ackCount)]
    {
      sent := sent + [Ack(ackSeq, ackCount)];
    }

    method FlushAck()
      modifies this`rxUnacked, this`ackTimer, this`sent
      ensures View() == Flush(old(View()))
    {
      if rxUnacked > 0 {
        rxUnacked := 0;
        TxAck(rxAckSequence, rxAckCount);
      }
      ackTimer := false;
    }

    /** The ack timer fires: nothing stays pending. */
    method AckTimeout()
      requires Valid()
      modifies this`rxUnacked, this`ackTimer, this`sent
      ensures Valid() && View() == Flush(old(View()))
      ensures forall p :: p in wanted ==> Emitted(sent, p)
    {
      ghost var before := History();
      FlushAck();
      KeepsAnswers(before, Spec.AckTimeout);
    }

    /** acknowledge */
    method Acknowledge(pktSeq: nat, sendAck: bool)
      requires Valid() && Near(View(), pktSeq)
      modifies this
      ensures Valid() && View() == Spec.Acknowledge(old(View()), pktSeq, sendAck)
      ensures passed == old(passed) + {pktSeq}
      ensures wanted == if sendAck && pktSeq != old(rxAckSequence) then old(wanted) + {pktSeq} else old(wanted)
    {
      ghost var before := History();
      UpdateState(pktSeq, sendAck);
      KeepsAnswers(before, Pass(pktSeq, sendAck));
      if sendAck && pktSeq != before.s.ackSeq {
        PassAnsweredExactly(before, pktSeq);
        wanted := wanted + {pktSeq};
      }
      passed := passed + {pktSeq};
    }

    /** The fields after acknowledge. */
    method UpdateState(pktSeq: nat, sendAck: bool)
      modifies this`rxAckSequence, this`rxAckCount, this`rxUnacked, this`ackTimer, this`sent
      ensures View() == Spec.Acknowledge(old(View()), pktSeq, sendAck)
    {
      var seqDiff := Int32(pktSeq - rxAckSequence);
      if seqDiff == 1 {
        rxAckSequence := pktSeq;
        rxAckCount := rxAckCount + 1;
        if rxAckCount > MAX_ACK_COUNT { rxAckCount := MAX_ACK_COUNT; }
        rxUnacked := rxUnacked + 1;
        if !sendAck && rxUnacked < MAX_ACK_PACKETS { return; }
        if rxUnacked < MAX_ACK_PACKETS {
          if rxUnacked < MIN_ACK_PACKETS {
            if !ackTimer { ackTimer := true; }
          } else {
            ackTimer := true;
          }
        } else {
          FlushAck();
        }
      } else if seqDiff > 1 {
        FlushAck();
        rxAckSequence := pktSeq;
        rxAckCount := 0;
        if sendAck { TxAck(rxAckSequence, 0); }
      } else if seqDiff < 0 {
        FlushAck();
        if sendAck { TxAck(pktSeq, 0); }
      }
    }

    /** channel_transmit: the packet carries the current acknowledgment. */
    method ChannelTransmit()
      requires Valid()
      modifies this`rxUnacked, this`ackTimer, this`sent
      ensures Valid() && View() == Transmit(old(View()))
      ensures forall p :: p in wanted ==> Emitted(sent, p)
    {
      ghost var before := History();
      TxAck(rxAckSequence, rxAckCount);
      if rxUnacked > 0 {
        rxUnacked := 0;
        ackTimer := false;
      }
      KeepsAnswers(before, TransmitData);
    }
  }

  /** No event forgets a number already answered; after a timeout or a data packet nothing is pending. */
  lemma KeepsAnswers(r: Run, e: Event)
    requires Honest(r) && (e.Pass? ==> Near(r.s, e.pktSeq))
    ensures Honest(Step(r, e))
    ensures forall p :: p in r.wanted && Answered(r.s, p) ==> Answered(Step(r, e).s, p)
    ensures !e.Pass? ==> forall p :: p in r.wanted && Answered(r.s, p) ==> Emitted(Step(r, e).s.acks, p)
  {
    StepHonest(r, e);
    forall p | p in r.wanted && Answered(r.s, p)
      ensures Answered(Step(r, e).s, p) && (!e.Pass? ==> Emitted(Step(r, e).s.acks, p))
    {
      AnsweredStays(r, e, p);
      EmittedAppend(r.s.acks, Ack(r.s.ackSeq, r.s.ackCount), p);
    }
  }
}
