/** The multiplexing protocol's messages and the order in which one endpoint may
    send them for one stream. */
module Messages {
  import opened Wrappers

  const MAX_UINT64: nat := 0xFFFF_FFFF_FFFF_FFFF
  const MAX_INT64: nat := 0x7FFF_FFFF_FFFF_FFFF
  const MAX_BLOCK: nat := 65535

  /** A message about one stream, without its stream identifier. */
  datatype Message =
    | Open(window: nat)
    | Accept(window: nat)
    | Data(block: seq<Byte>)
    | Increment(amount: nat)
    | CloseWrite
    | Close

  /** One message as it appears on the carrier. */
  datatype Frame = Heartbeat | ForStream(id: nat, message: Message)

  /** The end of a stream that asked for it, and the end that was asked. */
  datatype Role = Opener | Acceptor {
    function Peer(): Role { if Opener? then Acceptor else Opener }
  }

  /** How far the traffic from one end of a stream has come.  `Refused` is a close
      that was never preceded by an accept. */
  datatype Stage = Silent | Live | HalfClosed | Shut | Refused {
    /** The end has advertised its receive window. */
    predicate Granted() { Live? || HalfClosed? || Shut? }
  }

  /** The wire order: which message may follow a stage, and what stage it leads to. */
  function Advance(role: Role, stage: Stage, message: Message): Option<Stage> {
    match message
    case Open(_) => if role.Opener? && stage.Silent? then Some(Live) else None
    case Accept(_) => if role.Acceptor? && stage.Silent? then Some(Live) else None
    case Data(_) => if stage.Live? then Some(Live) else None
    case Increment(_) => if stage.Live? || stage.HalfClosed? then Some(stage) else None
    case CloseWrite => if stage.Live? then Some(HalfClosed) else None
    case Close =>
      if stage.Live? || stage.HalfClosed? then Some(Shut)
      else if role.Acceptor? && stage.Silent? then Some(Refused)
      else None
  }

  /** The stage reached after a whole sequence of messages, if every one was in order. */
  function AdvanceAll(role: Role, stage: Stage, queue: seq<Message>): Option<Stage>
    decreases |queue|
  {
    if queue == [] then Some(stage)
    else
      var next := Advance(role, stage, queue[0]);
      if next.None? then None else AdvanceAll(role, next.value, queue[1..])
  }

  /** The payload bytes of a queue, in order. */
  function Payload(queue: seq<Message>): seq<Byte> {
    if queue == [] then []
    else (if queue[0].Data? then queue[0].block else []) + Payload(queue[1..])
  }

  /** The send credit that a queue is carrying: advertised windows and increments. */
  function Credit(queue: seq<Message>): nat {
    if queue == [] then 0
    else
      (match queue[0]
       case Open(w) => w
       case Accept(w) => w
       case Increment(n) => n
       case Data(_) => 0
       case CloseWrite => 0
       case Close => 0) + Credit(queue[1..])
  }

  lemma {:induction false} AdvanceAllAppend(role: Role, stage: Stage, queue: seq<Message>, m: Message)
    ensures AdvanceAll(role, stage, queue + [m]) ==
            match AdvanceAll(role, stage, queue)
            case None => None
            case Some(s) => Advance(role, s, m)
    decreases |queue|
  {
    if queue == [] {
      assert queue + [m] == [m];
      assert [m][1..] == [];
    } else {
      assert (queue + [m])[1..] == queue[1..] + [m];
      var next := Advance(role, stage, queue[0]);
      if next.Some? {
        AdvanceAllAppend(role, next.value, queue[1..], m);
      }
    }
  }

  lemma {:induction false} PayloadAppend(queue: seq<Message>, m: Message)
    ensures Payload(queue + [m]) == Payload(queue) + (if m.Data? then m.block else [])
  {
    if queue == [] {
      assert queue + [m] == [m];
      assert [m][1..] == [];
    } else {
      assert (queue + [m])[1..] == queue[1..] + [m];
      PayloadAppend(queue[1..], m);
    }
  }

  lemma {:induction false} CreditAppend(queue: seq<Message>, m: Message)
    ensures Credit(queue + [m]) == Credit(queue) + Credit([m])
  {
    assert [m][1..] == [];
    if queue == [] {
      assert queue + [m] == [m];
    } else {
      assert (queue + [m])[1..] == queue[1..] + [m];
      CreditAppend(queue[1..], m);
    }
  }

  /** Once the sender can send no more data, nothing in flight is data. */
  lemma {:induction false} NoPayloadAfterHalfClose(role: Role, stage: Stage, queue: seq<Message>)
    requires stage.HalfClosed? || stage.Shut? || stage.Refused?
    requires AdvanceAll(role, stage, queue).Some?
    ensures Payload(queue) == []
    ensures !AdvanceAll(role, stage, queue).value.Live?
    ensures !AdvanceAll(role, stage, queue).value.Silent?
    decreases |queue|
  {
    if queue != [] {
      NoPayloadAfterHalfClose(role, Advance(role, stage, queue[0]).value, queue[1..]);
    }
  }

  /** A granted window is never taken back, a close is final, and silence does not return. */
  lemma {:induction false} GrantedIsStable(role: Role, stage: Stage, queue: seq<Message>)
    requires AdvanceAll(role, stage, queue).Some?
    ensures stage.Granted() ==> AdvanceAll(role, stage, queue).value.Granted()
    ensures stage.Refused? || stage.Shut? ==> queue == []
    ensures !stage.Silent? || queue != [] ==> !AdvanceAll(role, stage, queue).value.Silent?
    decreases |queue|
  {
    if queue != [] {
      GrantedIsStable(role, Advance(role, stage, queue[0]).value, queue[1..]);
    }
  }
}
