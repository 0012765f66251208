/**
 Completion: a reachable state in which a stream is attached to a channel can be brought to the point where
 everything written to it has been read, exactly as long as no event has spoilt the stream. The events that do it
 are found one after the other: serve the line, let packets arrive and be acknowledged, from the highest position
 down, and read.
 */
module Completion {
  import opened Options
  import opened Segments
  import opened StreamLayer
  import opened StreamInvariants
  import opened StreamSteps
  import opened StreamOps
  import opened StreamHomes
  import opened StreamHistory
  import opened StreamProgress
  import opened EndToEnd
  import opened StreamClose
  import opened Endings
  import SR = StreamRuns
  import Proofs = ReassemblyProofs
  import R = ReassemblyRuns

  // ---------------------------------------------------------------- runs one after the other

  lemma {:induction false} PlayThen<K, C>(s: Sys<K, C>, a: seq<Event<K, C>>, b: seq<Event<K, C>>)
    ensures Play(s, a + b) == Play(Play(s, a), b)
    decreases |b|
  {
    hide Step;
    if b == [] {
      assert a + b == a;
    } else {
      var front := b[..|b| - 1];
      assert (a + b)[..|a + b| - 1] == a + front;
      PlayThen(s, a, front);
    }
  }

  lemma PlayOne<K, C>(s: Sys<K, C>, e: Event<K, C>)
    ensures Play(s, [e]) == Step(s, e)
  {
    hide Step;
    assert [e][..0] == [];
  }

  /** The stream transmits on this channel. */
  ghost predicate Placed<K, C>(l: Layer<K, C>, c: C, k: K) {
    k in l.streams && c in l.channels && l.Current(k) == Some(c)
  }

  /** What holds of every reachable state of a host that runs, as long as the stream is not spoilt. */
  ghost predicate Calm<K, C>(s: Sys<K, C>, k: K) {
    SysOk(s) && AllAwake(s.layer) && !s.layer.failed && Origins(s, k) && Unspoilt(s, k)
  }

  /** A state from which stream `k`, attached to `c`, can be completed. */
  ghost predicate Fine<K, C>(s: Sys<K, C>, c: C, k: K) {
    Calm(s, k) && Placed(s.layer, c, k)
  }

  /** Flow control, service, delivery, acknowledgment and reading: what goes on by itself. */
  ghost predicate Ordinary<K, C>(more: seq<Event<K, C>>) {
    forall i :: 0 <= i < |more| ==>
      more[i].Deliver? || more[i].Read? || more[i].op.Allow? || more[i].op.Ready? || more[i].op.Acked?
  }

  /** `t` follows `s` by ordinary events; nothing new was written in between. */
  ghost predicate Later<K, C>(s: Sys<K, C>, t: Sys<K, C>, more: seq<Event<K, C>>) {
    t == Play(s, more) && t.written == s.written && Ordinary(more)
  }

  lemma LaterThen<K, C>(s: Sys<K, C>, t: Sys<K, C>, u: Sys<K, C>, a: seq<Event<K, C>>, b: seq<Event<K, C>>)
    requires Later(s, t, a) && Later(t, u, b)
    ensures Later(s, u, a + b)
  {
    hide Play;
    PlayThen(s, a, b);
  }

  lemma LaterSelf<K, C>(s: Sys<K, C>)
    ensures Later(s, s, [])
  {}

  lemma FineLayer<K, C>(s: Sys<K, C>, c: C, k: K)
    requires Fine(s, c, k)
    ensures SR.Healthy(s.layer) && SR.Sound(s.layer)
  {
    hide SR.Healthy, SR.Sound;
    SR.SoundIsHealthy(s.layer);
  }

  /** What a step has to show to stay calm. */
  lemma StaysCalm<K, C>(s: Sys<K, C>, e: Event<K, C>, k: K)
    requires Calm(s, k) && AllAwake(Step(s, e).layer) && !Step(s, e).layer.failed && !Spoils(s, e, k)
    ensures Calm(Step(s, e), k)
  {
    hide SysOk, AllAwake, Origins, Unspoilt, Step, Spoils;
    StepOk(s, e);
    StepUnspoiltExactly(s, e, k);
  }

  lemma LaterOne<K, C>(s: Sys<K, C>, e: Event<K, C>)
    requires Ordinary([e]) && Step(s, e).written == s.written
    ensures Later(s, Step(s, e), [e])
  {
    hide Step, Ordinary;
    PlayOne(s, e);
  }

  lemma LocalCalm<K, C>(s: Sys<K, C>, op: SR.Op<K, C>, k: K)
    requires Calm(s, k) && SR.Enabled(s.layer, op) && (op.Allow? || op.Ready? || op.Acked?)
    requires op.Acked? ==> (op.c, op.n) in s.accepted
    ensures Calm(Step(s, Local(op)), k) && Step(s, Local(op)) == s.(layer := SR.Do(s.layer, op))
  {
    CalmStream(s, k);
    hide SR.Sound, SysOk, AllAwake, Origins, Unspoilt, SR.Enabled, SR.Do, Step, SR.Step, SR.Trips;
    LocalIs(s, op);
    CalmSound(s, k);
    StepWakes(s.layer, op);
    SR.StepSound(s.layer, op);
    hide Calm;
    StaysCalm(s, Local(op), k);
  }

  lemma CalmStream<K, C>(s: Sys<K, C>, k: K)
    requires Calm(s, k)
    ensures k in s.layer.streams
  {
    hide SysOk, AllAwake, Unspoilt, Sourced, Parted;
  }

  lemma CalmSound<K, C>(s: Sys<K, C>, k: K)
    requires Calm(s, k)
    ensures SR.Sound(s.layer)
  {
    hide AllAwake, Origins, Unspoilt, SR.Sound;
  }

  /** A turn of the channel or an acknowledgment, once it keeps the stream on its channel. */
  lemma LocalFine<K, C>(s: Sys<K, C>, op: SR.Op<K, C>, c: C, k: K)
    requires Fine(s, c, k) && SR.Enabled(s.layer, op) && (op.Allow? || op.Ready? || op.Acked?)
    requires op.Acked? ==> (op.c, op.n) in s.accepted
    requires Placed(SR.Do(s.layer, op), c, k)
    ensures Fine(Step(s, Local(op)), c, k) && Step(s, Local(op)) == s.(layer := SR.Do(s.layer, op))
    ensures Later(s, Step(s, Local(op)), [Local(op)])
  {
    hide Calm, Placed, SR.Enabled, SR.Do, Step, Later;
    LocalCalm(s, op, k);
    LaterOne(s, Local(op));
  }

  lemma LocalIs<K, C>(s: Sys<K, C>, op: SR.Op<K, C>)
    requires SR.Enabled(s.layer, op) && !op.Write? && !s.layer.failed && (op.Acked? ==> (op.c, op.n) in s.accepted)
    ensures Step(s, Local(op)) == s.(layer := SR.Do(s.layer, op)) && SR.Step(s.layer, op) == SR.Do(s.layer, op)
    ensures !op.AttachRx? ==> !SR.Trips(s.layer, op)
  {
    hide SR.Enabled, SR.Do;
  }

  // ---------------------------------------------------------------- emptying the line

  ghost function Waiting<K, C>(l: Layer<K, C>, k: K): nat {
    if k in l.streams then |l.streams[k].queue| else 0
  }

  /** Frames waiting in the queues of the streams of a line, and one for each stream. */
  ghost function Work<K, C>(l: Layer<K, C>, line: seq<K>): nat {
    if line == [] then 0 else Waiting(l, line[0]) + 1 + Work(l, line[1..])
  }

  lemma {:induction false} WorkSame<K, C>(l: Layer<K, C>, r: Layer<K, C>, line: seq<K>)
    requires forall i :: 0 <= i < |line| ==> Waiting(r, line[i]) == Waiting(l, line[i])
    ensures Work(r, line) == Work(l, line)
  {
    if line != [] { WorkSame(l, r, line[1..]); }
  }

  lemma {:induction false} WorkInsert<K, C>(l: Layer<K, C>, line: seq<K>, i: nat, k: K)
    requires i <= |line|
    ensures Work(l, Insert(line, i, k)) == Work(l, line) + Waiting(l, k) + 1
  {
    if i == 0 {
      assert Insert(line, 0, k) == [k] + line && ([k] + line)[1..] == line;
    } else {
      WorkInsert(l, line[1..], i - 1, k);
      assert Insert(line, i, k) == [line[0]] + Insert(line[1..], i - 1, k);
      assert Insert(line, i, k)[1..] == Insert(line[1..], i - 1, k);
    }
  }

  /** Getting in line adds the stream's own work, or nothing. */
  lemma LinkWork<K, C>(l: Layer<K, C>, c: C, k: K)
    requires k in l.streams && c in l.channels && l.Current(k) == Some(c) && !l.streams[k].enqueued
    ensures c in Link(l, k).channels
    ensures Work(Link(l, k), Link(l, k).channels[c].sending) <=
              Work(l, l.channels[c].sending) + (if l.streams[k].queue == [] then 0 else |l.streams[k].queue| + 1)
  {
    var r, line := Link(l, k), l.channels[c].sending;
    if l.streams[k].queue != [] {
      var i := PriorityIndex(l, line, l.streams[k].priority);
      WorkInsert(l, line, i, k);
      assert r.channels[c].sending == Insert(line, i, k);
      WorkSame(l, r, Insert(line, i, k));
    }
  }

  /** The front of the line is nowhere else in it. */
  lemma FrontAlone<K, C>(l: Layer<K, C>, c: C)
    requires Inv(l) && c in l.channels && l.channels[c].sending != []
    ensures forall i :: 0 < i < |l.channels[c].sending| ==> l.channels[c].sending[i] != l.channels[c].sending[0]
  {
    assert LineOk(l, c);
  }

  lemma BeginWork<K, C>(l: Layer<K, C>, c: C)
    requires Inv(l) && c in l.channels && l.channels[c].sending != []
    ensures l.channels[c].sending[0] in l.streams
    ensures var k, r := l.channels[c].sending[0], Begin(l, c);
            && c in r.channels && r.channels[c].sending == l.channels[c].sending[1..]
            && k in r.streams
            && Work(r, r.channels[c].sending) + |l.streams[k].queue| + 1 == Work(l, l.channels[c].sending)
            && |r.streams[k].queue| <= |l.streams[k].queue|
  {
    hide Inv, DropAcked, CanTransmit;
    FrontAlone(l, c);
    FrontMayTransmit(l, c);
    var k, r := l.channels[c].sending[0], Begin(l, c);
    var i := DropAckedSuffix(l.streams[k].queue, l.streams[k].waiting);
    forall j | 0 <= j < |l.channels[c].sending[1..]|
      ensures l.channels[c].sending[1..][j] == l.channels[c].sending[j + 1]
    {}
    WorkSame(l, r, l.channels[c].sending[1..]);
  }

  /** The stream at the front, once it is out of the line. */
  lemma BegunPlaced<K, C>(l: Layer<K, C>, c: C)
    requires Inv(l) && c in l.channels && l.channels[c].sending != []
    ensures l.channels[c].sending[0] in l.streams
    ensures var k, b := l.channels[c].sending[0], Begin(l, c);
            Placed(b, c, k) && !b.streams[k].enqueued && k !in b.channels[c].sending
  {
    hide Inv, DropAcked;
    FrontAlone(l, c);
    FrontMayTransmit(l, c);
    var line := l.channels[c].sending;
    forall j | 0 <= j < |line[1..]| ensures line[1..][j] == line[j + 1] {}
  }

  lemma ServeFrontIs<K, C>(l: Layer<K, C>, c: C)
    requires c in l.channels && l.channels[c].sending != []
    ensures var line := l.channels[c].sending;
            ServeFront(l, c) == TransmitOn(l.SetChannel(c, l.channels[c].(sending := line[1..])), c, line[0])
  {
    hide TransmitOn;
  }

  /** Every pass over the line leaves less to do. */
  lemma ServeFrontWork<K, C>(l: Layer<K, C>, c: C)
    requires Inv(l) && c in l.channels && l.channels[c].sending != []
    ensures Work(ServeFront(l, c), ServeFront(l, c).channels[c].sending) < Work(l, l.channels[c].sending)
  {
    hide Inv, TransmitOn, Begin, SendHead, Transmit, ServeFront, Work;
    ServesAs(l, c);
    ServeFrontIs(l, c);
    BeginWork(l, c);
    BegunPlaced(l, c);
    var k, b := l.channels[c].sending[0], Begin(l, c);
    if b.streams[k].queue != [] {
      SendHeadWork(b, c, k);
      AttachWork(b, c, k);
    }
  }

  lemma AttachWork<K, C>(l: Layer<K, C>, c: C, k: K)
    requires c in l.channels
    ensures var r := Transmit(l, c, Frame(k, Attach, ATTACH_SEGMENT, false));
            c in r.channels && Work(r, r.channels[c].sending) == Work(l, l.channels[c].sending)
  {
    WorkSame(l, Transmit(l, c, Frame(k, Attach, ATTACH_SEGMENT, false)), l.channels[c].sending);
  }

  lemma SendHeadWork<K, C>(l: Layer<K, C>, c: C, k: K)
    requires Placed(l, c, k) && !l.streams[k].enqueued && l.streams[k].queue != [] && k !in l.channels[c].sending
    ensures var r := SendHead(l, c, k);
            && c in r.channels
            && Work(r, r.channels[c].sending) <= Work(l, l.channels[c].sending) + |l.streams[k].queue|
  {
    hide Link;
    var s := l.streams[k];
    var m := Transmit(l.SetStream(k, s.(queue := s.queue[1..])), c, s.queue[0].(late := false));
    WorkSame(l, m, l.channels[c].sending);
    assert m.Current(k) == Some(c);
    LinkWork(m, c, k);
  }

  /** What the later phases need to know of the stream and its receiver. */
  ghost predicate SameStream<K, C>(s: Sys<K, C>, t: Sys<K, C>, k: K) {
    && k in s.layer.streams && k in t.layer.streams && t.rx == s.rx
    && t.layer.streams[k].waiting == s.layer.streams[k].waiting && t.layer.streams[k].slots == s.layer.streams[k].slots
    && t.layer.streams[k].current == s.layer.streams[k].current
  }

  lemma ShapeThen<K, C>(a: Layer<K, C>, b: Layer<K, C>, d: Layer<K, C>)
    requires SameShape(a, b) && SameShape(b, d)
    ensures SameShape(a, d)
  {}

  lemma SendHeadShape<K, C>(l: Layer<K, C>, c: C, k: K)
    requires k in l.streams && c in l.channels && l.streams[k].queue != []
    ensures SameShape(l, SendHead(l, c, k))
  {
    hide SameShape;
    var s := l.streams[k];
    var l1 := l.SetStream(k, s.(queue := s.queue[1..]));
    var f := s.queue[0].(late := false);
    StreamShape(l, k, l1.streams[k]);
    TransmitRest(l1, c, f);
    LinkFrame(Transmit(l1, c, f), k);
    ShapeThen(l, l1, Transmit(l1, c, f));
    ShapeThen(l, Transmit(l1, c, f), SendHead(l, c, k));
  }

  /** Serving the line moves no attachment. */
  lemma ServeFrontShape<K, C>(l: Layer<K, C>, c: C)
    requires Inv(l) && c in l.channels && l.channels[c].sending != []
    ensures SameShape(l, ServeFront(l, c))
  {
    ServesAs(l, c);
    var k, b := l.channels[c].sending[0], Begin(l, c);
    BeginShape(l, c);
    hide Inv, SameShape, TransmitOn, Begin;
    if b.streams[k].queue != [] {
      SendHeadShape(b, c, k);
      ShapeThen(l, b, SendHead(b, c, k));
      var f := Frame(k, Attach, ATTACH_SEGMENT, false);
      TransmitRest(b, c, f);
      ShapeThen(l, b, Transmit(b, c, f));
    }
  }

  lemma ShapeCurrent<K, C>(l: Layer<K, C>, r: Layer<K, C>, k: K)
    requires SameShape(l, r) && k in l.streams
    ensures k in r.streams && r.Current(k) == l.Current(k) && r.channels.Keys == l.channels.Keys
    ensures r.streams[k].slots == l.streams[k].slots && r.streams[k].current == l.streams[k].current
  {}

  /** With no allowance the channel serves exactly one stream when it reports that it is ready. */
  lemma ReadyServesOne<K, C>(l: Layer<K, C>, c: C)
    requires c in l.channels && l.channels[c].sending != [] && l.channels[c].allowance == 0
    ensures GotReady(l, c) == ServeFront(l, c)
  {}

  lemma ServeFrontHistory<K, C>(l: Layer<K, C>, c: C)
    requires c in l.channels && l.channels[c].sending != [] && l.channels[c].allowance == 0
    ensures SameHistory(l, ServeFront(l, c))
  {
    ReadyHistory(l, c);
    ReadyServesOne(l, c);
  }

  lemma AllowStep<K, C>(s: Sys<K, C>, c: C, k: K)
    requires Fine(s, c, k)
    ensures var op := SR.Allow(c, 0);
            && SR.Enabled(s.layer, op) && Placed(SR.Do(s.layer, op), c, k)
            && SR.Do(s.layer, op) == s.layer.SetChannel(c, s.layer.channels[c].(allowance := 0))
  {
    hide Calm;
    var op: SR.Op<K, C> := SR.Allow(c, 0);
    assert SR.Do(s.layer, op).Current(k) == s.layer.Current(k);
  }

  /** One pass over the line, as two events. */
  lemma ServeEvents<K, C>(s: Sys<K, C>, c: C, k: K) returns (t: Sys<K, C>, more: seq<Event<K, C>>)
    requires Fine(s, c, k) && s.layer.channels[c].sending != []
    ensures Fine(t, c, k) && Later(s, t, more) && SameStream(s, t, k)
    ensures Work(t.layer, t.layer.channels[c].sending) < Work(s.layer, s.layer.channels[c].sending)
  {
    hide Calm, SR.Do, SR.Enabled, SR.Healthy, SR.Sound, Step, Later, ServeFront, GotReady;
    AllowStep(s, c, k);
    LocalFine(s, SR.Allow(c, 0), c, k);
    var m := Step(s, Local(SR.Allow(c, 0)));
    FineInv(m, c, k);
    WorkSame(s.layer, m.layer, s.layer.channels[c].sending);
    ServeFrontWork(m.layer, c);
    ServeFrontShape(m.layer, c);
    ServeFrontHistory(m.layer, c);
    ReadyServesOne(m.layer, c);
    ShapeCurrent(m.layer, ServeFront(m.layer, c), k);
    HistorySegments(m.layer, ServeFront(m.layer, c), k);
    ReadyEnabled(m.layer, c);
    LocalFine(m, SR.Ready(c), c, k);
    t := Step(m, Local(SR.Ready(c)));
    more := [Local(SR.Allow(c, 0))] + [Local(SR.Ready(c))];
    LaterThen(s, m, t, [Local(SR.Allow(c, 0))], [Local(SR.Ready(c))]);
  }

  lemma ReadyEnabled<K, C>(l: Layer<K, C>, c: C)
    requires c in l.channels
    ensures SR.Enabled(l, SR.Ready(c)) && SR.Do(l, SR.Ready(c)) == GotReady(l, c)
  {}

  lemma FineInv<K, C>(s: Sys<K, C>, c: C, k: K)
    requires Fine(s, c, k)
    ensures Inv(s.layer) && Homed(s.layer) && AllAwake(s.layer) && SR.Sound(s.layer)
  {
    FineLayer(s, c, k);
  }

  lemma SameStreamThen<K, C>(a: Sys<K, C>, b: Sys<K, C>, d: Sys<K, C>, k: K)
    requires SameStream(a, b, k) && SameStream(b, d, k)
    ensures SameStream(a, d, k)
  {}

  /** The line of the channel can be served until it is empty. */
  lemma {:induction false} DrainLine<K, C>(s: Sys<K, C>, c: C, k: K) returns (t: Sys<K, C>, more: seq<Event<K, C>>)
    requires Fine(s, c, k)
    ensures Fine(t, c, k) && Later(s, t, more) && SameStream(s, t, k) && t.layer.channels[c].sending == []
    decreases Work(s.layer, s.layer.channels[c].sending)
  {
    hide Calm, Later;
    if s.layer.channels[c].sending == [] {
      t, more := s, [];
      LaterSelf(s);
    } else {
      var m, first := ServeEvents(s, c, k);
      var rest;
      t, rest := DrainLine(m, c, k);
      more := first + rest;
      LaterThen(s, m, t, first, rest);
      SameStreamThen(s, m, t, k);
    }
  }

  // ---------------------------------------------------------------- arrival and acknowledgment

  lemma DeliverFine<K, C>(s: Sys<K, C>, c: C, k: K, n: nat)
    requires Fine(s, c, k) && n in s.layer.channels[c].waitingAck && !Spoils(s, Deliver(c, n), k)
    ensures var t := Step(s, Deliver(c, n));
            Fine(t, c, k) && Later(s, t, [Deliver(c, n)]) && t.layer == s.layer && (c, n) in t.accepted
  {
    hide SysOk, AllAwake, Origins, Unspoilt, Spoils, R.Step, Later;
    SentNow(s, c, k, n);
    var e: Event<K, C> := Deliver(c, n);
    StaysCalm(s, e, k);
    LaterOne(s, e);
  }

  lemma SentNow<K, C>(s: Sys<K, C>, c: C, k: K, n: nat)
    requires Fine(s, c, k) && n in s.layer.channels[c].waitingAck
    ensures Sent(s.layer, c, n)
  {
    SentHere(s.layer, c, n);
  }

  /** The attachment the stream transmits on has been acknowledged. */
  ghost predicate Established<K, C>(l: Layer<K, C>, k: K) {
    && k in l.streams && l.streams[k].current.Some? && l.streams[k].current.value < |l.streams[k].slots|
    && l.streams[k].slots[l.streams[k].current.value].Acknowledged()
  }

  lemma LinkEffect<K, C>(l: Layer<K, C>, k: K)
    requires k in l.streams
    ensures var r := Link(l, k);
            && k in r.streams && r.channels.Keys == l.channels.Keys
            && r.streams[k] == l.streams[k].(enqueued := r.streams[k].enqueued)
  {}

  lemma ActivateEffect<K, C>(l: Layer<K, C>, c: C, k: K, rxSeq: nat)
    requires k in l.streams && l.Current(k) == Some(c)
    ensures var r := Activate(l, c, k, rxSeq);
            && r.channels.Keys == l.channels.Keys && Established(r, k) && r.Current(k) == Some(c)
            && r.streams[k].queue == l.streams[k].queue && r.streams[k].waiting == l.streams[k].waiting
  {
    var s := l.streams[k];
    var i := s.current.value;
    if !s.slots[i].Acknowledged() {
      var t := s.(slots := s.slots[i := s.slots[i].(sidSeq := Some(rxSeq), active := true)], init := false);
      LinkEffect(l.SetStream(k, t), k);
    }
  }

  /** Positions still waited for once the packet is acknowledged. */
  ghost function AfterFrame<K>(waiting: set<nat>, f: Frame<K>): set<nat> {
    if f.kind == Data then waiting - {f.seg.pos} else waiting
  }

  /** What the acknowledgment of a packet does to its stream. */
  lemma AckEffect<K, C>(l: Layer<K, C>, c: C, n: nat, k: K)
    requires Inv(l) && c in l.channels && n in l.channels[c].waitingAck && k in l.streams && l.Current(k) == Some(c)
    requires l.channels[c].waitingAck[n].owner == k && l.channels[c].waitingAck[n].kind != Datagram
    ensures var f, r := l.channels[c].waitingAck[n], Acknowledged(l, c, n, 0);
            && r.channels.Keys == l.channels.Keys && Established(r, k) && r.Current(k) == Some(c)
            && r.streams[k].queue == l.streams[k].queue && r.streams[k].waiting == AfterFrame(l.streams[k].waiting, f)
  {
    AfterAckKeeps(l, c, n);
    hide Inv, Activate, Established, Acknowledged, AfterAck;
    AckActivates(l, c, n);
    AfterAckEffect(l, c, n, k);
    ActivateEffect(AfterAck(Forget(l, c, {n}), l.channels[c].waitingAck[n]), c, k, 0);
  }

  lemma AckActivates<K, C>(l: Layer<K, C>, c: C, n: nat)
    requires c in l.channels && n in l.channels[c].waitingAck && !l.failed
    requires var f := l.channels[c].waitingAck[n];
             && f.owner in l.streams && f.kind != Datagram
             && AfterAck(Forget(l, c, {n}), f).streams[f.owner].waitingSize >= 0
    ensures var f := l.channels[c].waitingAck[n];
            Acknowledged(l, c, n, 0) == Activate(AfterAck(Forget(l, c, {n}), f), c, f.owner, 0)
  {
    hide Activate;
    var f := l.channels[c].waitingAck[n];
    var m := AfterAck(Forget(l, c, {n}), f);
    assert m.Check(true) == m && m.SetStream(f.owner, m.streams[f.owner]) == m;
  }

  lemma AfterAckEffect<K, C>(l: Layer<K, C>, c: C, n: nat, k: K)
    requires c in l.channels && n in l.channels[c].waitingAck && k in l.streams
    requires l.channels[c].waitingAck[n].owner == k
    ensures var f := l.channels[c].waitingAck[n];
            var m := AfterAck(Forget(l, c, {n}), f);
            && m.channels.Keys == l.channels.Keys && k in m.streams && m.Current(k) == l.Current(k)
            && m.streams[k].queue == l.streams[k].queue && m.streams[k].waiting == AfterFrame(l.streams[k].waiting, f)
  {}

  lemma AckedEnabled<K, C>(l: Layer<K, C>, c: C, n: nat)
    requires c in l.channels
    ensures SR.Enabled(l, SR.Acked(c, n, 0)) && SR.Do(l, SR.Acked(c, n, 0)) == Acknowledged(l, c, n, 0)
  {}

  /** A packet of the stream that is under way arrives and is acknowledged. */
  lemma AckEvents<K, C>(s: Sys<K, C>, c: C, k: K, n: nat) returns (t: Sys<K, C>, more: seq<Event<K, C>>)
    requires Fine(s, c, k) && n in s.layer.channels[c].waitingAck
    requires s.layer.channels[c].waitingAck[n].owner == k && s.layer.channels[c].waitingAck[n].kind != Datagram
    requires !Spoils(s, Deliver(c, n), k)
    ensures Fine(t, c, k) && Later(s, t, more) && Established(t.layer, k)
    ensures t.layer.streams[k].queue == s.layer.streams[k].queue
    ensures t.layer.streams[k].waiting == AfterFrame(s.layer.streams[k].waiting, s.layer.channels[c].waitingAck[n])
  {
    DeliverFine(s, c, k, n);
    FineInv(s, c, k);
    AckEffect(s.layer, c, n, k);
    AckedEnabled(s.layer, c, n);
    hide Calm, SR.Do, SR.Enabled, Step, Later, Acknowledged, Inv, Established, Spoils;
    var m, op := Step(s, Deliver(c, n)), SR.Acked(c, n, 0);
    LocalFine(m, op, c, k);
    t := Step(m, Local(op));
    more := [Deliver(c, n)] + [Local(op)];
    LaterThen(s, m, t, [Deliver(c, n)], [Local(op)]);
  }

  /** With the line empty and nothing to wake it, an established stream has nothing left to send. */
  lemma NothingQueued<K, C>(s: Sys<K, C>, c: C, k: K)
    requires Fine(s, c, k) && s.layer.channels[c].sending == []
    ensures s.layer.streams[k].queue == [] || (!Established(s.layer, k) && Knocking(s.layer.channels[c], k))
  {
    FineInv(s, c, k);
    OneAwake(s.layer, k);
    SlotKnown(s.layer, k);
    hide Inv;
    if s.layer.streams[k].enqueued { InLine(s.layer, k); }
  }

  lemma StaysEstablished<K, C>(s: Sys<K, C>, t: Sys<K, C>, k: K)
    requires SameStream(s, t, k) && Established(s.layer, k)
    ensures Established(t.layer, k)
  {}

  /** Everything the stream has to send goes out. */
  lemma SendAll<K, C>(s: Sys<K, C>, c: C, k: K) returns (t: Sys<K, C>, more: seq<Event<K, C>>)
    requires Fine(s, c, k)
    ensures Fine(t, c, k) && Later(s, t, more) && t.layer.streams[k].queue == []
  {
    hide Calm, Later, SameStream, Established, Spoils;
    t, more := DrainLine(s, c, k);
    NothingQueued(t, c, k);
    if t.layer.streams[k].queue != [] {
      var n :| n in t.layer.channels[c].waitingAck && t.layer.channels[c].waitingAck[n].owner == k
        && t.layer.channels[c].waitingAck[n].kind == Attach;
      AttachSpoilsNothing(t, c, k, n);
      var u, second := AckEvents(t, c, k, n);
      var v, third := DrainLine(u, c, k);
      StaysEstablished(u, v, k);
      NothingQueued(v, c, k);
      LaterThen(s, t, u, more, second);
      LaterThen(s, u, v, more + second, third);
      t, more := v, more + second + third;
    }
  }

  lemma AttachSpoilsNothing<K, C>(s: Sys<K, C>, c: C, k: K, n: nat)
    requires Fine(s, c, k) && n in s.layer.channels[c].waitingAck && s.layer.channels[c].waitingAck[n].kind == Attach
    ensures !Spoils(s, Deliver(c, n), k)
  {
    FineInv(s, c, k);
    hide SR.Sound, Inv;
    SentHere(s.layer, c, n);
  }

  /** A segment still waited for is in a packet on the stream's own channel. */
  lemma OnOwnChannel<K, C>(s: Sys<K, C>, c: C, k: K, p: nat) returns (n: nat)
    requires Fine(s, c, k) && s.layer.streams[k].queue == [] && p in s.layer.streams[k].waiting
    ensures n in s.layer.channels[c].waitingAck
    ensures var f := s.layer.channels[c].waitingAck[n]; f.owner == k && f.kind == Data && f.seg.pos == p
  {
    FineInv(s, c, k);
    SR.SoundStream(s.layer, k);
    hide Inv, SR.Sound;
    assert Held(s.layer, k, p);
    var d :| d in s.layer.channels && Outstanding(s.layer.channels[d], k, p);
    n :| n in s.layer.channels[d].waitingAck && s.layer.channels[d].waitingAck[n].kind == Data
      && s.layer.channels[d].waitingAck[n].owner == k && s.layer.channels[d].waitingAck[n].seg.pos == p;
    assert HomedAt(s.layer, d, n);
  }

  lemma {:induction false} Highest(at: set<nat>) returns (p: nat)
    requires at != {}
    ensures p in at && forall q :: q in at ==> q <= p
    decreases at
  {
    var a :| a in at;
    p := a;
    if at != {a} {
      assert at - {a} != {};
      var b := Highest(at - {a});
      p := if a > b then a else b;
      forall q | q in at ensures q <= p { if q != a { assert q in at - {a}; } }
    }
  }

  /** When everything above a segment has arrived, the stream does not go on behind a repetition of it. */
  lemma HighestRepeatsNothing<K, C>(t: Stream<K, C>, r: R.Run, stream: seq<byte>, p: nat)
    requires Cuts(t, stream) && t.byteSeq == |stream| && Traced(t, r.received) && Parted(t.segments, stream)
    requires R.Settled(r, stream) && p in t.segments && forall q :: q in t.waiting ==> q <= p
    ensures !Repeats(r.rx, t.segments[p], stream)
  {
    if Repeats(r.rx, t.segments[p], stream) {
      assert Touches(t.segments, r.rx.byteSeq);
      var q :| q in t.segments && t.segments[q].Covers(r.rx.byteSeq);
      hide R.Settled;
      assert q > p;
      NotBeyond(r, stream, t.segments[q]);
    }
  }

  lemma HighestSpoilsNothing<K, C>(s: Sys<K, C>, c: C, k: K, n: nat)
    requires Fine(s, c, k) && n in s.layer.channels[c].waitingAck
    requires var f := s.layer.channels[c].waitingAck[n];
             f.owner == k && f.kind == Data && forall q :: q in s.layer.streams[k].waiting ==> q <= f.seg.pos
    ensures !Spoils(s, Deliver(c, n), k)
  {
    ReceiverFacts(s, k);
    StreamWaits(s, k);
    CalmSound(s, k);
    hide SysOk, AllAwake, Unspoilt, Sourced, Parted, R.Settled, Proofs.Accounts, Cuts, Traced, Repeats, SR.Sound;
    SentHere(s.layer, c, n);
    HighestRepeatsNothing(s.layer.streams[k], s.rx[k], s.written[k], s.layer.channels[c].waitingAck[n].seg.pos);
  }

  lemma StreamWaits<K, C>(s: Sys<K, C>, k: K)
    requires SysOk(s) && k in s.layer.streams && k in s.written && k in s.rx
    ensures s.layer.streams[k].byteSeq == |s.written[k]| && Traced(s.layer.streams[k], s.rx[k].received)
  {
    assert StreamTraced(s, k);
  }

  /** With an empty queue, acknowledgments alone empty the waiting set; the highest position goes first. */
  lemma {:induction false} AckAll<K, C>(s: Sys<K, C>, c: C, k: K) returns (t: Sys<K, C>, more: seq<Event<K, C>>)
    requires Fine(s, c, k) && s.layer.streams[k].queue == []
    ensures Fine(t, c, k) && Later(s, t, more) && t.layer.streams[k].waiting == {}
    decreases s.layer.streams[k].waiting
  {
    hide Calm, Later, Established, Spoils;
    if s.layer.streams[k].waiting == {} {
      t, more := s, [];
      LaterSelf(s);
    } else {
      var p := Highest(s.layer.streams[k].waiting);
      var n := OnOwnChannel(s, c, k, p);
      HighestSpoilsNothing(s, c, k, n);
      var m, first := AckEvents(s, c, k, n);
      var rest;
      t, rest := AckAll(m, c, k);
      more := first + rest;
      LaterThen(s, m, t, first, rest);
    }
  }

  // ---------------------------------------------------------------- reading

  /** Everything that arrived in order can be read. */
  lemma {:induction false} ReadAll<K, C>(s: Sys<K, C>, c: C, k: K) returns (t: Sys<K, C>, more: seq<Event<K, C>>)
    requires Fine(s, c, k)
    ensures Fine(t, c, k) && Later(s, t, more) && t.layer == s.layer
    ensures k in t.rx && Flat(t.rx[k].rx.segments) == []
    decreases |s.rx[k].rx.segments|
  {
    ReceiverFacts(s, k);
    hide SysOk, AllAwake, Unspoilt, Sourced, Parted, Later, Cuts, R.Settled, Step;
    var run := s.rx[k];
    if run.rx.available <= 0 {
      t, more := s, [];
      LaterSelf(s);
      FlatEmpty(run.rx.segments);
    } else {
      hide Proofs.Accounts;
      ReadFine(s, c, k, run.rx.available);
      var e: Event<K, C> := Read(k, run.rx.available);
      var rest;
      t, rest := ReadAll(Step(s, e), c, k);
      more := [e] + rest;
      LaterThen(s, Step(s, e), t, [e], rest);
    }
  }

  lemma ReadFine<K, C>(s: Sys<K, C>, c: C, k: K, max: int)
    requires Fine(s, c, k) && k in s.rx && max == s.rx[k].rx.available > 0
    ensures var e: Event<K, C> := Read(k, max);
            var t := Step(s, e);
            && Fine(t, c, k) && Later(s, t, [e]) && t.layer == s.layer
            && k in t.rx && |t.rx[k].rx.segments| < |s.rx[k].rx.segments|
  {
    hide Calm, Placed, R.Step, Later, Step;
    ReadIs(s, k, max);
    ReadCalm(s, k, max);
    LaterOne(s, Read(k, max));
  }

  lemma ReadCalm<K, C>(s: Sys<K, C>, k: K, max: int)
    requires Calm(s, k) && k in s.rx && max == s.rx[k].rx.available > 0
    ensures Calm(Step(s, Read(k, max)), k) && Step(s, Read(k, max)).layer == s.layer
    ensures |R.Step(s.rx[k], R.Read(max)).rx.segments| < |s.rx[k].rx.segments|
  {
    CalmStream(s, k);
    hide AllAwake, SysOk, Unspoilt, Sourced, Parted, Proofs.Accounts, R.Step, R.Settled, Cuts, Step;
    ReadIs(s, k, max);
    ReceiverFacts(s, k);
    ReadShrinks(s.rx[k], s.written[k], s.layer.streams[k].segments);
    StaysCalm(s, Read(k, max), k);
  }

  lemma ReadShrinks(r: R.Run, stream: seq<byte>, cut: map<nat, Segment>)
    requires Sourced(r, cut) && R.Settled(r, stream) && Proofs.Accounts(r.rx) && r.rx.available > 0
    ensures |R.Step(r, R.Read(r.rx.available)).rx.segments| < |r.rx.segments|
  {
    assert r.read + [] == r.read;
    hide Sane, Proofs.Accounts;
    Proofs.SpanIsRead(r.rx, r.rx.available, []);
    ReadWholeExactly(r.rx, r.rx.available, r.read, [], stream, cut);
  }

  // ---------------------------------------------------------------- the result

  /** In every reachable state of the whole system, no stream of the sending host was forgotten. */
  lemma {:induction false} PlayAwake<K, C>(
      priorities: map<K, nat>, channels: set<C>, bufferSize: int, minBuffer: nat, events: seq<Event<K, C>>)
    ensures AllAwake(Play(Start(priorities, channels, bufferSize, minBuffer), events).layer)
    decreases |events|
  {
    hide SysOk, Step, AllAwake;
    if events == [] {
      InitialAwake<K, C>(priorities, channels);
    } else {
      var front, e := events[..|events| - 1], events[|events| - 1];
      PlayAwake(priorities, channels, bufferSize, minBuffer, front);
      RunOk(priorities, channels, bufferSize, minBuffer, front);
      StepAwake(Play(Start(priorities, channels, bufferSize, minBuffer), front), e);
    }
  }

  lemma StepAwake<K, C>(s: Sys<K, C>, e: Event<K, C>)
    requires SysOk(s) && AllAwake(s.layer)
    ensures AllAwake(Step(s, e).layer)
  {
    hide AllAwake, SR.Sound, SR.Enabled, SR.Do, R.Step;
    if e.Local? { StepWakes(s.layer, e.op); }
  }

  /** With nothing waited for and nothing left to read, all that was written has been read. */
  lemma AllRead<K, C>(s: Sys<K, C>, k: K)
    requires Calm(s, k) && k in s.layer.streams && k in s.rx
    requires s.layer.streams[k].waiting == {} && Flat(s.rx[k].rx.segments) == []
    ensures k in s.written && s.rx[k].read == s.written[k]
  {
    ReceiverFacts(s, k);
    hide SysOk, AllAwake, Origins, Cuts, Proofs.Accounts, R.Settled, R.CoveredBy, Whole;
    forall p: nat | p < |s.written[k]| ensures R.CoveredBy(s.rx[k].received, p) { ArrivedByte(s, k, p); }
    AllOut(s.rx[k], s.written[k]);
  }

  lemma AllOut(r: R.Run, stream: seq<byte>)
    requires R.Settled(r, stream) && Whole(r.rx, r.read, stream)
    requires R.Covered(r.received, |stream|) && Flat(r.rx.segments) == []
    ensures r.read == stream
  {
    if !r.rx.endRead {
      if r.rx.byteSeq < |stream| {
        assert R.CoveredBy(r.received, r.rx.byteSeq);
        var g :| g in r.received && g.Covers(r.rx.byteSeq);
        NotBeyond(r, stream, g);
      }
      assert stream[..|stream|] == stream;
    }
  }

  /** Nothing is waited for and all that was written to the stream has been read. */
  ghost predicate Complete<K, C>(s: Sys<K, C>, k: K) {
    && k in s.layer.streams && k in s.rx && k in s.written
    && s.layer.streams[k].waiting == {} && s.rx[k].read == s.written[k]
  }

  /** Ordinary events, of which none writes, can complete the stream. */
  ghost predicate Completable<K(!new), C(!new)>(s: Sys<K, C>, k: K) {
    exists more :: Ordinary(more) && Complete(Play(s, more), k)
  }

  /** From a calm state the stream can be completed. */
  lemma Completes<K, C>(s: Sys<K, C>, c: C, k: K) returns (more: seq<Event<K, C>>)
    requires Fine(s, c, k)
    ensures Ordinary(more) && Complete(Play(s, more), k)
  {
    hide Play, Calm;
    var u, first := SendAll(s, c, k);
    var v, second := AckAll(u, c, k);
    var t, third := ReadAll(v, c, k);
    AllRead(t, k);
    LaterThen(s, u, v, first, second);
    LaterThen(s, v, t, first + second, third);
    more := first + second + third;
  }

  /** A stream that is spoilt is never read to its end, whatever happens, more writes included. */
  lemma {:induction false} SpoiltForGood<K, C>(s: Sys<K, C>, more: seq<Event<K, C>>, k: K)
    requires SysOk(s) && Origins(s, k)
    ensures SysOk(Play(s, more)) && Origins(Play(s, more), k)
    ensures !Unspoilt(s, k) ==> !Unspoilt(Play(s, more), k)
    decreases |more|
  {
    hide SysOk, Origins, Unspoilt, Step;
    if more != [] {
      SpoiltForGood(s, more[..|more| - 1], k);
      StepOk(Play(s, more[..|more| - 1]), more[|more| - 1]);
      StepUnspoiltExactly(Play(s, more[..|more| - 1]), more[|more| - 1], k);
    }
  }

  lemma CompleteIsUnspoilt<K, C>(s: Sys<K, C>, k: K)
    requires SysOk(s) && Origins(s, k) && Complete(s, k)
    ensures Unspoilt(s, k)
  {
    ReceiverFacts(s, k);
    hide SysOk, Proofs.Accounts, Cuts, Whole, Sourced, Parted;
    ReadIsWhole(s.rx[k].rx, s.rx[k].read, s.written[k]);
  }

  lemma CompletableExactly<K(!new), C(!new)>(s: Sys<K, C>, k: K)
    requires SysOk(s) && AllAwake(s.layer) && !s.layer.failed && Origins(s, k)
    requires k in s.layer.streams && s.layer.Current(k).Some?
    ensures Completable(s, k) <==> Unspoilt(s, k)
  {
    hide Play, SysOk, Origins, Unspoilt, AllAwake, Complete, Ordinary;
    if Unspoilt(s, k) {
      StartsFine(s, s.layer.Current(k).value, k);
      var more := Completes(s, s.layer.Current(k).value, k);
    }
    if Completable(s, k) {
      var more :| Ordinary(more) && Complete(Play(s, more), k);
      SpoiltForGood(s, more, k);
      CompleteIsUnspoilt(Play(s, more), k);
    }
  }

  /**
   From every reachable state of a host that has not stopped, an attached stream can be completed by finitely many
   arrivals, acknowledgments, turns of its channel and reads if and only if no event so far has spoilt it.
   */
  lemma CompletionExactly<K(!new), C(!new)>(
      priorities: map<K, nat>, channels: set<C>, bufferSize: int, minBuffer: nat, events: seq<Event<K, C>>, k: K)
    requires var s := Play(Start(priorities, channels, bufferSize, minBuffer), events);
             !s.layer.failed && k in s.layer.streams && s.layer.Current(k).Some?
    ensures var s := Play(Start(priorities, channels, bufferSize, minBuffer), events);
            && (Completable(s, k) <==> Unspoilt(s, k))
            && (Completable(s, k) <==> !SpoiltIn(Start(priorities, channels, bufferSize, minBuffer), events, k))
  {
    hide Play, Start, SysOk, Origins, Unspoilt, SpoiltIn, AllAwake, Completable;
    RunOk(priorities, channels, bufferSize, minBuffer, events);
    RunUnspoiltExactly(priorities, channels, bufferSize, minBuffer, events, k);
    PlayAwake(priorities, channels, bufferSize, minBuffer, events);
    CompletableExactly(Play(Start(priorities, channels, bufferSize, minBuffer), events), k);
  }

  /** In particular when nothing was written after a closing write, as write_data is meant to ensure. */
  lemma ClosedAtEndCompletes<K(!new), C(!new)>(
      priorities: map<K, nat>, channels: set<C>, bufferSize: int, minBuffer: nat, events: seq<Event<K, C>>, k: K)
    requires var s := Play(Start(priorities, channels, bufferSize, minBuffer), events);
             !s.layer.failed && NothingAfterClose(s, k) && s.layer.Current(k).Some?
    ensures Completable(Play(Start(priorities, channels, bufferSize, minBuffer), events), k)
  {
    var s := Play(Start(priorities, channels, bufferSize, minBuffer), events);
    RunOk(priorities, channels, bufferSize, minBuffer, events);
    RunUnspoiltExactly(priorities, channels, bufferSize, minBuffer, events, k);
    hide Play, Start, SysOk, Origins, Unspoilt, SpoiltIn, Completable;
    ClosedAtEnd(s, k);
    CompletionExactly(priorities, channels, bufferSize, minBuffer, events, k);
  }

  lemma StartsFine<K, C>(s: Sys<K, C>, c: C, k: K)
    requires SysOk(s) && AllAwake(s.layer) && !s.layer.failed && Origins(s, k) && Unspoilt(s, k)
    requires k in s.layer.streams && s.layer.Current(k) == Some(c)
    ensures Fine(s, c, k)
  {
    hide SR.Sound, SR.Healthy, Origins, Unspoilt, AllAwake;
    SR.SoundIsHealthy(s.layer);
    SlotOnHost(s.layer, c, k);
  }

  lemma SlotOnHost<K, C>(l: Layer<K, C>, c: C, k: K)
    requires SR.Healthy(l) && k in l.streams && l.Current(k) == Some(c)
    ensures c in l.channels
  {
    hide Inv;
    SlotKnown(l, k);
  }
}
