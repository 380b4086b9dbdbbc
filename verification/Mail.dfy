// Messages and receipts (src/service.c, and the routing in src/ltask.c).
//
// Services run, post, receive and read receipts in any interleaving with the
// scheduler, which routes one finished service at a time.
module Mail {

  const ROOT := 1

  // What a message asks for. Death signals and the ticks of a service with a
  // sockevent are made by the system.
  datatype Kind = To(to: nat) | New | Delete(id: nat) | Unknown | Signal | Tick

  datatype Message = Message(tag: nat, kind: Kind)

  datatype Slot = Empty | Full(m: Message)

  datatype Receipt = NoReceipt | RDone | RError | RBlock | RResponse

  datatype Status = Absent | Uninitialized | Idle | Schedule | Running | Done | Dead

  // struct service: mailbox, outgoing message, receipt and bounced message.
  // `waits`: it posted a message and has not read the receipt yet.
  datatype Service = Service(status: Status, inbox: seq<Message>, out: Slot, receipt: Receipt, bounce: Slot, waits: bool)

  const NOBODY := Service(Absent, [], Empty, NoReceipt, Empty, false)

  // dispath_out_messages for service x: message taken, message delivered and
  // receipt written, recipient checked.
  datatype Phase = Free | Routing(x: nat, m: Message) | Checking(x: nat, to: nat) | Settling(x: nat) | Reporting(x: nat)

  // A message given to Lua: out of the mailbox of x, bounced to it, or with its
  // receipt.
  datatype Way = Popped | Bounced | WithReceipt
  datatype Taken = Taken(x: nat, m: Message, way: Way)

  // `taken`: given to Lua, and `log`: how, in order. `deleted`: freed. `lost`:
  // neither kept nor freed. `overwritten`: receipts replaced before they were
  // read.
  datatype Pool = Pool(
    s: seq<Service>, phase: Phase, capacity: nat,
    posted: multiset<Message>, taken: multiset<Message>, deleted: multiset<Message>, lost: multiset<Message>,
    overwritten: nat, log: seq<Taken>)

  datatype Event =
    | Start(x: nat)               // a worker resumes the service
    | Post(x: nat, m: Message)    // service_send_message
    | Receive(x: nat)             // service_pop_message
    | Read(x: nat)                // service_read_receipt
    | Yield(x: nat)
    | Exit(x: nat)                // and service_send_signal
    | Init(x: nat)                // root makes a new service runnable
    | Close(x: nat)               // root closes a dead service, or one it could not set up
    | Take(x: nat)                // the scheduler starts on a finished service
    | Push(slot: nat)             //   ... delivers; a new service gets `slot`
    | Check                       //   ... check_message_to
    | Settle(idle: bool)          //   ... back to the queue or idle; `idle`: it has a sockevent

  // ----------------------------------------------------------------- helpers

  function At(p: Pool, x: nat): Service {
    if x < |p.s| then p.s[x] else NOBODY
  }

  function Put(p: Pool, x: nat, v: Service): Pool {
    if x < |p.s| then p.(s := p.s[x := v]) else p
  }

  function Bag(slot: Slot): multiset<Message> {
    match slot
    case Empty => multiset{}
    case Full(m) => multiset{m}
  }

  // The message of a slot is given to Lua.
  function Give(p: Pool, x: nat, slot: Slot, way: Way): Pool {
    match slot
    case Empty => p
    case Full(m) => p.(taken := p.taken + multiset{m}, log := p.log + [Taken(x, m, way)])
  }

  // service_write_receipt; an unread receipt is replaced, its message freed
  function WriteReceipt(p: Pool, x: nat, receipt: Receipt, bounce: Slot): Pool
    requires x < |p.s|
  {
    var v := p.s[x];
    if v.receipt == NoReceipt then Put(p, x, v.(receipt := receipt, bounce := bounce))
    else Put(p, x, v.(receipt := receipt, bounce := bounce)).(deleted := p.deleted + Bag(v.bounce), overwritten := p.overwritten + 1)
  }

  // service_has_message
  function HasMessage(v: Service): bool {
    v.receipt != NoReceipt || v.inbox != []
  }

  // service_delete with free_service
  function Free1(p: Pool, x: nat): Pool
    requires x < |p.s|
  {
    var v := p.s[x];
    Put(p, x, NOBODY).(deleted := p.deleted + multiset(v.inbox) + Bag(v.out) + Bag(v.bounce))
  }

  // The scheduler has service x in hand.
  predicate Busy(phase: Phase, x: nat) {
    !phase.Free? && phase.x == x
  }

  // ------------------------------------------------------- a service's steps

  function ServiceStep(p: Pool, e: Event): Pool
    requires !e.Take? && !e.Push? && !e.Check? && !e.Settle?
  {
    var v := At(p, e.x);
    match e
    case Start(x) => if v.status == Schedule then Put(p, x, v.(status := Running)) else p
    case Post(x, m) =>
      if v.status != Running || m.kind.Signal? || m.kind.Tick? then p
      else if v.out == Empty then Put(p, x, v.(out := Full(m), waits := true)).(posted := p.posted + multiset{m})
      else p.(posted := p.posted + multiset{m}, deleted := p.deleted + multiset{m})
    case Receive(x) =>
      if v.status != Running then p
      else if v.bounce != Empty then Give(Put(p, x, v.(bounce := Empty)), x, v.bounce, Bounced)
      else if v.inbox != [] then Give(Put(p, x, v.(inbox := v.inbox[1..])), x, Full(v.inbox[0]), Popped)
      else p
    case Read(x) =>
      if v.status != Running || v.receipt == NoReceipt then p
      else Give(Put(p, x, v.(receipt := NoReceipt, bounce := Empty, waits := false)), x, v.bounce, WithReceipt)
    case Yield(x) => if v.status == Running then Put(p, x, v.(status := Done)) else p
    case Exit(x) =>
      if v.status != Running then p
      else if x == ROOT then Put(p, x, v.(status := Dead))
      else
        var signal := Message(x, Signal);
        Put(p, x, v.(status := Dead, out := Full(signal))).(deleted := p.deleted + Bag(v.out), posted := p.posted + multiset{signal})
    case Init(x) => if v.status == Uninitialized then Put(p, x, v.(status := Idle)) else p
    case Close(x) =>
      if x < |p.s| && x != ROOT && ((v.status == Dead && v.out == Empty && !Busy(p.phase, x)) || v.status == Uninitialized) then
        Free1(p, x)
      else p
  }

  // ----------------------------------------------------- the scheduler's steps

  // service_message_out
  function TakeStep(p: Pool, x: nat): Pool {
    var v := At(p, x);
    if p.phase != Free || x >= |p.s| then p
    else if v.status == Done then
      match v.out
      case Empty => p.(phase := Settling(x))
      case Full(m) => Put(p, x, v.(out := Empty)).(phase := Routing(x, m))
    else if v.status == Dead && v.out != Empty && x != ROOT then
      Put(p, x, v.(out := Empty)).(phase := Routing(x, v.out.m))
    else p
  }

  // dispatch_out_message up to check_message_to, and the report of a death
  function PushStep(p: Pool, slot: nat): Pool {
    if !p.phase.Routing? || p.phase.x >= |p.s| then p
    else
      var Routing(x, m) := p.phase;
      if p.s[x].status == Dead then Report(p, x, m)
      else match m.kind
        case To(to) => Deliver(p, x, m, to)
        case _ => ScheduleMessage(p, x, m, slot).(phase := Settling(x))
  }

  // service_push_message and the receipt
  function Deliver(p: Pool, x: nat, m: Message, to: nat): Pool
    requires x < |p.s|
  {
    var v := At(p, to);
    var t :=
      if v.status == Absent || v.status == Dead then WriteReceipt(p, x, RError, Full(m))
      else if |v.inbox| >= p.capacity then WriteReceipt(p, x, RBlock, Full(m))
      else
        var q := Put(p, to, v.(inbox := v.inbox + [m]));
        WriteReceipt(q, x, RDone, Empty);
    t.(phase := Checking(x, to))
  }

  // dispatch_schedule_message
  function ScheduleMessage(p: Pool, x: nat, m: Message, slot: nat): Pool
    requires x < |p.s|
  {
    if x != ROOT then WriteReceipt(p, x, RError, Full(m))
    else match m.kind
      case New =>
        if slot < |p.s| && slot != 0 && p.s[slot].status == Absent then
          WriteReceipt(Put(p, slot, NOBODY.(status := Uninitialized)), x, RResponse, Full(m))
        else WriteReceipt(p, x, RError, Full(m))
      case Delete(id) =>
        var q := if id < |p.s| && id != x then Free1(p, id) else p;
        WriteReceipt(q.(deleted := q.deleted + multiset{m}), x, RDone, Empty)
      case _ => WriteReceipt(p, x, RError, Full(m))
  }

  // The death of x is reported to root, when root can take it.
  function Report(p: Pool, x: nat, m: Message): Pool
    requires x < |p.s|
  {
    var root := At(p, ROOT);
    if root.status == Absent || root.status == Dead then Free1(p, x).(lost := p.lost + multiset{m}, phase := Free)
    else if |root.inbox| >= p.capacity then p.(lost := p.lost + multiset{m}, phase := Free)
    else Put(p, ROOT, root.(inbox := root.inbox + [m])).(phase := Reporting(x))
  }

  // check_message_to
  function CheckStep(p: Pool): Pool {
    match p.phase
    case Checking(x, to) => WakeUp(p, to).(phase := Settling(x))
    case Reporting(x) => WakeUp(p, ROOT).(phase := Free)
    case _ => p
  }

  function WakeUp(p: Pool, to: nat): Pool {
    if At(p, to).status == Idle then Put(p, to, At(p, to).(status := Schedule)) else p
  }

  function SettleStep(p: Pool, idle: bool): Pool {
    if !p.phase.Settling? || At(p, p.phase.x).status != Done then p
    else
      var x := p.phase.x;
      var v := At(p, x);
      if HasMessage(v) then Put(p, x, v.(status := Schedule)).(phase := Free)
      else if idle then
        var tick := Message(x, Tick);
        Put(p, x, v.(status := Schedule, inbox := [tick])).(phase := Free, posted := p.posted + multiset{tick})
      else Put(p, x, v.(status := Idle)).(phase := Free)
  }

  function Step(p: Pool, e: Event): Pool {
    match e
    case Take(x) => TakeStep(p, x)
    case Push(slot) => PushStep(p, slot)
    case Check => CheckStep(p)
    case Settle(idle) => SettleStep(p, idle)
    case _ => ServiceStep(p, e)
  }

  function Run(p: Pool, events: seq<Event>): Pool
    decreases |events|
  {
    if events == [] then p else Run(Step(p, events[0]), events[1..])
  }

  // ------------------------------------------------------------- conservation

  // How often m is with service v ...
  function Held(v: Service, m: Message): nat {
    multiset(v.inbox)[m] + Bag(v.out)[m] + Bag(v.bounce)[m]
  }

  // ... and with all of them.
  function HeldByAll(s: seq<Service>, m: Message): nat {
    if s == [] then 0 else Held(s[0], m) + HeldByAll(s[1..], m)
  }

  function InHand(phase: Phase, m: Message): nat {
    if phase.Routing? && phase.m == m then 1 else 0
  }

  function Places(p: Pool, m: Message): nat {
    HeldByAll(p.s, m) + InHand(p.phase, m) + p.taken[m] + p.deleted[m] + p.lost[m]
  }

  ghost predicate Conserved(p: Pool) {
    forall m :: Places(p, m) == p.posted[m]
  }

  lemma {:induction false} Replace(s: seq<Service>, x: nat, v: Service, m: Message)
    requires x < |s|
    ensures HeldByAll(s[x := v], m) + Held(s[x], m) == HeldByAll(s, m) + Held(v, m)
  {
    if x > 0 {
      assert s[x := v][1..] == s[1..][x - 1 := v];
      Replace(s[1..], x - 1, v, m);
    } else {
      assert s[x := v][1..] == s[1..];
    }
  }

  // The statuses fit the slots.
  predicate Shape(x: nat, v: Service) {
    (v.receipt == NoReceipt ==> v.bounce == Empty) &&
    match v.status
    case Absent => v == NOBODY
    case Dead => v.out == Empty || v.out.m.kind == Signal || x == ROOT
    case Running => v.out == Empty || v.out.m.kind != Signal
    case Done => v.out == Empty || v.out.m.kind != Signal
    case _ => v.out == Empty
  }

  predicate PhaseFits(p: Pool) {
    match p.phase
    case Free => true
    case Routing(x, m) =>
      x < |p.s| && p.s[x].out == Empty &&
      ((p.s[x].status == Done && m.kind != Signal) || (p.s[x].status == Dead && m.kind == Signal))
    case Checking(x, _) => x < |p.s| && p.s[x].out == Empty && p.s[x].status == Done
    case Settling(x) => x < |p.s| && p.s[x].out == Empty && p.s[x].status == Done
    case Reporting(x) => x < |p.s| && p.s[x].out == Empty && p.s[x].status == Dead
  }

  // A service that posted and did not read its receipt has one coming.
  predicate ReceiptDue(p: Pool, x: nat)
    requires x < |p.s|
  {
    var v := p.s[x];
    v.waits && v.status != Dead ==> v.out != Empty || v.receipt != NoReceipt || (p.phase.Routing? && p.phase.x == x)
  }

  // Idle means nothing to do, but for the moment before check_message_to.
  predicate IdleMeansIdle(p: Pool, x: nat)
    requires x < |p.s|
  {
    p.s[x].status == Idle && HasMessage(p.s[x]) ==>
      (p.phase.Checking? && p.phase.to == x) || (p.phase.Reporting? && x == ROOT)
  }

  ghost predicate Inv(p: Pool) {
    && Conserved(p) && p.capacity > 0
    && (forall x | 0 <= x < |p.s| :: Shape(x, p.s[x]))
    && PhaseFits(p)
    && (forall x | 0 <= x < |p.s| :: ReceiptDue(p, x) && IdleMeansIdle(p, x))
    && (forall m | m in p.lost :: m.kind == Signal)
    && (forall x | 0 <= x < |p.s| && p.s[x].status == Uninitialized :: !HasMessage(p.s[x]))
  }

  // What is outside the services.
  function Elsewhere(p: Pool, m: Message): nat {
    InHand(p.phase, m) + p.taken[m] + p.deleted[m] + p.lost[m]
  }

  // A step that changes service x keeps the books.
  lemma Balance(p: Pool, t: Pool, x: nat, v: Service)
    requires Conserved(p) && x < |p.s| && t.s == p.s[x := v]
    requires forall m :: Held(v, m) + Elsewhere(t, m) + p.posted[m] == Held(p.s[x], m) + Elsewhere(p, m) + t.posted[m]
    ensures Conserved(t)
  {
    hide Held, InHand;
    forall m ensures Places(t, m) == t.posted[m] {
      Replace(p.s, x, v, m);
      assert Places(p, m) == p.posted[m];
      assert Held(v, m) + Elsewhere(t, m) + p.posted[m] == Held(p.s[x], m) + Elsewhere(p, m) + t.posted[m];
    }
  }

  // Services and roles that did not change stay right.
  lemma OthersKeep(p: Pool, t: Pool, x: nat, v: Service)
    requires Inv(p) && x < |p.s| && t.s == p.s[x := v] && t.capacity == p.capacity && t.lost == p.lost
    requires t.phase == p.phase && Conserved(t)
    requires Shape(x, v) && PhaseFits(t) && ReceiptDue(t, x) && IdleMeansIdle(t, x)
    requires v.status == Uninitialized ==> !HasMessage(v)
    ensures Inv(t)
  {
    hide Conserved, HasMessage, Shape, PhaseFits;
    forall y | 0 <= y < |p.s| ensures ReceiptDue(t, y) && IdleMeansIdle(t, y) {
      assert ReceiptDue(p, y) && IdleMeansIdle(p, y);
    }
  }

  predicate Scheduler(e: Event) {
    e.Take? || e.Push? || e.Check? || e.Settle?
  }

  lemma HeadOf(inbox: seq<Message>, m: Message)
    requires inbox != []
    ensures multiset(inbox)[m] == multiset{inbox[0]}[m] + multiset(inbox[1..])[m]
  {
    assert inbox == [inbox[0]] + inbox[1..];
  }

  // A step of a service that moves no message.
  lemma QuietStep(p: Pool, x: nat, v: Service)
    requires Inv(p) && x < |p.s| && Shape(x, v) && v == p.s[x].(status := v.status)
    requires PhaseFits(Put(p, x, v)) && ReceiptDue(Put(p, x, v), x)
    requires v.status != Idle || !HasMessage(v)
    requires v.status == Uninitialized ==> !HasMessage(v)
    ensures Inv(Put(p, x, v))
  {
    hide Conserved, HasMessage, Shape, PhaseFits;
    var t := Put(p, x, v);
    Balance(p, t, x, v);
    OthersKeep(p, t, x, v);
  }

  // A step of a service that moves messages, all accounted for.
  lemma MovingStep(p: Pool, t: Pool, x: nat, v: Service)
    requires Inv(p) && x < |p.s| && Shape(x, v) && v.status != Idle && v.status != Uninitialized
    requires t == p.(s := p.s[x := v], posted := t.posted, taken := t.taken, deleted := t.deleted, log := t.log)
    requires PhaseFits(t) && ReceiptDue(t, x)
    requires forall m :: Held(v, m) + Elsewhere(t, m) + p.posted[m] == Held(p.s[x], m) + Elsewhere(p, m) + t.posted[m]
    ensures Inv(t)
  {
    hide Conserved, HasMessage, Shape, PhaseFits, Elsewhere, Held;
    Balance(p, t, x, v);
    OthersKeep(p, t, x, v);
  }

  // The service the scheduler has in hand is done or dead, so it does not move.
  lemma NotInHand(p: Pool, x: nat)
    requires Inv(p) && x < |p.s| && p.s[x].status != Done && p.s[x].status != Dead
    ensures !Busy(p.phase, x)
  {
    hide Conserved;
  }

  lemma StatusKeeps(p: Pool, e: Event)
    requires Inv(p) && (e.Start? || e.Yield? || e.Init?)
    ensures Inv(ServiceStep(p, e))
  {
    hide Conserved;
    var x := e.x;
    if x < |p.s| && ServiceStep(p, e) != p {
      assert Shape(x, p.s[x]) && ReceiptDue(p, x) && IdleMeansIdle(p, x);
      NotInHand(p, x);
      QuietStep(p, x, ServiceStep(p, e).s[x]);
    }
  }

  lemma PostKeeps(p: Pool, x: nat, m: Message)
    requires Inv(p)
    ensures Inv(ServiceStep(p, Post(x, m)))
  {
    hide Conserved;
    var t := ServiceStep(p, Post(x, m));
    if x < |p.s| && t != p {
      assert Shape(x, p.s[x]) && ReceiptDue(p, x);
      NotInHand(p, x);
      assert t.s == p.s[x := t.s[x]];
      MovingStep(p, t, x, t.s[x]);
    }
  }

  lemma PopKeeps(p: Pool, x: nat)
    requires Inv(p) && x < |p.s| && p.s[x].status == Running && p.s[x].inbox != []
    ensures var v := p.s[x];
      Inv(Give(Put(p, x, v.(inbox := v.inbox[1..])), x, Full(v.inbox[0]), Popped))
  {
    hide Conserved, Held;
    var v := p.s[x];
    assert Shape(x, v) && ReceiptDue(p, x);
    var w := v.(inbox := v.inbox[1..]);
    forall m ensures Held(w, m) + multiset{v.inbox[0]}[m] == Held(v, m) { PopHeld(v, m); }
    MovingStep(p, Give(Put(p, x, w), x, Full(v.inbox[0]), Popped), x, w);
  }

  lemma PopHeld(v: Service, m: Message)
    requires v.inbox != []
    ensures Held(v.(inbox := v.inbox[1..]), m) + multiset{v.inbox[0]}[m] == Held(v, m)
  {
    HeadOf(v.inbox, m);
  }

  lemma ReceiveKeeps(p: Pool, x: nat)
    requires Inv(p)
    ensures Inv(ServiceStep(p, Receive(x)))
  {
    hide Conserved, Held;
    var t := ServiceStep(p, Receive(x));
    if x < |p.s| && t != p {
      var v := p.s[x];
      if v.bounce != Empty {
        BounceTaken(p, x);
      } else {
        PopKeeps(p, x);
      }
    }
  }

  lemma BounceTaken(p: Pool, x: nat)
    requires Inv(p) && x < |p.s| && p.s[x].status == Running
    ensures Inv(Give(Put(p, x, p.s[x].(bounce := Empty)), x, p.s[x].bounce, Bounced))
  {
    hide Conserved;
    var v := p.s[x];
    assert Shape(x, v) && ReceiptDue(p, x);
    var w := v.(bounce := Empty);
    MovingStep(p, Give(Put(p, x, w), x, v.bounce, Bounced), x, w);
  }

  lemma ReadKeeps(p: Pool, x: nat)
    requires Inv(p)
    ensures Inv(ServiceStep(p, Read(x)))
  {
    hide Conserved;
    var t := ServiceStep(p, Read(x));
    if x < |p.s| && t != p {
      assert Shape(x, p.s[x]) && ReceiptDue(p, x);
      NotInHand(p, x);
      assert t.s == p.s[x := t.s[x]];
      MovingStep(p, t, x, t.s[x]);
    }
  }

  lemma RootExits(p: Pool)
    requires Inv(p) && ROOT < |p.s| && p.s[ROOT].status == Running
    ensures Inv(Put(p, ROOT, p.s[ROOT].(status := Dead)))
  {
    hide Conserved;
    assert Shape(ROOT, p.s[ROOT]) && ReceiptDue(p, ROOT);
    NotInHand(p, ROOT);
    QuietStep(p, ROOT, p.s[ROOT].(status := Dead));
  }

  lemma OtherExits(p: Pool, x: nat)
    requires Inv(p) && x < |p.s| && p.s[x].status == Running
    ensures var v, signal := p.s[x], Message(x, Signal);
      Inv(Put(p, x, v.(status := Dead, out := Full(signal))).(deleted := p.deleted + Bag(v.out), posted := p.posted + multiset{signal}))
  {
    hide Conserved;
    var v, signal := p.s[x], Message(x, Signal);
    assert Shape(x, v) && ReceiptDue(p, x);
    NotInHand(p, x);
    var w := v.(status := Dead, out := Full(signal));
    MovingStep(p, Put(p, x, w).(deleted := p.deleted + Bag(v.out), posted := p.posted + multiset{signal}), x, w);
  }

  lemma ExitKeeps(p: Pool, x: nat)
    requires Inv(p)
    ensures Inv(ServiceStep(p, Exit(x)))
  {
    hide Inv;
    if x < |p.s| && p.s[x].status == Running {
      if x == ROOT { RootExits(p); } else { OtherExits(p, x); }
    }
  }

  lemma FreeKeeps(p: Pool, x: nat)
    requires Inv(p) && x < |p.s| && x != ROOT
    requires (p.s[x].status == Dead && p.s[x].out == Empty && !Busy(p.phase, x)) || p.s[x].status == Uninitialized
    ensures Inv(Free1(p, x))
  {
    hide Conserved;
    assert Shape(x, p.s[x]) && ReceiptDue(p, x);
    if p.s[x].status == Uninitialized { NotInHand(p, x); }
    MovingStep(p, Free1(p, x), x, NOBODY);
  }

  lemma CloseKeeps(p: Pool, x: nat)
    requires Inv(p)
    ensures Inv(ServiceStep(p, Close(x)))
  {
    hide Inv;
    if x < |p.s| && ServiceStep(p, Close(x)) != p { FreeKeeps(p, x); }
  }

  lemma ServiceKeeps(p: Pool, e: Event)
    requires Inv(p) && !Scheduler(e)
    ensures Inv(ServiceStep(p, e))
  {
    hide Inv, ServiceStep;
    match e {
      case Start(_) => StatusKeeps(p, e);
      case Yield(_) => StatusKeeps(p, e);
      case Init(_) => StatusKeeps(p, e);
      case Post(x, m) => PostKeeps(p, x, m);
      case Receive(x) => ReceiveKeeps(p, x);
      case Read(x) => ReadKeeps(p, x);
      case Exit(x) => ExitKeeps(p, x);
      case Close(x) => CloseKeeps(p, x);
    }
  }

  // ----------------------------------------------------- the scheduler's steps

  // What a recipient must be: set up, when something is sent to it.
  predicate Ready(p: Pool, e: Event) {
    e.Push? && p.phase.Routing? ==>
      && (p.phase.m.kind.To? ==> At(p, p.phase.m.kind.to).status != Uninitialized)
      && (p.phase.m.kind.Signal? ==> At(p, ROOT).status != Uninitialized)
  }

  // All but the books.
  ghost predicate Fits(p: Pool) {
    && p.capacity > 0 && PhaseFits(p)
    && (forall x | 0 <= x < |p.s| :: Shape(x, p.s[x]) && ReceiptDue(p, x) && IdleMeansIdle(p, x))
    && (forall m | m in p.lost :: m.kind == Signal)
    && (forall x | 0 <= x < |p.s| && p.s[x].status == Uninitialized :: !HasMessage(p.s[x]))
  }

  lemma InvIs(p: Pool)
    ensures Inv(p) <==> Conserved(p) && Fits(p)
  {
    hide Conserved, Shape, PhaseFits, ReceiptDue, IdleMeansIdle, HasMessage;
  }

  // The scheduler changes service x, which it has in hand, and its phase.
  lemma PhaseKeeps(p: Pool, t: Pool, x: nat, v: Service)
    requires Fits(p) && x < |p.s| && t.s == p.s[x := v] && t.capacity == p.capacity
    requires Shape(x, v) && ReceiptDue(t, x) && IdleMeansIdle(t, x) && (v.status == Uninitialized ==> !HasMessage(v))
    requires PhaseFits(t) && (p.phase.Routing? ==> p.phase.x == x)
    requires p.phase.Checking? ==> p.phase.to == x || At(p, p.phase.to).status != Idle
    requires p.phase.Reporting? ==> ROOT == x || At(p, ROOT).status != Idle
    requires forall m | m in t.lost :: m.kind == Signal
    ensures Fits(t)
  {
    hide HasMessage, Shape, PhaseFits;
    forall y | 0 <= y < |p.s| && y != x ensures ReceiptDue(t, y) && IdleMeansIdle(t, y) {
      assert ReceiptDue(p, y) && IdleMeansIdle(p, y);
    }
  }

  // The message of x is taken out of its slot.
  lemma TakeMessage(p: Pool, x: nat, m: Message)
    requires Inv(p) && p.phase == Free && x < |p.s| && p.s[x].out == Full(m)
    requires p.s[x].status == Done || (p.s[x].status == Dead && x != ROOT)
    ensures Inv(Put(p, x, p.s[x].(out := Empty)).(phase := Routing(x, m)))
  {
    hide Conserved, Fits, HasMessage;
    InvIs(p);
    FitsAt(p, x);
    var v := p.s[x].(out := Empty);
    var t := p.(s := p.s[x := v], phase := Routing(x, m));
    Balance(p, t, x, v);
    PhaseKeeps(p, t, x, v);
    InvIs(t);
  }

  lemma TakeNothing(p: Pool, x: nat)
    requires Inv(p) && p.phase == Free && x < |p.s| && p.s[x].out == Empty && p.s[x].status == Done
    ensures Inv(p.(phase := Settling(x)))
  {
    hide Conserved, Fits, HasMessage;
    InvIs(p);
    FitsAt(p, x);
    var t := p.(phase := Settling(x));
    assert t.s == p.s[x := p.s[x]];
    Balance(p, t, x, p.s[x]);
    PhaseKeeps(p, t, x, p.s[x]);
    InvIs(t);
  }

  lemma TakeKeeps(p: Pool, x: nat)
    requires Inv(p)
    ensures Inv(TakeStep(p, x))
  {
    hide Inv;
    if TakeStep(p, x) != p {
      if p.s[x].out == Empty { TakeNothing(p, x); } else { TakeMessage(p, x, p.s[x].out.m); }
    }
  }

  lemma FitsAt(p: Pool, x: nat)
    requires Fits(p) && x < |p.s|
    ensures Shape(x, p.s[x]) && ReceiptDue(p, x) && IdleMeansIdle(p, x) && PhaseFits(p) && p.capacity > 0
    ensures p.s[x].status == Uninitialized ==> !HasMessage(p.s[x])
    ensures forall m | m in p.lost :: m.kind == Signal
  {
  }

  // service_write_receipt keeps the books: what it bounces comes out of hand.
  lemma ReceiptBalance(p: Pool, x: nat, receipt: Receipt, bounce: Slot, phase: Phase)
    requires x < |p.s| && !phase.Routing? && p.phase.Routing?
    requires Conserved(p) && (bounce == Full(p.phase.m))
    requires p.s[x].receipt == NoReceipt ==> p.s[x].bounce == Empty
    ensures Conserved(WriteReceipt(p, x, receipt, bounce).(phase := phase))
  {
    hide Conserved;
    var t := WriteReceipt(p, x, receipt, bounce).(phase := phase);
    var v := p.s[x].(receipt := receipt, bounce := bounce);
    assert t.s == p.s[x := v];
    Balance(p, t, x, v);
  }

  // check_message_to puts an idle service with a message back in the queue.
  lemma CheckKeeps(p: Pool)
    requires Inv(p)
    ensures Inv(CheckStep(p))
  {
    hide Conserved, Fits;
    InvIs(p);
    var t := CheckStep(p);
    if p.phase.Checking? || p.phase.Reporting? {
      FitsPhase(p);
      var to := if p.phase.Checking? then p.phase.to else ROOT;
      var x := if to < |p.s| then to else p.phase.x;
      FitsAt(p, x);
      FitsAt(p, p.phase.x);
      var v := if At(p, to).status == Idle then p.s[x].(status := Schedule) else p.s[x];
      assert t.s == p.s[x := v];
      CheckFits(p, to, x, v);
      InvIs(t);
    }
  }

  lemma CheckFits(p: Pool, to: nat, x: nat, v: Service)
    requires (p.phase.Checking? && to == p.phase.to) || (p.phase.Reporting? && to == ROOT)
    requires Conserved(p) && Fits(p) && x < |p.s| && Shape(x, p.s[x]) && ReceiptDue(p, x) && p.phase.x < |p.s| && PhaseFits(p)
    requires x == if to < |p.s| then to else p.phase.x
    requires v == if At(p, to).status == Idle then p.s[x].(status := Schedule) else p.s[x]
    requires p.s[x].status == Uninitialized ==> !HasMessage(p.s[x])
    requires forall m | m in p.lost :: m.kind == Signal
    ensures var t := p.(s := p.s[x := v], phase := if p.phase.Checking? then Settling(p.phase.x) else Free);
      Conserved(t) && Fits(t)
  {
    hide Conserved, Fits;
    var t := p.(s := p.s[x := v], phase := if p.phase.Checking? then Settling(p.phase.x) else Free);
    Balance(p, t, x, v);
    PhaseKeeps(p, t, x, v);
  }

  lemma FitsPhase(p: Pool)
    requires Fits(p)
    ensures PhaseFits(p)
  {
  }

  lemma SettleKeeps(p: Pool, idle: bool)
    requires Inv(p)
    ensures Inv(SettleStep(p, idle))
  {
    hide Conserved, Fits;
    InvIs(p);
    var t := SettleStep(p, idle);
    if t != p {
      FitsPhase(p);
      var x := p.phase.x;
      FitsAt(p, x);
      var v := t.s[x];
      assert t.s == p.s[x := v];
      Balance(p, t, x, v);
      PhaseKeeps(p, t, x, v);
      InvIs(t);
    }
  }

  // ------------------------------------------------------------------ delivery

  lemma InvAt(p: Pool, x: nat)
    requires Inv(p) && x < |p.s|
    ensures Fits(p) && Conserved(p) && Shape(x, p.s[x]) && ReceiptDue(p, x) && IdleMeansIdle(p, x)
    ensures forall m | m in p.lost :: m.kind == Signal
  {
    hide Conserved, Shape, ReceiptDue, IdleMeansIdle;
  }

  // A receipt is written for the service in hand.
  lemma ReceiptFits(p: Pool, x: nat, receipt: Receipt, bounce: Slot, phase: Phase)
    requires Fits(p) && p.phase.Routing? && p.phase.x == x < |p.s| && p.s[x].status == Done && receipt != NoReceipt
    requires (phase.Checking? || phase.Settling?) && phase.x == x
    ensures Fits(WriteReceipt(p, x, receipt, bounce).(phase := phase))
  {
    hide Fits, HasMessage;
    FitsAt(p, x);
    var v := p.s[x].(receipt := receipt, bounce := bounce);
    var t := WriteReceipt(p, x, receipt, bounce).(phase := phase);
    assert t.s == p.s[x := v];
    PhaseKeeps(p, t, x, v);
  }

  // The message bounces, with a receipt that says why.
  lemma BounceKeeps(p: Pool, x: nat, receipt: Receipt, phase: Phase)
    requires Inv(p) && p.phase.Routing? && p.phase.x == x < |p.s| && p.s[x].status == Done && receipt != NoReceipt
    requires (phase.Checking? || phase.Settling?) && phase.x == x
    ensures Inv(WriteReceipt(p, x, receipt, Full(p.phase.m)).(phase := phase))
  {
    hide Conserved, Fits, WriteReceipt;
    InvAt(p, x);
    ReceiptFits(p, x, receipt, Full(p.phase.m), phase);
    ReceiptBalance(p, x, receipt, Full(p.phase.m), phase);
    InvIs(WriteReceipt(p, x, receipt, Full(p.phase.m)).(phase := phase));
  }

  // A receipt without a message: the one in hand has gone elsewhere.
  lemma DoneBalance(p: Pool, x: nat, phase: Phase)
    requires x < |p.s| && Conserved(p) && !p.phase.Routing? && !phase.Routing?
    requires p.s[x].receipt == NoReceipt ==> p.s[x].bounce == Empty
    ensures Conserved(WriteReceipt(p, x, RDone, Empty).(phase := phase))
  {
    hide Conserved;
    var v := p.s[x].(receipt := RDone, bounce := Empty);
    var t := WriteReceipt(p, x, RDone, Empty).(phase := phase);
    assert t.s == p.s[x := v];
    Balance(p, t, x, v);
  }

  // The message in hand is appended to a mailbox.
  lemma AppendBalance(p: Pool, to: nat, phase: Phase)
    requires to < |p.s| && Conserved(p) && p.phase.Routing? && !phase.Routing?
    ensures Conserved(Put(p, to, p.s[to].(inbox := p.s[to].inbox + [p.phase.m])).(phase := phase))
  {
    hide Conserved;
    var v := p.s[to].(inbox := p.s[to].inbox + [p.phase.m]);
    var t := Put(p, to, v).(phase := phase);
    assert t.s == p.s[to := v];
    Balance(p, t, to, v);
  }

  lemma AppendFits(p: Pool, x: nat, to: nat, m: Message)
    requires Fits(p) && to < |p.s| && (p.phase == Checking(x, to) || (p.phase == Reporting(x) && to == ROOT))
    requires p.s[to].status != Absent && p.s[to].status != Uninitialized
    ensures Fits(Put(p, to, p.s[to].(inbox := p.s[to].inbox + [m])))
  {
    hide Fits;
    FitsAt(p, to);
    FitsPhase(p);
    var v := p.s[to].(inbox := p.s[to].inbox + [m]);
    var t := Put(p, to, v);
    assert t.s == p.s[to := v];
    PhaseKeeps(p, t, to, v);
  }

  // Mailbox and receipt are different fields, in whichever order written.
  lemma Commutes(p: Pool, x: nat, to: nat, m: Message, phase: Phase)
    requires x < |p.s| && to < |p.s|
    ensures var q := Put(p, to, p.s[to].(inbox := p.s[to].inbox + [m]));
      var w := WriteReceipt(p, x, RDone, Empty).(phase := phase);
      to < |w.s| && WriteReceipt(q, x, RDone, Empty).(phase := phase) == Put(w, to, w.s[to].(inbox := w.s[to].inbox + [m])) &&
      w.s[to].status == p.s[to].status
  {
    var v := p.s[to].(inbox := p.s[to].inbox + [m]);
    SwapFields(p.s, x, to, v);
  }

  lemma SwapFields(s: seq<Service>, x: nat, to: nat, v: Service)
    requires x < |s| && to < |s| && v == s[to].(inbox := v.inbox)
    ensures var u := s[x].(receipt := RDone, bounce := Empty);
      var w := s[to := v][x];
      s[to := v][x := w.(receipt := RDone, bounce := Empty)] == s[x := u][to := s[x := u][to].(inbox := v.inbox)]
  {
  }

  lemma DeliverKeeps(p: Pool, x: nat, m: Message, to: nat)
    requires Inv(p) && p.phase == Routing(x, m) && x < |p.s| && p.s[x].status == Done
    requires to < |p.s| && p.s[to].status != Absent && p.s[to].status != Uninitialized
    ensures var q := Put(p, to, p.s[to].(inbox := p.s[to].inbox + [m]));
      Inv(WriteReceipt(q, x, RDone, Empty).(phase := Checking(x, to)))
  {
    hide Conserved, Fits, WriteReceipt, HasMessage;
    InvAt(p, x);
    InvAt(p, to);
    var phase := Checking(x, to);
    var q := Put(p, to, p.s[to].(inbox := p.s[to].inbox + [m]));
    AppendBalance(p, to, phase);
    DoneBalance(q.(phase := phase), x, phase);
    SamePool(q, x, phase);
    ReceiptFits(p, x, RDone, Empty, phase);
    Commutes(p, x, to, m, phase);
    AppendFits(WriteReceipt(p, x, RDone, Empty).(phase := phase), x, to, m);
    InvIs(WriteReceipt(q, x, RDone, Empty).(phase := phase));
  }

  lemma SamePool(q: Pool, x: nat, phase: Phase)
    requires x < |q.s|
    ensures WriteReceipt(q.(phase := phase), x, RDone, Empty).(phase := phase) == WriteReceipt(q, x, RDone, Empty).(phase := phase)
  {
  }

  // There is no root: the dead service goes, and the signal with it.
  lemma OrphanKeeps(p: Pool, x: nat, m: Message)
    requires Inv(p) && p.phase == Routing(x, m) && x < |p.s| && p.s[x].status == Dead
    ensures Inv(Free1(p, x).(lost := p.lost + multiset{m}, phase := Free))
  {
    hide Conserved, Fits, HasMessage;
    InvAt(p, x);
    FitsPhase(p);
    var t := Free1(p, x).(lost := p.lost + multiset{m}, phase := Free);
    Balance(p, t, x, NOBODY);
    PhaseKeeps(p, t, x, NOBODY);
    InvIs(t);
  }

  // Root's mailbox is full: the signal is lost.
  lemma LostKeeps(p: Pool, x: nat, m: Message)
    requires Inv(p) && p.phase == Routing(x, m) && x < |p.s| && p.s[x].status == Dead
    ensures Inv(p.(lost := p.lost + multiset{m}, phase := Free))
  {
    hide Conserved, Fits, HasMessage;
    InvAt(p, x);
    FitsPhase(p);
    var t := p.(lost := p.lost + multiset{m}, phase := Free);
    assert t.s == p.s[x := p.s[x]];
    Balance(p, t, x, p.s[x]);
    PhaseKeeps(p, t, x, p.s[x]);
    InvIs(t);
  }

  // Root is told.
  lemma ToldKeeps(p: Pool, x: nat, m: Message)
    requires Inv(p) && p.phase == Routing(x, m) && x < |p.s| && p.s[x].status == Dead && ROOT < |p.s|
    requires p.s[ROOT].status != Uninitialized && p.s[ROOT].status != Absent
    ensures Inv(Put(p, ROOT, p.s[ROOT].(inbox := p.s[ROOT].inbox + [m])).(phase := Reporting(x)))
  {
    hide Conserved, Fits, HasMessage;
    InvAt(p, x);
    FitsPhase(p);
    AppendBalance(p, ROOT, Reporting(x));
    var w := p.(phase := Reporting(x));
    assert w.s == p.s[x := p.s[x]];
    PhaseKeeps(p, w, x, p.s[x]);
    AppendFits(w, x, ROOT, m);
    InvIs(Put(p, ROOT, p.s[ROOT].(inbox := p.s[ROOT].inbox + [m])).(phase := Reporting(x)));
  }

  // A death reaches root, or its signal is lost.
  lemma ReportKeeps(p: Pool, x: nat, m: Message)
    requires Inv(p) && p.phase == Routing(x, m) && x < |p.s| && p.s[x].status == Dead &&
      At(p, ROOT).status != Uninitialized
    ensures Inv(Report(p, x, m))
  {
    hide Inv, Free1, Put;
    var root := At(p, ROOT);
    if root.status == Absent || root.status == Dead {
      OrphanKeeps(p, x, m);
    } else if |root.inbox| >= p.capacity {
      LostKeeps(p, x, m);
    } else {
      ToldKeeps(p, x, m);
    }
  }

  // Another service changes while the message stays in hand.
  lemma OtherChanges(p: Pool, t: Pool, y: nat, v: Service)
    requires Inv(p) && p.phase.Routing? && y < |p.s| && y != p.phase.x &&
      (v == NOBODY || v == NOBODY.(status := Uninitialized))
    requires t == p.(s := p.s[y := v], deleted := t.deleted)
    requires forall m :: Held(v, m) + t.deleted[m] == Held(p.s[y], m) + p.deleted[m]
    ensures Inv(t)
  {
    hide Conserved, Held;
    Balance(p, t, y, v);
    OthersKeep(p, t, y, v);
  }

  // A schedule message of root: a new service, or one deleted.
  lemma NewKeeps(p: Pool, x: nat, m: Message, slot: nat)
    requires Inv(p) && p.phase == Routing(x, m) && x < |p.s| && p.s[x].status == Done
    requires slot < |p.s| && p.s[slot].status == Absent
    ensures Inv(WriteReceipt(Put(p, slot, NOBODY.(status := Uninitialized)), x, RResponse, Full(m)).(phase := Settling(x)))
  {
    hide Conserved, WriteReceipt;
    var v := NOBODY.(status := Uninitialized);
    InvAt(p, slot);
    OtherChanges(p, Put(p, slot, v), slot, v);
    hide Inv;
    BounceKeeps(Put(p, slot, v), x, RResponse, Settling(x));
  }

  lemma DeletedBalance(p: Pool, x: nat)
    requires Conserved(p) && p.phase.Routing? && x < |p.s|
    ensures Conserved(p.(deleted := p.deleted + multiset{p.phase.m}, phase := Settling(x)))
  {
    hide Conserved;
    var t := p.(deleted := p.deleted + multiset{p.phase.m}, phase := Settling(x));
    assert t.s == p.s[x := p.s[x]];
    Balance(p, t, x, p.s[x]);
  }

  lemma DeleteEnds(p: Pool, x: nat, m: Message)
    requires Inv(p) && p.phase == Routing(x, m) && x < |p.s| && p.s[x].status == Done
    ensures Inv(WriteReceipt(p.(deleted := p.deleted + multiset{m}), x, RDone, Empty).(phase := Settling(x)))
  {
    hide Conserved, Fits, WriteReceipt;
    InvAt(p, x);
    var q := p.(deleted := p.deleted + multiset{m});
    DeletedBalance(p, x);
    DoneBalance(q.(phase := Settling(x)), x, Settling(x));
    SamePool(q, x, Settling(x));
    FitsIgnoresDeleted(p, q);
    ReceiptFits(q, x, RDone, Empty, Settling(x));
    InvIs(WriteReceipt(q, x, RDone, Empty).(phase := Settling(x)));
  }

  lemma FitsIgnoresDeleted(p: Pool, q: Pool)
    requires Fits(p) && q == p.(deleted := q.deleted)
    ensures Fits(q)
  {
    hide Shape, HasMessage;
    forall x | 0 <= x < |p.s| ensures Shape(x, q.s[x]) && ReceiptDue(q, x) && IdleMeansIdle(q, x) {
      assert Shape(x, p.s[x]) && ReceiptDue(p, x) && IdleMeansIdle(p, x);
    }
  }

  lemma ScheduleKeeps(p: Pool, x: nat, m: Message, slot: nat)
    requires Inv(p) && p.phase == Routing(x, m) && x < |p.s| && p.s[x].status == Done
    ensures Inv(ScheduleMessage(p, x, m, slot).(phase := Settling(x)))
  {
    hide Inv, WriteReceipt;
    if x == ROOT && m.kind.New? && slot < |p.s| && slot != 0 && p.s[slot].status == Absent {
      NewKeeps(p, x, m, slot);
    } else if x == ROOT && m.kind.Delete? {
      var id := m.kind.id;
      if id < |p.s| && id != x { DeleteOther(p, id); DeleteEnds(Free1(p, id), x, m); } else { DeleteEnds(p, x, m); }
    } else {
      BounceKeeps(p, x, RError, Settling(x));
    }
  }

  lemma DeleteOther(p: Pool, id: nat)
    requires Inv(p) && p.phase.Routing? && id < |p.s| && id != p.phase.x
    ensures Inv(Free1(p, id)) && Free1(p, id).phase == p.phase && |Free1(p, id).s| == |p.s|
    ensures p.phase.x < |p.s| ==> Free1(p, id).s[p.phase.x] == p.s[p.phase.x]
  {
    hide Conserved;
    OtherChanges(p, Free1(p, id), id, NOBODY);
  }

  lemma PushKeeps(p: Pool, slot: nat)
    requires Inv(p) && Ready(p, Push(slot))
    ensures Inv(PushStep(p, slot))
  {
    hide Conserved, WriteReceipt, Report, ScheduleMessage;
    if p.phase.Routing? {
      var Routing(x, m) := p.phase;
      InvIs(p);
      FitsPhase(p);
      if p.s[x].status == Dead {
        ReportKeeps(p, x, m);
      } else if m.kind.To? {
        var to := m.kind.to;
        if At(p, to).status == Absent || At(p, to).status == Dead {
          BounceKeeps(p, x, RError, Checking(x, to));
        } else if |At(p, to).inbox| >= p.capacity {
          BounceKeeps(p, x, RBlock, Checking(x, to));
        } else {
          DeliverKeeps(p, x, m, to);
        }
      } else {
        ScheduleKeeps(p, x, m, slot);
      }
    }
  }
}
