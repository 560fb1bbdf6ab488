/**
 * The room actor: submitters and timers put commands into one mailbox, and one loop takes them out
 * (internal/service/room/actor/actor.go). Every way their steps can interleave is a run of this machine.
 */
module RoomActor {
  import opened Lists
  import opened Tiles

  type User = string

  /** `id` names the reply channel of a command that somebody waits for. */
  datatype Cmd =
    | Join(user: User, id: nat)
    | Ready(user: User, id: nat)
    | Leave(user: User, id: nat)
    | Act(user: User, id: nat)      // discard, pong, chi, gang, hu, pass and the opening actions
    | Ask(id: nat)                  // phase timeouts, snapshots and views
    | Shutdown(id: nat)
    | MarkOffline(user: User)
    | CancelOffline(user: User)
    | OfflineTimeout(user: User, gen: nat)

  predicate WantsReply(c: Cmd) { !c.MarkOffline? && !c.CancelOffline? && !c.OfflineTimeout? }

  /** The reply channels of the commands. */
  function Ids(cs: seq<Cmd>): seq<nat> {
    if cs == [] then [] else (if WantsReply(cs[0]) then [cs[0].id] else []) + Ids(cs[1..])
  }

  /** Who holds the submit lock. A submitter may send only after it has seen that the room is open. */
  datatype Lock = Free | Submitter(cmd: Cmd, cleared: bool)

  /** Where the loop is. */
  datatype Loop = Receiving | Closing | Draining | Done

  datatype Actor = Actor(
    capacity: nat,
    mailbox: seq<Cmd>,
    closed: bool,
    lock: Lock,
    loop: Loop,
    offline: seq<Cmd>,             // offline notices that saw the room open and wait for the lock
    draining: bool,
    gens: Option<map<User, nat>>,  // generation of each user's timer
    armed: set<(User, nat)>,       // timers that have not fired; stopping one may come too late
    used: set<nat>,                // reply channels handed out
    sent: seq<nat>,                // reply channels whose command entered the mailbox
    replied: seq<nat>,             // reply channels that were written to, in order
    handled: seq<Cmd>,             // commands the loop has taken before closing
    arms: map<(User, nat), nat>)   // when each timer was armed, as an index into `handled`

  function Init(capacity: nat): Actor {
    Actor(capacity, [], false, Free, Receiving, [], false, None, {}, {}, [], [], [], map[])
  }

  datatype Event =
    | TakeLock(cmd: Cmd)
    | CheckClosed
    | Send
    | GiveUp
    | NoteOffline(cmd: Cmd)
    | LockOffline
    | Fire(user: User, gen: nat)
    | Receive(closes: bool)
    | SetClosed
    | DrainOne

  function Gen(s: Actor, u: User): nat { if s.gens.Some? && u in s.gens.value then s.gens.value[u] else 0 }

  /** Cancels the user's timer: whatever it has put into the mailbox is out of date. */
  function Canceled(s: Actor, u: User): Option<map<User, nat>> {
    if s.gens.None? then None else Some(s.gens.value[u := Gen(s, u) + 1])
  }

  /** A timer is started, or started again, unless the room is shutting down. */
  predicate Arms(s: Actor, c: Cmd) { c.MarkOffline? && !s.draining }

  function NewGens(s: Actor, c: Cmd): Option<map<User, nat>> {
    match c
    case Ready(u, _) => Canceled(s, u)
    case Leave(u, _) => Canceled(s, u)
    case Act(u, _) => Canceled(s, u)
    case CancelOffline(u) => Canceled(s, u)
    case MarkOffline(u) =>
      if s.draining then s.gens else Some((if s.gens.Some? then s.gens.value else map[])[u := Gen(s, u) + 1])
    case Shutdown(_) => None
    case _ => s.gens
  }

  function NewArmed(s: Actor, c: Cmd): set<(User, nat)> {
    if Arms(s, c) then s.armed + {(c.user, Gen(s, c.user) + 1)} else s.armed
  }

  function NewArms(s: Actor, c: Cmd): map<(User, nat), nat> {
    if Arms(s, c) then s.arms[(c.user, Gen(s, c.user) + 1) := |s.handled|] else s.arms
  }

  /** What a command does to the offline timers. */
  function Timers(s: Actor, c: Cmd): Actor {
    s.(gens := NewGens(s, c), draining := s.draining || c.Shutdown?, armed := NewArmed(s, c), arms := NewArms(s, c))
  }

  function Reply(s: Actor, c: Cmd): Actor {
    s.(replied := if WantsReply(c) then s.replied + [c.id] else s.replied)
  }

  predicate Enabled(s: Actor, e: Event) {
    match e
    case TakeLock(c) => s.lock == Free && WantsReply(c) && c.id !in s.used
    case CheckClosed => s.lock.Submitter? && !s.lock.cleared
    case Send => s.lock.Submitter? && s.lock.cleared && WantsReply(s.lock.cmd) && |s.mailbox| < s.capacity
    case GiveUp => s.lock.Submitter? && s.lock.cleared
    case NoteOffline(c) => !s.closed && (c.MarkOffline? || c.CancelOffline?)
    case LockOffline => s.lock == Free && s.offline != []
    case Fire(u, g) => (u, g) in s.armed
    case Receive(_) => s.loop == Receiving && s.mailbox != []
    case SetClosed => s.loop == Closing && s.lock == Free
    case DrainOne => s.loop == Draining
  }

  /** Offline notices and timeouts are dropped when the mailbox is full. */
  function Put(s: Actor, c: Cmd): Actor {
    if |s.mailbox| < s.capacity then s.(mailbox := s.mailbox + [c]) else s
  }

  function Next(s: Actor, e: Event): Actor
    requires Enabled(s, e)
  {
    match e
    case TakeLock(c) => s.(lock := Submitter(c, false), used := s.used + {c.id})
    case CheckClosed => if s.closed then s.(lock := Free) else s.(lock := Submitter(s.lock.cmd, true))
    case Send => s.(lock := Free, mailbox := s.mailbox + [s.lock.cmd], sent := s.sent + [s.lock.cmd.id])
    case GiveUp => s.(lock := Free)
    case NoteOffline(c) => s.(offline := s.offline + [c])
    case LockOffline => Put(s, s.offline[0]).(offline := s.offline[1..])
    case Fire(u, g) => Put(s, OfflineTimeout(u, g)).(armed := s.armed - {(u, g)})
    case Receive(closes) =>
      var c := s.mailbox[0];
      Reply(Timers(s, c).(mailbox := s.mailbox[1..], handled := s.handled + [c],
                          loop := if closes then Closing else Receiving), c)
    case SetClosed => s.(closed := true, loop := Draining)
    case DrainOne =>
      if s.mailbox == [] then s.(loop := Done, gens := None)
      else Reply(s, s.mailbox[0]).(mailbox := s.mailbox[1..])
  }

  // ---------- every command is answered once ----------

  predicate Distinct(ids: seq<nat>) { forall i, j :: 0 <= i < j < |ids| ==> ids[i] != ids[j] }

  function Times(ids: seq<nat>, id: nat): nat {
    if ids == [] then 0 else (if ids[0] == id then 1 else 0) + Times(ids[1..], id)
  }

  lemma {:induction false} TimesJoin(a: seq<nat>, b: seq<nat>, id: nat)
    ensures Times(a + b, id) == Times(a, id) + Times(b, id)
  {
    if a == [] {
      assert a + b == b;
    } else {
      TimesJoin(a[1..], b, id);
      assert (a + b)[1..] == a[1..] + b;
    }
  }

  lemma {:induction false} IdsJoin(a: seq<Cmd>, b: seq<Cmd>)
    ensures Ids(a + b) == Ids(a) + Ids(b)
  {
    if a == [] {
      assert a + b == b;
    } else {
      IdsJoin(a[1..], b);
      assert (a + b)[1..] == a[1..] + b;
      JoinThree(if WantsReply(a[0]) then [a[0].id] else [], Ids(a[1..]), Ids(b));
    }
  }

  lemma {:induction false} TimesMember(ids: seq<nat>, id: nat)
    ensures id in ids <==> Times(ids, id) > 0
  {
    if ids != [] { TimesMember(ids[1..], id); }
  }

  lemma {:induction false} TimesDistinct(ids: seq<nat>, id: nat)
    requires Distinct(ids)
    ensures Times(ids, id) <= 1
  {
    if ids != [] {
      TimesDistinct(ids[1..], id);
      if ids[0] == id { TimesMember(ids[1..], id); }
    }
  }

  /** A command that entered the mailbox is still there, or was answered: never both, never twice. */
  ghost predicate Accounted(s: Actor) {
    forall id: nat :: Times(s.sent, id) == Times(Ids(s.mailbox), id) + Times(s.replied, id)
  }

  /** No reply channel is sent twice, and nothing that is awaited enters a closed room. */
  predicate Orderly(s: Actor) {
    && Distinct(s.sent) && (forall id :: id in s.sent ==> id in s.used)
    && (s.lock.Submitter? ==> WantsReply(s.lock.cmd) && s.lock.cmd.id in s.used && s.lock.cmd.id !in s.sent)
    && (s.lock.Submitter? && s.lock.cleared ==> !s.closed)
    && (s.closed <==> s.loop == Draining || s.loop == Done)
    && (s.loop == Done ==> Ids(s.mailbox) == [])
    && (forall i :: 0 <= i < |s.offline| ==> !WantsReply(s.offline[i]))
  }

  lemma NothingAwaited(s: Actor, c: Cmd, id: nat)
    requires !WantsReply(c)
    ensures Ids(Put(s, c).mailbox) == Ids(s.mailbox)
  {
    IdsJoin(s.mailbox, [c]);
    assert Ids([c]) == [];
  }

  lemma SentCounts(s: Actor, c: Cmd, id: nat)
    requires WantsReply(c)
    ensures Times(Ids(s.mailbox + [c]), id) == Times(Ids(s.mailbox), id) + if c.id == id then 1 else 0
    ensures Times(s.sent + [c.id], id) == Times(s.sent, id) + if c.id == id then 1 else 0
  {
    IdsJoin(s.mailbox, [c]);
    assert Ids([c]) == [c.id] + Ids([]) == [c.id];
    TimesJoin(Ids(s.mailbox), [c.id], id);
    TimesJoin(s.sent, [c.id], id);
  }

  lemma StepAccounts(s: Actor, e: Event)
    requires Enabled(s, e) && Orderly(s) && Accounted(s)
    ensures Accounted(Next(s, e))
  {
    var t := Next(s, e);
    forall id: nat ensures Times(t.sent, id) == Times(Ids(t.mailbox), id) + Times(t.replied, id) {
      assert Times(s.sent, id) == Times(Ids(s.mailbox), id) + Times(s.replied, id);
      match e
      case Send => SentCounts(s, s.lock.cmd, id);
      case LockOffline => NothingAwaited(s, s.offline[0], id);
      case Fire(u, g) => NothingAwaited(s, OfflineTimeout(u, g), id);
      case Receive(closes) => HeadAnswered(s, t, id);
      case DrainOne => if s.mailbox != [] { HeadAnswered(s, t, id); }
      case _ =>
    }
  }

  lemma HeadAnswered(s: Actor, t: Actor, id: nat)
    requires s.mailbox != [] && t.mailbox == s.mailbox[1..] && t.sent == s.sent
    requires t.replied == if WantsReply(s.mailbox[0]) then s.replied + [s.mailbox[0].id] else s.replied
    ensures Times(Ids(t.mailbox), id) + Times(t.replied, id) == Times(Ids(s.mailbox), id) + Times(s.replied, id)
  {
    var c := s.mailbox[0];
    if WantsReply(c) {
      TimesJoin(s.replied, [c.id], id);
      TimesJoin([c.id], Ids(s.mailbox[1..]), id);
    } else {
      assert Ids(s.mailbox) == Ids(s.mailbox[1..]);
    }
  }

  /** The parts that a step leaves alone stay in order. */
  lemma LoopMoved(s: Actor, t: Actor)
    requires Orderly(s) && t.sent == s.sent && t.used == s.used && t.lock == s.lock && t.offline == s.offline
    requires t.closed == s.closed && (t.closed <==> t.loop == Draining || t.loop == Done)
    requires t.loop == Done ==> Ids(t.mailbox) == []
    ensures Orderly(t)
  {
  }

  lemma ReceivedOrder(s: Actor, closes: bool)
    requires Enabled(s, Receive(closes))
    ensures var t := Next(s, Receive(closes));
            && t.sent == s.sent && t.used == s.used && t.lock == s.lock && t.offline == s.offline && t.closed == s.closed
            && (t.loop == Receiving || t.loop == Closing)
  {
  }

  lemma StepOrderly(s: Actor, e: Event)
    requires Enabled(s, e) && Orderly(s)
    ensures Orderly(Next(s, e))
  {
    match e
    case LockOffline => NothingAwaited(s, s.offline[0], 0);
    case Fire(u, g) => NothingAwaited(s, OfflineTimeout(u, g), 0);
    case Receive(closes) =>
      ReceivedOrder(s, closes);
      LoopMoved(s, Next(s, e));
    case DrainOne => LoopMoved(s, Next(s, e));
    case _ =>
  }

  /** The event if it can happen, else nothing. */
  function Try(s: Actor, e: Event): Actor { if Enabled(s, e) then Next(s, e) else s }

  function RunAll(s: Actor, es: seq<Event>): Actor
    decreases |es|
  {
    if es == [] then s else RunAll(Try(s, es[0]), es[1..])
  }

  lemma {:induction false} RunAccounts(s: Actor, es: seq<Event>)
    requires Orderly(s) && Accounted(s)
    ensures Orderly(RunAll(s, es)) && Accounted(RunAll(s, es))
    decreases |es|
  {
    if es != [] {
      if Enabled(s, es[0]) {
        StepAccounts(s, es[0]);
        StepOrderly(s, es[0]);
      }
      RunAccounts(Try(s, es[0]), es[1..]);
    }
  }

  lemma InitAccounts(capacity: nat)
    ensures Orderly(Init(capacity)) && Accounted(Init(capacity))
  {
  }

  /**
   * In every interleaving, a command that entered the mailbox either waits there or has had exactly
   * one reply; once the loop has ended, all of them have had it, and none is ever left behind.
   */
  lemma EveryCommandIsAnsweredOnce(capacity: nat, es: seq<Event>, id: nat)
    ensures var s := RunAll(Init(capacity), es);
            && Times(s.replied, id) <= 1
            && (id in s.sent ==> Times(Ids(s.mailbox), id) + Times(s.replied, id) == 1)
            && (id !in s.sent ==> id !in s.replied)
            && (s.loop == Done ==> Ids(s.mailbox) == [] && (id in s.sent ==> Times(s.replied, id) == 1))
  {
    InitAccounts(capacity);
    RunAccounts(Init(capacity), es);
    var s := RunAll(Init(capacity), es);
    assert Times(s.sent, id) == Times(Ids(s.mailbox), id) + Times(s.replied, id);
    TimesDistinct(s.sent, id);
    TimesMember(s.sent, id);
    TimesMember(s.replied, id);
  }

  // ---------- the loop catches up ----------

  /** What the loop does next when it is left alone; it receives without closing the room. */
  function LoopStep(s: Actor): Actor {
    match s.loop
    case Receiving => Try(s, Receive(false))
    case Closing => Try(s, SetClosed)
    case Draining => Try(s, DrainOne)
    case Done => s
  }

  function LoopSteps(s: Actor, n: nat): Actor
    decreases n
  {
    if n == 0 then s else LoopSteps(LoopStep(s), n - 1)
  }

  /** How far the loop is from having emptied the mailbox. */
  function Backlog(s: Actor): nat {
    if s.loop == Done then 0 else |s.mailbox| + if s.loop == Closing then 1 else 0
  }

  lemma LoopStepHelps(s: Actor)
    requires Orderly(s) && Accounted(s) && s.lock == Free
    ensures var t := LoopStep(s);
            && Orderly(t) && Accounted(t) && t.lock == Free && t.sent == s.sent
            && Backlog(t) <= Backlog(s) && (Backlog(s) > 0 ==> Backlog(t) < Backlog(s))
  {
    if s.loop != Done {
      var e := if s.loop == Receiving then Receive(false) else if s.loop == Closing then SetClosed else DrainOne;
      if Enabled(s, e) {
        StepAccounts(s, e);
        StepOrderly(s, e);
      }
    }
  }

  lemma CaughtUp(s: Actor)
    requires Orderly(s) && Accounted(s) && Backlog(s) == 0
    ensures Ids(s.mailbox) == [] && forall id: nat :: Times(s.sent, id) == Times(s.replied, id)
  {
    assert s.loop != Done ==> s.mailbox == [];
    forall id: nat ensures Times(s.sent, id) == Times(s.replied, id) {
      assert Times(s.sent, id) == Times(Ids(s.mailbox), id) + Times(s.replied, id);
    }
  }

  /**
   * When the lock is free and nobody submits any more, the loop empties the mailbox, whether it is
   * receiving, closing or draining: then every command that entered has had its one reply.
   */
  lemma {:induction false} LoopCatchesUp(s: Actor, n: nat)
    requires Orderly(s) && Accounted(s) && s.lock == Free && n >= Backlog(s)
    ensures var t := LoopSteps(s, n);
            Ids(t.mailbox) == [] && t.sent == s.sent && forall id: nat :: Times(t.sent, id) == Times(t.replied, id)
    decreases n
  {
    if n > 0 {
      LoopStepHelps(s);
      LoopCatchesUp(LoopStep(s), n - 1);
    } else {
      CaughtUp(s);
    }
  }

  // ---------- offline timeouts ----------

  /** Something that makes an earlier offline timer of the user void. */
  predicate Voids(c: Cmd, u: User) {
    match c
    case Ready(v, _) => v == u
    case Leave(v, _) => v == u
    case Act(v, _) => v == u
    case CancelOffline(v) => v == u
    case MarkOffline(v) => v == u
    case Shutdown(_) => true
    case _ => false
  }

  /** The timer was armed when its user was reported offline, and nothing has voided it since. */
  predicate StillDue(s: Actor, u: User, i: nat) {
    && i < |s.handled| && s.handled[i] == MarkOffline(u)
    && forall j :: i < j < |s.handled| ==> !Voids(s.handled[j], u)
  }

  /** A timer's generation is above zero, has been handed out, and is current exactly while it is due. */
  predicate TimerOk(s: Actor, u: User, g: nat) {
    && g > 0 && (u, g) in s.arms && s.arms[(u, g)] < |s.handled|
    && (s.gens.Some? ==> g <= Gen(s, u))
    && (s.loop != Done ==> (Gen(s, u) == g <==> StillDue(s, u, s.arms[(u, g)])))
  }

  predicate TimersOk(s: Actor) {
    && (s.draining ==> s.gens.None?)
    && (forall k :: k in s.arms ==> TimerOk(s, k.0, k.1))
    && (forall k :: k in s.armed ==> k in s.arms)
    && (forall i :: 0 <= i < |s.mailbox| && s.mailbox[i].OfflineTimeout? ==> (s.mailbox[i].user, s.mailbox[i].gen) in s.arms)
    && (forall i :: 0 <= i < |s.offline| ==> !s.offline[i].OfflineTimeout?)
    && (s.lock.Submitter? ==> WantsReply(s.lock.cmd))
    && (s.gens.None? && !s.draining ==> s.arms == map[] || s.loop == Done)
  }

  /** Every command that voids a user's timer moves its generation on; no other one touches it. */
  lemma GenStep(s: Actor, c: Cmd, u: User)
    requires s.gens.Some? && !s.draining
    ensures if Timers(s, c).gens.None? then Voids(c, u) else Gen(Timers(s, c), u) == Gen(s, u) + if Voids(c, u) then 1 else 0
  {
  }

  /** One more command: the timer stays due unless that command voids it. */
  lemma DueAfter(s: Actor, t: Actor, c: Cmd, u: User, i: nat)
    requires t.handled == s.handled + [c] && i < |s.handled|
    ensures StillDue(t, u, i) <==> StillDue(s, u, i) && !Voids(c, u)
  {
    assert t.handled[i] == s.handled[i] && t.handled[|s.handled|] == c;
    if StillDue(s, u, i) && !Voids(c, u) {
      forall j | i < j < |t.handled| ensures !Voids(t.handled[j], u) {
        if j < |s.handled| { assert t.handled[j] == s.handled[j]; }
      }
    }
    if StillDue(t, u, i) {
      forall j | i < j < |s.handled| ensures !Voids(s.handled[j], u) { assert t.handled[j] == s.handled[j]; }
    }
  }

  lemma KeepsTimer(s: Actor, t: Actor, c: Cmd, u: User, g: nat)
    requires TimerOk(s, u, g) && t.handled == s.handled + [c] && (u, g) in t.arms && t.arms[(u, g)] == s.arms[(u, g)]
    requires s.loop != Done && (s.gens.Some? || t.gens.None?)
    requires t.gens.Some? ==> Gen(t, u) == Gen(s, u) + if Voids(c, u) then 1 else 0
    requires s.gens.Some? && t.gens.None? ==> Voids(c, u)
    ensures TimerOk(t, u, g)
  {
    DueAfter(s, t, c, u, s.arms[(u, g)]);
  }

  lemma ArmedTimer(s: Actor, t: Actor, u: User)
    requires t.handled == s.handled + [MarkOffline(u)] && t.gens.Some? && Gen(t, u) == Gen(s, u) + 1
    requires (u, Gen(t, u)) in t.arms && t.arms[(u, Gen(t, u))] == |s.handled|
    ensures TimerOk(t, u, Gen(t, u))
  {
  }

  /** The timers after the loop took the command, apart from what is in the mailbox. */
  lemma HandledTimers(s: Actor, t: Actor, c: Cmd)
    requires TimersOk(s) && s.loop != Done
    requires var r := Timers(s, c); t.gens == r.gens && t.arms == r.arms && t.draining == r.draining
    requires t.handled == s.handled + [c]
    ensures forall k :: k in t.arms ==> TimerOk(t, k.0, k.1)
  {
    forall k | k in t.arms ensures TimerOk(t, k.0, k.1) {
      if c.MarkOffline? && !s.draining && k == (c.user, Gen(s, c.user) + 1) {
        ArmedTimer(s, t, c.user);
      } else {
        assert k in s.arms && TimerOk(s, k.0, k.1);
        if s.gens.Some? { GenStep(s, c, k.0); }
        KeepsTimer(s, t, c, k.0, k.1);
      }
    }
  }

  lemma ReceivedFields(s: Actor, closes: bool)
    requires Enabled(s, Receive(closes))
    ensures var t, r := Next(s, Receive(closes)), Timers(s, s.mailbox[0]);
            && t.gens == r.gens && t.arms == r.arms && t.armed == r.armed && t.draining == r.draining
            && t.mailbox == s.mailbox[1..] && t.handled == s.handled + [s.mailbox[0]]
            && t.offline == s.offline && t.lock == s.lock && t.loop != Done
  {
  }

  lemma ReceiveTimers(s: Actor, t: Actor, c: Cmd)
    requires TimersOk(s) && s.loop == Receiving && s.mailbox != [] && c == s.mailbox[0] && t.loop != Done
    requires var r := Timers(s, c); t.gens == r.gens && t.arms == r.arms && t.armed == r.armed && t.draining == r.draining
    requires t.mailbox == s.mailbox[1..] && t.handled == s.handled + [c] && t.offline == s.offline && t.lock == s.lock
    ensures TimersOk(t)
  {
    HandledTimers(s, t, c);
    forall i | 0 <= i < |t.mailbox| && t.mailbox[i].OfflineTimeout?
      ensures (t.mailbox[i].user, t.mailbox[i].gen) in t.arms
    {
      assert t.mailbox[i] == s.mailbox[i + 1];
    }
  }

  lemma PutTimers(s: Actor, c: Cmd)
    requires TimersOk(s) && (c.OfflineTimeout? ==> (c.user, c.gen) in s.arms)
    ensures TimersOk(Put(s, c))
  {
    var t := Put(s, c);
    forall k | k in t.arms ensures TimerOk(t, k.0, k.1) { assert TimerOk(s, k.0, k.1); }
    forall i | 0 <= i < |t.mailbox| && t.mailbox[i].OfflineTimeout?
      ensures (t.mailbox[i].user, t.mailbox[i].gen) in t.arms
    {
      if i < |s.mailbox| { assert t.mailbox[i] == s.mailbox[i]; }
    }
  }

  lemma SameTimers(s: Actor, t: Actor)
    requires TimersOk(s) && t.arms == s.arms && t.armed <= s.armed && t.handled == s.handled && t.draining == s.draining
    requires (t.gens == s.gens && (s.loop == Done ==> t.loop == Done)) || (t.gens == None && t.loop == Done)
    requires t.gens.None? && !t.draining ==> t.arms == map[] || t.loop == Done
    requires forall i :: 0 <= i < |t.mailbox| && t.mailbox[i].OfflineTimeout? ==> (t.mailbox[i].user, t.mailbox[i].gen) in t.arms
    requires forall i :: 0 <= i < |t.offline| ==> !t.offline[i].OfflineTimeout?
    requires t.lock.Submitter? ==> WantsReply(t.lock.cmd)
    ensures TimersOk(t)
  {
    forall k | k in t.arms ensures TimerOk(t, k.0, k.1) { assert TimerOk(s, k.0, k.1); }
  }

  lemma PutStepTimers(s: Actor, e: Event)
    requires Enabled(s, e) && TimersOk(s) && (e.LockOffline? || e.Fire?)
    ensures TimersOk(Next(s, e))
  {
    var c := if e.Fire? then OfflineTimeout(e.user, e.gen) else s.offline[0];
    PutTimers(s, c);
    SameTimers(Put(s, c), Next(s, e));
  }

  lemma QuietStepTimers(s: Actor, e: Event)
    requires Enabled(s, e) && TimersOk(s) && !e.LockOffline? && !e.Fire? && !e.Receive?
    ensures TimersOk(Next(s, e))
  {
    SameTimers(s, Next(s, e));
  }

  lemma StepTimers(s: Actor, e: Event)
    requires Enabled(s, e) && TimersOk(s)
    ensures TimersOk(Next(s, e))
  {
    match e
    case Receive(closes) =>
      ReceivedFields(s, closes);
      ReceiveTimers(s, Next(s, e), s.mailbox[0]);
    case LockOffline => PutStepTimers(s, e);
    case Fire(u, g) => PutStepTimers(s, e);
    case _ => QuietStepTimers(s, e);
  }

  lemma {:induction false} RunTimers(s: Actor, es: seq<Event>)
    requires TimersOk(s)
    ensures TimersOk(RunAll(s, es))
    decreases |es|
  {
    if es != [] {
      if Enabled(s, es[0]) { StepTimers(s, es[0]); }
      RunTimers(Try(s, es[0]), es[1..]);
    }
  }

  /** The loop is about to take a timeout. */
  predicate TimeoutIsNext(s: Actor) { s.loop == Receiving && s.mailbox != [] && s.mailbox[0].OfflineTimeout? }

  /** The timeout that the loop takes next makes its user leave. */
  predicate TakesEffect(s: Actor) { TimeoutIsNext(s) && Gen(s, s.mailbox[0].user) == s.mailbox[0].gen }

  /**
   * In every interleaving, a timeout makes its user leave exactly when its timer was armed by a report
   * that the user is offline and, since then, the user has not acted, left, got ready, come back by the
   * notice or been reported again, and the room was not shut down: whatever was handled after the
   * timeout had been queued counts as well.
   */
  lemma OfflineTimeoutIsCurrent(capacity: nat, es: seq<Event>)
    ensures var s := RunAll(Init(capacity), es);
            TimeoutIsNext(s) ==>
              var u, g := s.mailbox[0].user, s.mailbox[0].gen;
              (u, g) in s.arms && (TakesEffect(s) <==> StillDue(s, u, s.arms[(u, g)]))
  {
    RunTimers(Init(capacity), es);
    var s := RunAll(Init(capacity), es);
    if TimeoutIsNext(s) { assert TimerOk(s, s.mailbox[0].user, s.mailbox[0].gen); }
  }

  /** A user's join that the loop takes before a queued timeout of that user. */
  predicate JoinBeforeTimeout(s: Actor, u: User) {
    s.loop == Receiving && |s.mailbox| > 1 && s.mailbox[0].Join? && s.mailbox[0].user == u
    && s.mailbox[1].OfflineTimeout? && s.mailbox[1].user == u
  }

  /** In every interleaving, coming back through a join alone leaves a timeout that was due in force. */
  lemma JoinChangesNothing(capacity: nat, es: seq<Event>, u: User)
    ensures var s := RunAll(Init(capacity), es);
            JoinBeforeTimeout(s, u) ==>
              (u, s.mailbox[1].gen) in s.arms
              && (TakesEffect(Next(s, Receive(false))) <==> StillDue(s, u, s.arms[(u, s.mailbox[1].gen)]))
  {
    RunTimers(Init(capacity), es);
    var s := RunAll(Init(capacity), es);
    if JoinBeforeTimeout(s, u) {
      var t := Next(s, Receive(false));
      assert t.mailbox[0] == s.mailbox[1] && t.gens == s.gens;
      assert TimerOk(s, u, s.mailbox[1].gen);
    }
  }

  function WentOffline(u: User): Actor {
    Try(Try(Try(Init(4), NoteOffline(MarkOffline(u))), LockOffline), Receive(false))
  }

  function Joined(s: Actor, u: User): Actor {
    Try(Try(Try(Try(s, TakeLock(Join(u, 0))), CheckClosed), Send), Receive(false))
  }

  lemma OfflineIsNoted(u: User)
    ensures var s := WentOffline(u);
            && s.capacity == 4 && s.mailbox == [] && s.lock == Free && s.loop == Receiving && !s.closed && s.used == {}
            && Gen(s, u) == 1 && (u, 1) in s.armed && s.handled == [MarkOffline(u)]
  {
    assert Try(Try(Init(4), NoteOffline(MarkOffline(u))), LockOffline).mailbox == [MarkOffline(u)];
  }

  lemma JoinIsHandled(s: Actor, u: User)
    requires s.capacity == 4 && s.mailbox == [] && s.lock == Free && s.loop == Receiving && !s.closed && s.used == {}
    ensures var t := Joined(s, u);
            && t.capacity == 4 && t.mailbox == [] && t.loop == Receiving && t.gens == s.gens && t.armed == s.armed
            && t.handled == s.handled + [Join(u, 0)]
  {
    assert Try(Try(Try(s, TakeLock(Join(u, 0))), CheckClosed), Send).mailbox == [Join(u, 0)];
  }

  /** It happens: reported offline, joined again, and yet the timeout takes effect. */
  lemma JoinDoesNotCancel(u: User)
    ensures var s := Try(Joined(WentOffline(u), u), Fire(u, 1));
            TakesEffect(s) && s.handled == [MarkOffline(u), Join(u, 0)]
  {
    OfflineIsNoted(u);
    JoinIsHandled(WentOffline(u), u);
  }
}
