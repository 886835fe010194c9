/**
 Leader election of the settlement service: one Redis lease, any number of
 electors ticking at their own pace.  A tick sends a command and handles the
 reply later; both the command and the reply may be delayed or lost.
 */
module Leader {
  import opened Faults
  import opened Arithmetic

  datatype Lease = Free | Held(owner: nat, expires: int)

  /** A reply that has not been handled yet. */
  datatype Reply = NoReply | Won | NotWon | Renewed | NotRenewed

  /**
   `running`: the context given to onElected is not cancelled.  `cancelled`: the
   elector has been told to end; `stopping`: it has noticed and left its loop.
   `until`: when the lease written by this elector's last command that Redis
   carried out runs out (bookkeeping).
   */
  datatype Node = Node(isLeader: bool, running: bool, cancelled: bool, stopping: bool, reply: Reply, until: int)

  datatype State = State(now: int, lease: Lease, nodes: seq<Node>)

  datatype Action =
    | Wait(d: nat)
    | Send(i: nat, net: Net)   // a tick: renew if leader, else try to acquire
    | Handle(i: nat)               // the rest of that tick
    | Cancel(i: nat)               // shutdown: all contexts are cancelled,
    | Leave(i: nat)                // the loop ends,
    | StepDown(i: nat, net: Net)  // the lease is released,
    | Resign(i: nat)               // and the flag is cleared

  /** The lease as Redis sees it at time `now`. */
  function Current(lease: Lease, now: int): Lease {
    if lease.Held? && now >= lease.expires then Free else lease
  }

  function SetNX(lease: Lease, now: int, i: nat, ttl: int): Lease {
    if Current(lease, now).Free? then Held(i, now + ttl) else Current(lease, now)
  }

  /** The renew script: EXPIRE takes whole seconds, and zero seconds delete the key. */
  function WholeSeconds(ttl: int): int
    requires ttl >= 0
  {
    ttl / SECOND * SECOND
  }

  predicate Holds(lease: Lease, now: int, i: nat) {
    Current(lease, now).Held? && Current(lease, now).owner == i
  }

  function Renew(lease: Lease, now: int, i: nat, ttl: int): Lease
    requires ttl >= 0
  {
    if Holds(lease, now, i) then Held(i, now + WholeSeconds(ttl)) else Current(lease, now)
  }

  function Release(lease: Lease, now: int, i: nat): Lease {
    if Holds(lease, now, i) then Free else Current(lease, now)
  }

  function SendTick(s: State, i: nat, net: Net, ttl: int): State
    requires i < |s.nodes| && ttl >= 0
  {
    var n := s.nodes[i];
    if n.isLeader then
      var ok := Holds(s.lease, s.now, i);
      if !TakesEffect(net) then s.(nodes := s.nodes[i := n.(reply := NotRenewed)])
      else s.(lease := Renew(s.lease, s.now, i, ttl),
              nodes := s.nodes[i := n.(reply := if ok && net.Works? then Renewed else NotRenewed,
                                       until := if ok then s.now + WholeSeconds(ttl) else n.until)])
    else
      var ok := Current(s.lease, s.now).Free?;
      if !TakesEffect(net) then s.(nodes := s.nodes[i := n.(reply := NotWon)])
      else s.(lease := SetNX(s.lease, s.now, i, ttl),
              nodes := s.nodes[i := n.(reply := if ok && net.Works? then Won else NotWon,
                                       until := if ok then s.now + ttl else n.until)])
  }

  function HandleReply(n: Node): Node {
    match n.reply
    case NoReply => n
    case Won => n.(isLeader := true, running := !n.cancelled, reply := NoReply)
    case NotWon => n.(reply := NoReply)
    case Renewed => n.(reply := NoReply)
    case NotRenewed => n.(isLeader := false, running := false, reply := NoReply)
  }

  function Step(s: State, a: Action, ttl: int): State
    requires ttl >= 0
  {
    match a
    case Wait(d) => s.(now := s.now + d)
    case Send(i, net) =>
      if i < |s.nodes| && s.nodes[i].reply.NoReply? && !s.nodes[i].stopping then SendTick(s, i, net, ttl) else s
    case Handle(i) =>
      if i < |s.nodes| then s.(nodes := s.nodes[i := HandleReply(s.nodes[i])]) else s
    case Cancel(i) =>
      if i < |s.nodes| then s.(nodes := s.nodes[i := s.nodes[i].(running := false, cancelled := true)]) else s
    case Leave(i) =>
      if i < |s.nodes| && s.nodes[i].cancelled && s.nodes[i].reply.NoReply?
      then s.(nodes := s.nodes[i := s.nodes[i].(stopping := true)]) else s
    case StepDown(i, net) =>
      if i < |s.nodes| && s.nodes[i].stopping && s.nodes[i].isLeader && TakesEffect(net)
      then s.(lease := Release(s.lease, s.now, i)) else s
    case Resign(i) =>
      if i < |s.nodes| && s.nodes[i].stopping then s.(nodes := s.nodes[i := s.nodes[i].(isLeader := false)]) else s
  }

  function Run(s: State, acts: seq<Action>, ttl: int): State
    requires ttl >= 0
    decreases |acts|
  {
    if acts == [] then s else Run(Step(s, acts[0], ttl), acts[1..], ttl)
  }

  function Init(n: nat, now: int): State {
    State(now, Free, seq(n, _ => Node(false, false, false, false, NoReply, now)))
  }

  // ---------------------------------------------------------------------------
  // Exclusion
  // ---------------------------------------------------------------------------

  /** An elector that leads, or has won and does not know yet. */
  predicate Claims(n: Node) {
    (n.isLeader && !n.stopping) || n.reply.Won?
  }

  /** Within the lease time of its last lease write, a claimant's lease stands. */
  predicate NodeOk(lease: Lease, now: int, i: nat, n: Node) {
    && (Claims(n) && now < n.until ==> lease == Held(i, n.until))
    && (n.running ==> n.isLeader && !n.cancelled && !n.stopping)
    && (n.reply.Won? || n.reply.NotWon? ==> !n.isLeader && !n.stopping)
    && (n.reply.Renewed? || n.reply.NotRenewed? ==> n.isLeader && !n.stopping)
  }

  ghost predicate Inv(s: State) {
    forall i :: 0 <= i < |s.nodes| ==> NodeOk(s.lease, s.now, i, s.nodes[i])
  }

  lemma StepKeepsInv(s: State, a: Action, ttl: int)
    requires Inv(s) && ttl >= 0
    ensures Inv(Step(s, a, ttl))
  {
  }

  lemma {:induction false} RunKeepsInv(s: State, acts: seq<Action>, ttl: int)
    requires Inv(s) && ttl >= 0
    ensures Inv(Run(s, acts, ttl))
    decreases |acts|
  {
    if acts != [] {
      StepKeepsInv(s, acts[0], ttl);
      RunKeepsInv(Step(s, acts[0], ttl), acts[1..], ttl);
    }
  }

  /** A leader whose last lease write still covers the present moment. */
  predicate PromptLeader(s: State, i: nat) {
    i < |s.nodes| && s.nodes[i].isLeader && !s.nodes[i].stopping && s.now < s.nodes[i].until
  }

  /** A leader context that is not cancelled, likewise covered. */
  predicate PromptContext(s: State, i: nat) {
    i < |s.nodes| && s.nodes[i].running && s.now < s.nodes[i].until
  }

  /**
   Exclusion.  In every reachable state at most one elector is leader, and at
   most one leader context is live, among those within the lease time of their
   last lease write; that elector holds the lease.
   */
  lemma AtMostOneLeader(n: nat, t0: int, acts: seq<Action>, ttl: int, i: nat, j: nat)
    requires ttl >= 0
    requires var s := Run(Init(n, t0), acts, ttl);
             (PromptLeader(s, i) || PromptContext(s, i)) && (PromptLeader(s, j) || PromptContext(s, j))
    ensures i == j && Holds(Run(Init(n, t0), acts, ttl).lease, Run(Init(n, t0), acts, ttl).now, i)
  {
    RunKeepsInv(Init(n, t0), acts, ttl);
    var s := Run(Init(n, t0), acts, ttl);
    assert NodeOk(s.lease, s.now, i, s.nodes[i]) && NodeOk(s.lease, s.now, j, s.nodes[j]);
  }

  /**
   What a tick decides, in every state, whatever the others do between its command
   and the handling of the reply.  A leader is leader afterwards exactly if its
   command works and finds the lease its own and not run out; with any other answer,
   or none, it steps down and its context is cancelled.  Any other elector is leader
   afterwards exactly if its command works and finds no lease.
   */
  lemma TickDecides(s: State, i: nat, net: Net, during: seq<Action>, ttl: int)
    requires ttl >= 0 && i < |s.nodes| && s.nodes[i].reply.NoReply? && !s.nodes[i].stopping && ByOthers(during, i)
    ensures var free := s.lease.Free? || s.now >= s.lease.expires;
            var mine := !free && s.lease.owner == i;
            var was, sent := s.nodes[i], Step(s, Send(i, net), ttl);
            var after := Step(Run(sent, during, ttl), Handle(i), ttl);
            && |after.nodes| == |s.nodes| && after.nodes[i].reply.NoReply?
            && (after.nodes[i].isLeader <==> net == Works && if was.isLeader then mine else free)
            && (was.isLeader ==> (after.nodes[i].running <==> after.nodes[i].isLeader && was.running))
            && (!was.isLeader && after.nodes[i].isLeader ==> (after.nodes[i].running <==> !was.cancelled))
            && sent.lease == if net == Fails(false) then s.lease
                             else if was.isLeader then
                               (if free then Free else if mine then Held(i, s.now + ttl / SECOND * SECOND) else s.lease)
                             else if free then Held(i, s.now + ttl) else s.lease
  {
    var sent := Step(s, Send(i, net), ttl);
    OthersLeaveAlone(sent, during, ttl, i);
  }

  /** Renewing or releasing changes the lease only for its holder. */
  lemma OnlyTheHolderChangesTheLease(lease: Lease, now: int, i: nat, ttl: int)
    requires ttl >= 0 && !Holds(lease, now, i)
    ensures Renew(lease, now, i, ttl) == Current(lease, now) == Release(lease, now, i)
  {
  }

  function Run2(s: State, a: Action, b: Action, rest: seq<Action>, ttl: int): (s': State)
    requires ttl >= 0
    ensures s' == Step(Step(s, a, ttl), b, ttl)
    ensures Run(s, [a, b] + rest, ttl) == Run(s', rest, ttl)
  {
    assert ([a, b] + rest)[1..] == [b] + rest && ([b] + rest)[1..] == rest;
    Step(Step(s, a, ttl), b, ttl)
  }

  /**
   The flag, unlike the context, can overlap on shutdown: between its release
   of the lease and its resignation an elector is still leader while another
   one has been elected.
   */
  lemma ShutdownOverlap(s: State, i: nat, j: nat, ttl: int)
    requires Inv(s) && ttl > 0 && i < |s.nodes| && j < |s.nodes| && i != j
    requires PromptLeader(s, i) && s.nodes[i].reply.NoReply?
    requires !s.nodes[j].isLeader && !s.nodes[j].cancelled && !s.nodes[j].stopping && s.nodes[j].reply.NoReply?
    ensures var s' := Run(s, [Cancel(i), Leave(i), StepDown(i, Works), Send(j, Works), Handle(j)], ttl);
            && |s'.nodes| == |s.nodes| && s'.nodes[i].isLeader && s'.nodes[j].isLeader
            && !s'.nodes[i].running && s'.nodes[j].running
  {
    assert NodeOk(s.lease, s.now, i, s.nodes[i]);
    var s2 := Run2(s, Cancel(i), Leave(i), [StepDown(i, Works), Send(j, Works), Handle(j)], ttl);
    assert [Cancel(i), Leave(i)] + [StepDown(i, Works), Send(j, Works), Handle(j)]
        == [Cancel(i), Leave(i), StepDown(i, Works), Send(j, Works), Handle(j)];
    assert s2.lease == s.lease && s2.now == s.now && s2.nodes[i].stopping;
    var s4 := Run2(s2, StepDown(i, Works), Send(j, Works), [Handle(j)], ttl);
    assert [StepDown(i, Works), Send(j, Works)] + [Handle(j)] == [StepDown(i, Works), Send(j, Works), Handle(j)];
    assert s4.nodes[j].reply == Won;
    var s5 := Step(s4, Handle(j), ttl);
    assert [Handle(j)][1..] == [] && Run(s4, [Handle(j)], ttl) == Run(s5, [], ttl) == s5;
    assert s5.nodes[j].isLeader;
  }

  /** Such a state is reached from the start by electing node 0 of two, and so is the overlap. */
  lemma TwoLeaderFlags(t0: int, ttl: int) returns (acts: seq<Action>)
    requires ttl > 0
    ensures var s := Run(Init(2, t0), acts, ttl);
            && |s.nodes| == 2 && s.nodes[0].isLeader && s.nodes[1].isLeader
            && !s.nodes[0].running && s.nodes[1].running
  {
    var s0 := Init(2, t0);
    var rest := [Cancel(0), Leave(0), StepDown(0, Works), Send(1, Works), Handle(1)];
    acts := [Send(0, Works), Handle(0)] + rest;
    var s := Run2(s0, Send(0, Works), Handle(0), rest, ttl);
    assert s.nodes[0].isLeader && !s.nodes[1].isLeader && s.lease == Held(0, t0 + ttl);
    StepKeepsInv(s0, Send(0, Works), ttl);
    StepKeepsInv(Step(s0, Send(0, Works), ttl), Handle(0), ttl);
    ShutdownOverlap(s, 0, 1, ttl);
  }

  // ---------------------------------------------------------------------------
  // A prompt leader is never deposed
  // ---------------------------------------------------------------------------

  /** Exactly from one second on, the heartbeat interval is shorter than a renewal. */
  lemma HeartbeatBeatsRenewal(ttl: int)
    requires ttl > 0
    ensures ttl / 3 < WholeSeconds(ttl) <==> ttl >= SECOND
  {
    assert ttl - SECOND < WholeSeconds(ttl) <= ttl;
  }

  function Waited(acts: seq<Action>): nat {
    if acts == [] then 0 else Waited(acts[..|acts| - 1]) + (if acts[|acts| - 1].Wait? then acts[|acts| - 1].d else 0)
  }

  predicate ByOthers(acts: seq<Action>, i: nat) {
    forall k :: 0 <= k < |acts| ==> acts[k].Wait? || acts[k].i != i
  }

  lemma {:induction false} RunSnoc(s: State, acts: seq<Action>, ttl: int)
    requires ttl >= 0 && acts != []
    ensures Run(s, acts, ttl) == Step(Run(s, acts[..|acts| - 1], ttl), acts[|acts| - 1], ttl)
    decreases |acts|
  {
    if |acts| == 1 {
      assert acts[1..] == [];
      assert Run(Step(s, acts[0], ttl), [], ttl) == Step(s, acts[0], ttl);
    } else {
      RunSnoc(Step(s, acts[0], ttl), acts[1..], ttl);
      assert acts[..|acts| - 1][1..] == acts[1..][..|acts| - 2];
    }
  }

  /** What others do takes time, but does not touch node `i`. */
  lemma {:induction false} OthersLeaveAlone(s: State, acts: seq<Action>, ttl: int, i: nat)
    requires ttl >= 0 && i < |s.nodes| && ByOthers(acts, i)
    ensures var s' := Run(s, acts, ttl);
            |s'.nodes| == |s.nodes| && s'.nodes[i] == s.nodes[i] && s'.now == s.now + Waited(acts)
  {
    if acts != [] {
      OthersLeaveAlone(s, acts[..|acts| - 1], ttl, i);
      RunSnoc(s, acts, ttl);
    }
  }

  /** What others do, and how long it takes, before a tick and between its command and its reply. */
  datatype Round = Round(before: seq<Action>, during: seq<Action>)

  /** The tick of node `i` with its round. */
  function Heartbeat(s: State, r: Round, ttl: int, i: nat): State
    requires ttl >= 0
  {
    Step(Run(Step(Run(s, r.before, ttl), Send(i, Works), ttl), r.during, ttl), Handle(i), ttl)
  }

  /** A leader that wrote the lease `ago` before now. */
  predicate FreshLeader(s: State, i: nat, ttl: int, ago: int)
    requires ttl >= 0
  {
    i < |s.nodes| && s.nodes[i].isLeader && !s.nodes[i].stopping && s.nodes[i].reply.NoReply?
    && s.nodes[i].until >= s.now - ago + WholeSeconds(ttl)
  }

  lemma SendRenews(s: State, i: nat, ttl: int)
    requires Inv(s) && ttl >= 0 && i < |s.nodes| && s.now < s.nodes[i].until
    requires s.nodes[i].isLeader && !s.nodes[i].stopping && s.nodes[i].reply.NoReply?
    ensures var s' := Step(s, Send(i, Works), ttl);
            && Inv(s') && |s'.nodes| == |s.nodes| && s'.now == s.now
            && s'.nodes[i] == s.nodes[i].(reply := Renewed, until := s.now + WholeSeconds(ttl))
  {
    assert NodeOk(s.lease, s.now, i, s.nodes[i]);
    StepKeepsInv(s, Send(i, Works), ttl);
  }

  lemma HeartbeatKeepsLeader(s: State, r: Round, ttl: int, i: nat, ago: nat)
    requires Inv(s) && ttl >= 0 && FreshLeader(s, i, ttl, ago)
    requires ByOthers(r.before, i) && ByOthers(r.during, i) && ago + Waited(r.before) < WholeSeconds(ttl)
    ensures var s' := Heartbeat(s, r, ttl, i);
            Inv(s') && FreshLeader(s', i, ttl, Waited(r.during)) && s'.nodes[i].running == s.nodes[i].running
  {
    RunKeepsInv(s, r.before, ttl);
    OthersLeaveAlone(s, r.before, ttl, i);
    var m := Run(s, r.before, ttl);
    SendRenews(m, i, ttl);
    var n := Step(m, Send(i, Works), ttl);
    RunKeepsInv(n, r.during, ttl);
    OthersLeaveAlone(n, r.during, ttl, i);
    StepKeepsInv(Run(n, r.during, ttl), Handle(i), ttl);
  }

  function Heartbeats(s: State, rounds: seq<Round>, ttl: int, i: nat): State
    requires ttl >= 0
    decreases |rounds|
  {
    if rounds == [] then s else Heartbeats(Heartbeat(s, rounds[0], ttl, i), rounds[1..], ttl, i)
  }

  /** Each command leaves less than `gap` after the one before; the last one left `ago` before now. */
  predicate InTime(rounds: seq<Round>, gap: int, ago: nat)
    decreases |rounds|
  {
    rounds != [] ==> ago + Waited(rounds[0].before) < gap && InTime(rounds[1..], gap, Waited(rounds[0].during))
  }

  /**
   An elector whose commands are answered and leave within the lease time of the
   one before stays leader for ever, however late its ticks come within that, and
   whatever the others do before a command and between it and its reply.
   */
  lemma {:induction false} PromptLeaderStays(s: State, rounds: seq<Round>, ttl: int, i: nat, ago: nat)
    requires Inv(s) && ttl >= 0 && FreshLeader(s, i, ttl, ago) && InTime(rounds, WholeSeconds(ttl), ago)
    requires forall k :: 0 <= k < |rounds| ==> ByOthers(rounds[k].before, i) && ByOthers(rounds[k].during, i)
    ensures var s' := Heartbeats(s, rounds, ttl, i);
            i < |s'.nodes| && s'.nodes[i].isLeader && s'.nodes[i].running == s.nodes[i].running
    decreases |rounds|
  {
    if rounds != [] {
      HeartbeatKeepsLeader(s, rounds[0], ttl, i, ago);
      PromptLeaderStays(Heartbeat(s, rounds[0], ttl, i), rounds[1..], ttl, i, Waited(rounds[0].during));
    }
  }

  lemma {:induction false} LargerGap(rounds: seq<Round>, gap: int, larger: int, ago: nat)
    requires InTime(rounds, gap, ago) && gap <= larger
    ensures InTime(rounds, larger, ago)
    decreases |rounds|
  {
    if rounds != [] {
      LargerGap(rounds[1..], gap, larger, Waited(rounds[0].during));
    }
  }

  /** In particular ticks at their period of ttl/3 are prompt enough, for every ttl of at least one second. */
  lemma {:induction false} PunctualLeaderStays(s: State, rounds: seq<Round>, ttl: int, i: nat, ago: nat)
    requires Inv(s) && ttl >= SECOND && FreshLeader(s, i, ttl, ago) && InTime(rounds, ttl / 3 + 1, ago)
    requires forall k :: 0 <= k < |rounds| ==> ByOthers(rounds[k].before, i) && ByOthers(rounds[k].during, i)
    ensures var s' := Heartbeats(s, rounds, ttl, i);
            i < |s'.nodes| && s'.nodes[i].isLeader && s'.nodes[i].running == s.nodes[i].running
  {
    HeartbeatBeatsRenewal(ttl);
    LargerGap(rounds, ttl / 3 + 1, WholeSeconds(ttl), ago);
    PromptLeaderStays(s, rounds, ttl, i, ago);
  }

  /** Below one second the first renewal deletes the lease, and the next tick deposes the leader. */
  lemma SubSecondRenewalDeletes(s: State, i: nat, ttl: int)
    requires 0 < ttl < SECOND && i < |s.nodes| && Holds(s.lease, s.now, i)
    requires s.nodes[i].isLeader && !s.nodes[i].stopping && s.nodes[i].reply.NoReply?
    ensures var s1 := Heartbeat(s, Round([], []), ttl, i);
            s1.nodes[i].isLeader && Current(s1.lease, s1.now) == Free
            && !Heartbeat(s1, Round([], []), ttl, i).nodes[i].isLeader
  {
  }

  // ---------------------------------------------------------------------------
  // The elector
  // ---------------------------------------------------------------------------

  /** The lease key in Redis, with Redis's clock. */
  class LeaseKey {
    var lease: Lease
    var now: int

    constructor (now: int)
      ensures lease == Free && this.now == now
    {
      this.lease, this.now := Free, now;
    }
  }

  class Elector {
    const rdb: LeaseKey
    const id: nat
    const ttl: int
    var isLeader: bool
    var leaderRunning: bool

    constructor (rdb: LeaseKey, id: nat, ttl: int)
      ensures this.rdb == rdb && this.id == id && this.ttl == (if ttl <= 0 then 10 * SECOND else ttl)
      ensures this.ttl > 0 && !isLeader && !leaderRunning
    {
      this.rdb, this.id := rdb, id;
      this.ttl := if ttl <= 0 then 10 * SECOND else ttl;
      isLeader, leaderRunning := false, false;
    }

    ghost function View(): Node
      reads this
    {
      Node(isLeader, leaderRunning, false, false, NoReply, 0)
    }

    /**
     One tick of Run whose reply is handled at once.  A leader stays one exactly if
     the command works and the lease is its own and not run out; another elector
     becomes one exactly if it works and there is no such lease.
     */
    method Tick(net: Net)
      requires ttl >= 0
      modifies this`isLeader, this`leaderRunning, rdb`lease
      ensures var lease := old(rdb.lease);
              var free := lease.Free? || rdb.now >= lease.expires;
              var mine := !free && lease.owner == id;
              && (isLeader <==> net == Works && if old(isLeader) then mine else free)
              && (leaderRunning <==> if old(isLeader) then isLeader && old(leaderRunning) else isLeader || old(leaderRunning))
              && rdb.lease == if net == Fails(false) then lease
                              else if old(isLeader) then
                                (if free then Free else if mine then Held(id, rdb.now + ttl / SECOND * SECOND) else lease)
                              else if free then Held(id, rdb.now + ttl) else lease
      ensures var was := State(rdb.now, old(rdb.lease), seq(id + 1, _ => old(View())));
              var next := Step(Step(was, Send(id, net), ttl), Handle(id), ttl);
              rdb.lease == next.lease && isLeader == next.nodes[id].isLeader && leaderRunning == next.nodes[id].running
    {
      var current := if rdb.lease.Held? && rdb.now >= rdb.lease.expires then Free else rdb.lease;
      if isLeader {
        var renewed := false;
        if TakesEffect(net) {
          if current.Held? && current.owner == id {
            rdb.lease := Held(id, rdb.now + ttl / SECOND * SECOND);
            renewed := net.Works?;
          } else {
            rdb.lease := current;
          }
        }
        if !renewed {
          isLeader := false;
          leaderRunning := false;
        }
      } else if TakesEffect(net) {
        if current.Free? {
          rdb.lease := Held(id, rdb.now + ttl);
          if net.Works? {
            isLeader := true;
            leaderRunning := true;
          }
        } else {
          rdb.lease := current;
        }
      }
    }

    /** Shutdown: cancel the context, then stepDown. */
    method Stop(net: Net)
      modifies this`isLeader, this`leaderRunning, rdb`lease
      ensures !isLeader && !leaderRunning
      ensures var lease := old(rdb.lease);
              rdb.lease == if old(isLeader) && net != Fails(false)
                              && (lease.Free? || rdb.now >= lease.expires || lease.owner == id) then Free else lease
    {
      leaderRunning := false;
      if isLeader {
        if TakesEffect(net) {
          rdb.lease := Release(rdb.lease, rdb.now, id);
        }
        isLeader := false;
      }
    }
  }
}
