/** What a fixed cluster guarantees over whole runs. */
module Safety {
  import opened Config
  import opened Log
  import opened Wal
  import opened KeyValue
  import opened Election
  import opened Replication
  import opened ReplicationProof
  import opened ServerSpec
  import opened Cluster
  import opened Simulation
  import opened HandlerSim

  /** Where requests are concerned: a leader that takes a command logs that command, and acknowledgements
      log nothing. */
  ghost predicate LogsRequest(w: World, w': World, i: NodeId, s: Server, e: Event) {
    && i in w.logs && i in w'.logs
    && (e.Client? && s.role == Leader ==> w'.logs[i] == w.logs[i] + [Entry(|w.logs[i]| + 1, s.term, Op(e.cmd))])
    && (e.Deliver? && e.p.AppendReply? ==> w'.logs == w.logs)
  }

  ghost predicate LogsAt(ws: seq<World>, nets: seq<Net>, events: seq<Event>, k: nat)
    requires k < |events| && k + 1 < |ws| && k < |nets|
  {
    events[k].i in nets[k].servers && LogsRequest(ws[k], ws[k + 1], events[k].i, nets[k].servers[events[k].i], events[k])
  }

  lemma DeliverSim(w: World, i: NodeId, s: Server, p: Packet) returns (w': World)
    requires WorldInv(w) && NodeSim(w, i, s) && p.dst == i && PacketOk(w, p)
    ensures var (s', sent) := Receive(s, p);
      Steps(w, w', i) && NodeSim(w', i, s') && forall q {:trigger PacketOk(w', q)} :: q in sent ==> PacketOk(w', q)
    ensures p.AppendReply? ==> w'.logs == w.logs
  {
    hide WorldInv, NodeSim, Steps, PacketOk;
    match p
    case VoteAsk(_, _, _) => w' := VoteAskSim(w, i, s, p);
    case VoteReply(_, _, _) => w' := VoteReplySim(w, i, s, p);
    case AppendAsk(_, _, _) => w' := AppendAskSim(w, i, s, p);
    case AppendReply(_, _, _) => w' := AckSim(w, i, s, p);
  }

  lemma ReactSim(w: World, i: NodeId, s: Server, e: Event, net: Net) returns (w': World)
    requires Sim(w, net) && Possible(net, e) && Safe(net, e) && e.i == i && s == net.servers[i]
    ensures var (s', sent) := React(s, e);
      Steps(w, w', i) && NodeSim(w', i, s') && forall q {:trigger PacketOk(w', q)} :: q in sent ==> PacketOk(w', q)
    ensures LogsRequest(w, w', i, s, e)
  {
    hide WorldInv, Steps, Receive, Behind, HandleClientCommand, TransitionToCandidate, LoadState;
    assert NodeSim(w, i, net.servers[i]);
    NoSteps(w, i);
    match e {
      case Timeout(_) => w' := TimeoutSim(w, i, s);
      case Deliver(_, p) =>
        assert PacketOk(w, p);
        w' := DeliverSim(w, i, s, p);
      case Replicate(_, peer) =>
        w' := w;
        ReplicateSim(w, i, s, peer);
      case Probe(_, peer) =>
        w' := w;
        ProbeSim(w, i, s, peer);
      case Client(_, id, cmd) => w' := ClientSim(w, i, s, id, cmd);
      case Reboot(_) => w' := RebootSim(w, i, s);
    }
    InLogs(w, i, s);
    InLogs(w', i, React(s, e).0);
  }

  /** Every step of the cluster keeps it a simulation of the abstract protocol. */
  lemma StepSim(w: World, net: Net, e: Event) returns (w': World)
    requires Sim(w, net) && Possible(net, e) && Safe(net, e)
    ensures Sim(w', Step(net, e)) && Grows(w, w')
    ensures e.i in net.servers && LogsRequest(w, w', e.i, net.servers[e.i], e)
  {
    hide WorldInv, React, Fold, Replay, Behind, PacketOk;
    w' := ReactSim(w, e.i, net.servers[e.i], e, net);
    var net' := Step(net, e);
    forall j | j in net'.servers ensures NodeSim(w', j, net'.servers[j]) {
      if j != e.i {
        assert NodeSim(w, j, net.servers[j]);
        assert j in w.logs by { InLogs(w, j, net.servers[j]); }
        OthersSim(w, w', e.i, j, net.servers[j]);
      }
    }
    forall p | p in net'.packets ensures PacketOk(w', p) {
      if p in net.packets {
        assert PacketOk(w, p);
        PacketGrows(w, w', p);
      }
    }
  }

  lemma InLogs(w: World, i: NodeId, s: Server)
    requires NodeSim(w, i, s)
    ensures i in w.logs
  {
  }

  lemma FreshSim(members: set<NodeId>, i: NodeId, s: Server)
    requires i in members && Steady(s.config, members) && s == Fresh(i, s.config, s.threshold)
    ensures NodeSim(Begin(members), i, s)
  {
    assert Replay([]) == Replayed(0, None, []);
    assert Fold([]) == EmptyStore();
    hide Replay, Fold;
    var none: seq<Entry> := [];
    assert none[..0] == none;
  }

  lemma BeginMembers(members: set<NodeId>)
    ensures Begin(members).race.members == members
  {
  }

  lemma InitialSim(net: Net, members: set<NodeId>)
    requires |members| % 2 == 1 && Initial(net, members)
    ensures Sim(Begin(members), net)
  {
    hide WorldInv, NodeSim, Fresh, Begin, Steady;
    BeginInv(members);
    BeginMembers(members);
    forall i | i in net.servers ensures NodeSim(Begin(members), i, net.servers[i]) {
      assert NeverRan(net, members, i);
      FreshSim(members, i, net.servers[i]);
    }
  }

  /** A run of the cluster, seen as a growing history of the abstract protocol. */
  ghost predicate Tracks(ws: seq<World>, nets: seq<Net>) {
    && |ws| == |nets|
    && (forall k {:trigger ws[k]} :: 0 <= k < |ws| ==> Sim(ws[k], nets[k]))
    && (forall j, k {:trigger ws[j], ws[k]} :: 0 <= j <= k < |ws| ==> Grows(ws[j], ws[k]))
  }

  lemma GrowsReflexive(w: World)
    ensures Grows(w, w)
  {
  }

  lemma ShorterRun(members: set<NodeId>, nets: seq<Net>, events: seq<Event>, n: nat)
    requires SafeRun(members, nets, events) && n < |events|
    ensures SafeRun(members, nets[..n + 1], events[..n])
  {
    hide Possible, Step, Safe, Initial;
    forall k {:trigger events[..n][k]} | 0 <= k < n
      ensures Possible(nets[..n + 1][k], events[..n][k])
      ensures nets[..n + 1][k + 1] == Step(nets[..n + 1][k], events[..n][k])
      ensures Safe(nets[..n + 1][k], events[..n][k])
    {
      assert events[..n][k] == events[k];
    }
  }

  lemma TracksOneMore(ws: seq<World>, nets: seq<Net>, w: World, net: Net)
    requires Tracks(ws, nets) && ws != [] && Sim(w, net) && Grows(ws[|ws| - 1], w)
    ensures Tracks(ws + [w], nets + [net])
  {
    hide Sim, Grows;
    var ws', n := ws + [w], |ws|;
    forall j, k {:trigger ws'[j], ws'[k]} | 0 <= j <= k <= n ensures Grows(ws'[j], ws'[k]) {
      if j == n {
        GrowsReflexive(w);
      } else if k < n {
        assert Grows(ws[j], ws[k]);
      } else {
        assert Grows(ws[j], ws[n - 1]);
        GrowsTransitive(ws[j], ws[n - 1], w);
      }
    }
    forall k {:trigger ws'[k]} | 0 <= k <= n ensures Sim(ws'[k], (nets + [net])[k]) {
      if k < n {
        assert Sim(ws[k], nets[k]);
      }
    }
  }

  lemma {:induction false} RunSim(members: set<NodeId>, nets: seq<Net>, events: seq<Event>) returns (ws: seq<World>)
    requires SafeRun(members, nets, events)
    ensures Tracks(ws, nets)
    ensures |nets| == |events| + 1 && forall k: nat {:trigger LogsAt(ws, nets, events, k)} :: k < |events| ==> LogsAt(ws, nets, events, k)
    decreases |events|
  {
    hide Sim, Grows, Possible, Step, Safe, Initial, LogsRequest;
    var n := |events|;
    if n == 0 {
      InitialSim(nets[0], members);
      ws := [Begin(members)];
      GrowsReflexive(ws[0]);
    } else {
      var e := events[n - 1];
      ShorterRun(members, nets, events, n - 1);
      ws := RunSim(members, nets[..n], events[..n - 1]);
      assert Sim(ws[n - 1], nets[..n][n - 1]);
      var w := StepSim(ws[n - 1], nets[n - 1], e);
      TracksOneMore(ws, nets[..n], w, nets[n]);
      ghost var before := ws;
      ws := ws + [w];
      assert nets[..n] + [nets[n]] == nets;
      forall k: nat | k < n ensures LogsAt(ws, nets, events, k) {
        if k < n - 1 {
          assert LogsAt(before, nets[..n], events[..n - 1], k);
        }
      }
    }
  }
}
