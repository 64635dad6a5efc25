/** `PPMessager`: how every rank finds the process groups it shares with its two neighbours. */
module Wiring {
  import opened Prelude

  /** A neighbour: its world rank and the handles of the two groups shared with it. A handle is the
      position of the group among all groups the process has created; `new_group` is collective, so
      the same position on two ranks is the same group when their creation logs agree. */
  datatype Link = Link(peer: int, cpu: nat, gpu: nat)

  function Succ(i: nat, n: nat): nat
    requires n > 0
  {
    (i + 1) % n
  }

  function Pred(i: nat, n: nat): nat
    requires n > 0
  {
    (i + n - 1) % n
  }

  lemma {:induction false} SuccPred(i: nat, n: nat)
    requires i < n
    ensures Succ(i, n) == (if i + 1 < n then i + 1 else 0)
    ensures Pred(i, n) == (if i > 0 then i - 1 else n - 1)
    ensures Pred(Succ(i, n), n) == i && Succ(Pred(i, n), n) == i
    ensures n >= 2 ==> Succ(i, n) != i
  {
    Wrap(i + 1, n);
    Wrap(i + n - 1, n);
    if i + 1 < n { Wrap(i + 1 + n - 1, n); } else { Wrap(0 + n - 1, n); }
    if i > 0 { Wrap(i - 1 + 1, n); } else { Wrap(n - 1 + 1, n); }
  }

  /** The groups one replica creates, in order: for every rank a CPU and a GPU group with its successor. */
  function PairLog(ranks: seq<int>, upTo: nat): (log: seq<seq<int>>)
    requires upTo <= |ranks|
    ensures |log| == 2 * upTo
  {
    if upTo == 0 then []
    else
      var pair := [ranks[upTo - 1], ranks[Succ(upTo - 1, |ranks|)]];
      PairLog(ranks, upTo - 1) + [pair, pair]
  }

  function ReplicaRanks(replica: nat, n: nat): seq<int>
  {
    seq(n, i => replica * n + i)
  }

  /** The groups of the first `replicas` replicas: the same log on every rank. */
  function WorldLog(replicas: nat, n: nat): (log: seq<seq<int>>)
    ensures |log| == 2 * (replicas * n)
  {
    if replicas == 0 then []
    else
      assert replicas * n == (replicas - 1) * n + n;
      WorldLog(replicas - 1, n) + PairLog(ReplicaRanks(replicas - 1, n), n)
  }

  function NextLink(replica: nat, i: nat, n: nat): Link
    requires i < n
  {
    Link(replica * n + Succ(i, n), 2 * (replica * n + i), 2 * (replica * n + i) + 1)
  }

  function PrevLink(replica: nat, i: nat, n: nat): Link
    requires i < n
  {
    Link(replica * n + Pred(i, n), 2 * (replica * n + Pred(i, n)), 2 * (replica * n + Pred(i, n)) + 1)
  }

  /** `world_size // pp_size`, and whether a rank belongs to one of these replicas. */
  function Replicas(worldSize: nat, n: nat): nat
    requires n > 0
  {
    worldSize / n
  }

  predicate HasPlace(rank: nat, worldSize: nat, n: nat)
    requires n > 0
  {
    rank < Replicas(worldSize, n) * n
  }

  /** The links of rank `i` of a replica, whose groups are created after the first `h`. */
  function NextAmong(worldRanks: seq<int>, h: nat, i: nat): Link
    requires i < |worldRanks|
  {
    Link(worldRanks[Succ(i, |worldRanks|)], h + 2 * i, h + 2 * i + 1)
  }

  function PrevAmong(worldRanks: seq<int>, h: nat, i: nat): Link
    requires i < |worldRanks|
  {
    var p := Pred(i, |worldRanks|);
    Link(worldRanks[p], h + 2 * p, h + 2 * p + 1)
  }

  lemma {:induction false} PairLogStep(ranks: seq<int>, i: nat)
    requires i < |ranks|
    ensures var pair := [ranks[i], ranks[Succ(i, |ranks|)]];
            PairLog(ranks, i + 1) == PairLog(ranks, i) + [pair] + [pair]
  {
    var pair := [ranks[i], ranks[Succ(i, |ranks|)]];
    assert [pair, pair] == [pair] + [pair];
  }

  class PPMessager {
    var next: Option<Link>
    var prev: Option<Link>
    var log: seq<seq<int>>

    constructor ()
      ensures next == None && prev == None && log == []
    {
      next, prev, log := None, None, [];
    }

    /** `torch.distributed.new_group`. */
    method NewGroup(pair: seq<int>) returns (handle: nat)
      modifies `log
      ensures handle == |old(log)| && log == old(log) + [pair]
    {
      handle := |log|;
      log := log + [pair];
    }

    method CreatePairGroups(myRank: nat, worldRanks: seq<int>, store: bool)
      requires myRank < |worldRanks|
      modifies this
      ensures log == old(log) + PairLog(worldRanks, |worldRanks|)
      ensures next == if store then Some(NextAmong(worldRanks, |old(log)|, myRank)) else old(next)
      ensures prev == if store && |worldRanks| >= 2 then Some(PrevAmong(worldRanks, |old(log)|, myRank)) else old(prev)
    {
      hide Succ, Pred, PairLog;
      var n := |worldRanks|;
      SuccPred(myRank, n);
      for rank := 0 to n
        invariant log == old(log) + PairLog(worldRanks, rank)
        invariant next == if store && rank > myRank then Some(NextAmong(worldRanks, |old(log)|, myRank)) else old(next)
        invariant prev == if store && n >= 2 && rank > Pred(myRank, n)
                          then Some(PrevAmong(worldRanks, |old(log)|, myRank))
                          else old(prev)
      {
        SuccPred(rank, n);
        PairLogStep(worldRanks, rank);
        var nextRank := Succ(rank, n);
        var pair := [worldRanks[rank], worldRanks[nextRank]];
        var cpu := NewGroup(pair);
        var gpu := NewGroup(pair);
        if store && myRank == rank {
          next := Some(Link(pair[1], cpu, gpu));
        } else if store && myRank == nextRank {
          prev := Some(Link(pair[0], cpu, gpu));
        }
      }
    }

    /** `_init_pp_groups_within_world`, on a messager that has created no group yet. Ranks that no replica has a
        place for create the same groups and keep no links. */
    method InitWithinWorld(worldRank: nat, worldSize: nat, n: nat)
      requires n > 0 && worldRank < worldSize && log == [] && next == None && prev == None
      modifies this
      ensures log == WorldLog(Replicas(worldSize, n), n)
      ensures next == if HasPlace(worldRank, worldSize, n) then Some(NextLink(worldRank / n, worldRank % n, n))
                      else None
      ensures prev == if HasPlace(worldRank, worldSize, n) && n >= 2
                      then Some(PrevLink(worldRank / n, worldRank % n, n)) else None
    {
      hide HasPlace, WorldLog, NextLink, PrevLink;
      ReplicaInRange(worldRank, worldSize, n);
      InitReplicas(worldRank / n, worldRank % n, Replicas(worldSize, n), n);
    }

    method InitReplicas(mine: nat, me: nat, replicas: nat, n: nat)
      requires me < n && log == [] && next == None && prev == None
      modifies this
      ensures log == WorldLog(replicas, n)
      ensures next == if mine < replicas then Some(NextLink(mine, me, n)) else None
      ensures prev == if mine < replicas && n >= 2 then Some(PrevLink(mine, me, n)) else None
    {
      hide WorldLog, PairLog, Succ, Pred;
      for replica := 0 to replicas
        invariant log == WorldLog(replica, n)
        invariant replica <= mine ==> next == None && prev == None
        invariant replica > mine ==> next == Some(NextLink(mine, me, n))
        invariant replica > mine ==> prev == if n >= 2 then Some(PrevLink(mine, me, n)) else None
      {
        var worldRanks := seq(n, i => replica * n + i);
        WorldLogStep(replica, n);
        SuccPred(me, n);
        CreatePairGroups(me, worldRanks, replica == mine);
      }
    }
  }

  lemma {:induction false} WorldLogStep(replicas: nat, n: nat)
    ensures seq(n, i => replicas * n + i) == ReplicaRanks(replicas, n)
    ensures WorldLog(replicas + 1, n) == WorldLog(replicas, n) + PairLog(ReplicaRanks(replicas, n), n)
  {
  }

  lemma {:induction false} ReplicaInRange(rank: nat, worldSize: nat, n: nat)
    requires n > 0
    ensures HasPlace(rank, worldSize, n) <==> rank / n < Replicas(worldSize, n)
  {
    var replicas := Replicas(worldSize, n);
    if rank / n >= replicas { MulLe(replicas, rank / n, n); } else { MulLe(rank / n + 1, replicas, n); }
  }

  /** On a ring of at least two ranks, each rank's link to its successor is its successor's link back:
      same CPU group, same GPU group, and each names the other. */
  lemma {:induction false} NeighboursShareGroups(replica: nat, i: nat, n: nat)
    requires i < n && n >= 2
    ensures var next, back := NextLink(replica, i, n), PrevLink(replica, Succ(i, n), n);
            && next.cpu == back.cpu && next.gpu == back.gpu && next.cpu != next.gpu
            && next.peer == replica * n + Succ(i, n) && back.peer == replica * n + i
  {
    SuccPred(i, n);
  }

  lemma {:induction false} PairLogAt(ranks: seq<int>, upTo: nat, i: nat)
    requires i < upTo <= |ranks|
    ensures PairLog(ranks, upTo)[2 * i] == PairLog(ranks, upTo)[2 * i + 1] == [ranks[i], ranks[Succ(i, |ranks|)]]
  {
    if i < upTo - 1 { PairLogAt(ranks, upTo - 1, i); }
  }

  /** Both groups of a link are this pair. */
  predicate Names(log: seq<seq<int>>, link: Link, pair: seq<int>)
  {
    link.cpu < |log| && link.gpu < |log| && log[link.cpu] == log[link.gpu] == pair
  }

  lemma {:induction false} NamesStays(front: seq<seq<int>>, pairs: seq<seq<int>>, link: Link, pair: seq<int>)
    requires Names(front, link, pair)
    ensures Names(front + pairs, link, pair)
  {
  }

  lemma {:induction false} LastReplicaNames(replica: nat, i: nat, n: nat)
    requires i < n
    ensures Names(WorldLog(replica + 1, n), NextLink(replica, i, n), [replica * n + i, replica * n + Succ(i, n)])
  {
    hide WorldLog, PairLog, Succ;
    var base := replica * n;
    var front, pairs := WorldLog(replica, n), PairLog(ReplicaRanks(replica, n), n);
    assert |front| == 2 * base;
    SuccPred(i, n);
    PairLogAt(ReplicaRanks(replica, n), n, i);
    WorldLogStep(replica, n);
  }

  /** The group behind a link really is the pair of the two ranks. */
  lemma {:induction false} LinkNamesItsPair(replicas: nat, replica: nat, i: nat, n: nat)
    requires replica < replicas && i < n
    ensures Names(WorldLog(replicas, n), NextLink(replica, i, n), [replica * n + i, replica * n + Succ(i, n)])
    decreases replicas
  {
    hide Succ, WorldLog, PairLog, Names, NextLink;
    if replica < replicas - 1 {
      LinkNamesItsPair(replicas - 1, replica, i, n);
      WorldLogStep(replicas - 1, n);
      NamesStays(WorldLog(replicas - 1, n), PairLog(ReplicaRanks(replicas - 1, n), n), NextLink(replica, i, n),
                 [replica * n + i, replica * n + Succ(i, n)]);
    } else {
      LastReplicaNames(replica, i, n);
    }
  }

  /** Two different links of one world never share a group. */
  lemma {:induction false} LinksAreDistinct(replica: nat, i: nat, replica': nat, i': nat, n: nat)
    requires i < n && i' < n && NextLink(replica, i, n).cpu == NextLink(replica', i', n).cpu
    ensures replica == replica' && i == i'
  {
    DivModUnique(replica, i, replica', i', n);
  }
}
