/**
 The pipeline as P ranks on a ring with blocking, unbuffered sends and receives. Rank 0 runs one
 call of `infer` per turn: it receives the oldest output before it sends the new batch. Ranks 1..P-1
 alternate between a receive from the previous rank and a send to the next. `stages[j]` is rank j+1:
 None while it waits to receive, Some(b) while it holds batch b and waits to send.
 */
module Ring {
  import opened Prelude

  /** A batch, known by the number of the call that issued it. */
  type Batch = nat

  datatype RankZero =
    | Ready                              // between two calls of infer
    | Receiving(next: Option<Batch>)     // blocked on the oldest output; then sends `next`, if any
    | Sending(batch: Batch)              // blocked until rank 1 receives

  /** `window` holds what the last P-1 calls issued, oldest first: None for a call with an empty batch. */
  datatype State = State(zero: RankZero, stages: seq<Option<Batch>>, window: seq<Option<Batch>>,
                         issued: seq<Batch>, received: seq<Batch>)

  predicate Init(ranks: nat, s: State)
  {
    && ranks >= 2 && s.zero == Ready && |s.stages| == ranks - 1 && |s.window| == ranks - 1
    && (forall j :: 0 <= j < |s.stages| ==> s.stages[j] == None)
    && (forall j :: 0 <= j < |s.window| ==> s.window[j] == None)
    && s.issued == [] && s.received == []
  }

  function Log(x: Option<Batch>): seq<Batch> { if x.Some? then [x.value] else [] }

  /** A call of `infer` starts with batch `x`; `recv_infer_out` is whether the call P-1 turns ago issued. */
  predicate Begin(s: State, s': State, x: Option<Batch>)
  {
    && s.zero == Ready && s.window != []
    && if s.window[0].Some? then s' == s.(zero := Receiving(x))
       else s' == Opened(s, x)
  }

  /** Past the receive: the window moves on and the send, if any, is next. */
  function Opened(s: State, x: Option<Batch>): State
    requires s.window != []
  {
    s.(zero := if x.Some? then Sending(x.value) else Ready,
       window := s.window[1..] + [x], issued := s.issued + Log(x))
  }

  /** The last rank and rank 0 meet: an output is received. */
  predicate ReceiveOutput(s: State, s': State)
  {
    && s.zero.Receiving? && s.window != [] && s.stages != []
    && s.stages[|s.stages| - 1].Some?
    && var b := s.stages[|s.stages| - 1].value;
       s' == Opened(s.(stages := s.stages[|s.stages| - 1 := None], received := s.received + [b]), s.zero.next)
  }

  /** Rank 0 and rank 1 meet. */
  predicate SendFirst(s: State, s': State)
  {
    && s.zero.Sending? && s.stages != [] && s.stages[0] == None
    && s' == s.(zero := Ready, stages := s.stages[0 := Some(s.zero.batch)])
  }

  /** Ranks j+1 and j+2 meet. */
  predicate Hand(s: State, s': State, j: nat)
  {
    && j + 1 < |s.stages| && s.stages[j].Some? && s.stages[j + 1] == None
    && s' == s.(stages := s.stages[j := None][j + 1 := s.stages[j]])
  }

  /** Steps inside a call of `infer` and inside the other ranks' loops. */
  ghost predicate Internal(s: State, s': State)
  {
    ReceiveOutput(s, s') || SendFirst(s, s') || exists j :: Hand(s, s', j)
  }

  ghost predicate Next(s: State, s': State)
  {
    Internal(s, s') || exists x :: Begin(s, s', x)
  }

  /** Batches on ranks 1..P-1, the one closest to the end of the ring first. */
  function OnRing(stages: seq<Option<Batch>>): seq<Batch>
  {
    if stages == [] then [] else OnRing(stages[1..]) + Log(stages[0])
  }

  function Somes(window: seq<Option<Batch>>): seq<Batch>
  {
    if window == [] then [] else Log(window[0]) + Somes(window[1..])
  }

  /** The ring holds exactly the batches of the window, in order; while rank 0 sends, all but the newest. */
  ghost predicate RingInv(ranks: nat, s: State)
  {
    && ranks >= 2 && |s.stages| == ranks - 1 == |s.window|
    && s.issued == s.received + Somes(s.window)
    && match s.zero
       case Ready => OnRing(s.stages) == Somes(s.window)
       case Receiving(_) => OnRing(s.stages) == Somes(s.window) && s.window[0].Some?
       case Sending(b) => OnRing(s.stages) + [b] == Somes(s.window) && s.window[ranks - 2] == Some(b)
  }

  lemma {:induction false} OnRingConcat(a: seq<Option<Batch>>, b: seq<Option<Batch>>)
    ensures OnRing(a + b) == OnRing(b) + OnRing(a)
  {
    if a == [] {
      assert a + b == b;
    } else {
      assert (a + b)[1..] == a[1..] + b;
      OnRingConcat(a[1..], b);
    }
  }

  lemma {:induction false} SomesConcat(a: seq<Option<Batch>>, b: seq<Option<Batch>>)
    ensures Somes(a + b) == Somes(a) + Somes(b)
  {
    if a == [] {
      assert a + b == b;
    } else {
      assert (a + b)[1..] == a[1..] + b;
      SomesConcat(a[1..], b);
    }
  }

  lemma {:induction false} OnRingSingle(x: Option<Batch>)
    ensures OnRing([x]) == Log(x) == Somes([x])
  {
    assert [x][1..] == [];
  }

  lemma {:induction false} NoneOnRing(stages: seq<Option<Batch>>)
    requires forall j :: 0 <= j < |stages| ==> stages[j] == None
    ensures OnRing(stages) == [] == Somes(stages)
  {
    if stages != [] { NoneOnRing(stages[1..]); }
  }

  lemma {:induction false} WindowMoves(s: State, x: Option<Batch>)
    requires s.window != []
    ensures Log(s.window[0]) + Somes(Opened(s, x).window) == Somes(s.window) + Log(x)
  {
    SomesConcat(s.window[1..], [x]);
    OnRingSingle(x);
    assert Log(s.window[0]) + (Somes(s.window[1..]) + Log(x)) == (Log(s.window[0]) + Somes(s.window[1..])) + Log(x);
  }

  lemma {:induction false} HandKeeps(s: State, s': State, j: nat)
    requires Hand(s, s', j)
    ensures OnRing(s'.stages) == OnRing(s.stages)
  {
    var a, b := s.stages[..j], s.stages[j + 2..];
    assert s.stages == a + [s.stages[j], None] + b;
    assert s'.stages == a + [None, s.stages[j]] + b;
    OnRingConcat(a + [s.stages[j], None], b);
    OnRingConcat(a, [s.stages[j], None]);
    OnRingConcat(a + [None, s.stages[j]], b);
    OnRingConcat(a, [None, s.stages[j]]);
    assert [s.stages[j], None] == [s.stages[j]] + [None] && [None, s.stages[j]] == [None] + [s.stages[j]];
    OnRingConcat([s.stages[j]], [None]);
    OnRingConcat([None], [s.stages[j]]);
    OnRingSingle(s.stages[j]);
    OnRingSingle(None);
  }

  lemma {:induction false} LastLeaves(stages: seq<Option<Batch>>)
    requires stages != [] && stages[|stages| - 1].Some?
    ensures OnRing(stages) == [stages[|stages| - 1].value] + OnRing(stages[|stages| - 1 := None])
  {
    var n := |stages| - 1;
    assert stages == stages[..n] + [stages[n]] && stages[n := None] == stages[..n] + [None];
    OnRingConcat(stages[..n], [stages[n]]);
    OnRingConcat(stages[..n], [None]);
    OnRingSingle(stages[n]);
    OnRingSingle(None);
  }

  lemma {:induction false} BeginKeeps(ranks: nat, s: State, s': State, x: Option<Batch>)
    requires RingInv(ranks, s) && Begin(s, s', x)
    ensures RingInv(ranks, s')
  {
    WindowMoves(s, x);
    if s.window[0] == None {
      assert Log(s.window[0]) + Somes(s'.window) == Somes(s'.window);
      assert (s.received + Somes(s.window)) + Log(x) == s.received + (Somes(s.window) + Log(x));
      assert s'.zero == Ready ==> Somes(s.window) + Log(x) == Somes(s.window);
    }
  }

  /** The output that rank 0 receives is the one of the batch issued P-1 calls ago, the oldest in flight. */
  lemma {:induction false} ReceiveKeeps(ranks: nat, s: State, s': State)
    requires RingInv(ranks, s) && ReceiveOutput(s, s')
    ensures RingInv(ranks, s')
    ensures s.stages[|s.stages| - 1] == s.window[0]
  {
    hide OnRing;
    LastLeaves(s.stages);
    WindowMoves(s, s.zero.next);
    var b, x := s.stages[|s.stages| - 1].value, s.zero.next;
    var ring, window := OnRing(s'.stages), Somes(s'.window);
    assert OnRing(s.stages)[0] == b && Somes(s.window)[0] == s.window[0].value;
    assert ring == Somes(s.window)[1..];
    assert window == (Log(s.window[0]) + window)[1..] == (Somes(s.window) + Log(x))[1..] == ring + Log(x);
    assert s.received + Somes(s.window) + Log(x) == (s.received + [b]) + window;
  }

  lemma {:induction false} SendKeeps(ranks: nat, s: State, s': State)
    requires RingInv(ranks, s) && SendFirst(s, s')
    ensures RingInv(ranks, s')
  {
    assert s'.stages[1..] == s.stages[1..];
  }

  lemma {:induction false} NextKeeps(ranks: nat, s: State, s': State)
    requires RingInv(ranks, s) && Next(s, s')
    ensures RingInv(ranks, s')
  {
    hide RingInv, Begin, ReceiveOutput, SendFirst;
    if ReceiveOutput(s, s') {
      ReceiveKeeps(ranks, s, s');
    } else if SendFirst(s, s') {
      SendKeeps(ranks, s, s');
    } else if j :| Hand(s, s', j) {
      HandedOn(ranks, s, s', j);
    } else {
      var x :| Begin(s, s', x);
      BeginKeeps(ranks, s, s', x);
    }
  }

  lemma {:induction false} HandedOn(ranks: nat, s: State, s': State, j: nat)
    requires RingInv(ranks, s) && Hand(s, s', j)
    ensures RingInv(ranks, s')
  {
    HandKeeps(s, s', j);
  }

  /** A run of the ring. */
  ghost predicate IsRun(ranks: nat, run: seq<State>)
  {
    && run != [] && Init(ranks, run[0])
    && forall i :: 0 <= i < |run| - 1 ==> Next(run[i], run[i + 1])
  }

  lemma {:induction false} RunKeeps(ranks: nat, run: seq<State>, i: nat)
    requires IsRun(ranks, run) && i < |run|
    ensures RingInv(ranks, run[i])
  {
    if i == 0 {
      NoneOnRing(run[0].stages);
      NoneOnRing(run[0].window);
    } else {
      RunKeeps(ranks, run, i - 1);
      assert Next(run[i - 1], run[i - 1 + 1]);
      NextKeeps(ranks, run[i - 1], run[i]);
    }
  }

  /** Safety: rank 0 receives outputs in the order it issued their batches, none lost, none twice. */
  lemma {:induction false} OutputsArriveInOrder(ranks: nat, run: seq<State>, i: nat)
    requires IsRun(ranks, run) && i < |run|
    ensures run[i].received <= run[i].issued
    ensures |run[i].issued| - |run[i].received| <= ranks - 1
    ensures run[i].zero.Sending? ==> |OnRing(run[i].stages)| <= ranks - 2
  {
    RunKeeps(ranks, run, i);
    InOrder(ranks, run[i]);
  }

  lemma {:induction false} InOrder(ranks: nat, s: State)
    requires RingInv(ranks, s)
    ensures s.received <= s.issued && |s.issued| - |s.received| <= ranks - 1
    ensures s.zero.Sending? ==> |OnRing(s.stages)| <= ranks - 2
  {
    SomesBound(s.window);
  }

  lemma {:induction false} SomesBound(window: seq<Option<Batch>>)
    ensures |Somes(window)| <= |window|
  {
    if window != [] { SomesBound(window[1..]); }
  }

  /** A batch on the ring can be received, or handed on to a rank that waits. */
  lemma {:induction false} HeadMoves(stages: seq<Option<Batch>>) returns (j: nat)
    requires OnRing(stages) != []
    ensures j < |stages| && stages[j].Some?
    ensures forall k :: j < k < |stages| ==> stages[k] == None
  {
    if OnRing(stages[1..]) == [] {
      j := 0;
      forall k | 0 < k < |stages| ensures stages[k] == None { EmptyRing(stages[1..], k - 1); }
    } else {
      j := HeadMoves(stages[1..]);
      j := j + 1;
    }
  }

  lemma {:induction false} EmptyRing(stages: seq<Option<Batch>>, k: nat)
    requires OnRing(stages) == [] && k < |stages|
    ensures stages[k] == None
  {
    if k > 0 { EmptyRing(stages[1..], k - 1); }
  }

  /** With fewer batches than ranks, the first free rank can receive. */
  lemma {:induction false} FreeRank(stages: seq<Option<Batch>>) returns (j: nat)
    requires |OnRing(stages)| < |stages|
    ensures j < |stages| && stages[j] == None
    ensures forall k :: 0 <= k < j ==> stages[k].Some?
  {
    if stages[0] == None {
      j := 0;
    } else {
      j := FreeRank(stages[1..]);
      j := j + 1;
    }
  }

  /** Deadlock freedom, for any number of ranks: in every reachable state rank 0 is between two calls,
      or some send meets its receive. */
  lemma {:induction false} NoDeadlock(ranks: nat, run: seq<State>, i: nat)
    requires IsRun(ranks, run) && i < |run| && run[i].zero != Ready
    ensures exists s' :: Internal(run[i], s')
  {
    RunKeeps(ranks, run, i);
    var s' := SomeMeeting(ranks, run[i]);
  }

  /** A send that meets its receive. */
  lemma {:induction false} SomeMeeting(ranks: nat, s: State) returns (s': State)
    requires RingInv(ranks, s) && s.zero != Ready
    ensures Internal(s, s')
  {
    InOrder(ranks, s);
    if s.zero.Receiving? {
      var j := HeadMoves(s.stages);
      if j == |s.stages| - 1 {
        var b := s.stages[j].value;
        s' := Opened(s.(stages := s.stages[j := None], received := s.received + [b]), s.zero.next);
        assert ReceiveOutput(s, s') && Internal(s, s');
      } else {
        s' := s.(stages := s.stages[j := None][j + 1 := s.stages[j]]);
        assert Hand(s, s', j) && Internal(s, s');
      }
    } else {
      var j := FreeRank(s.stages);
      if j == 0 {
        s' := s.(zero := Ready, stages := s.stages[0 := Some(s.zero.batch)]);
        assert SendFirst(s, s') && Internal(s, s');
      } else {
        s' := s.(stages := s.stages[j - 1 := None][j := s.stages[j - 1]]);
        assert Hand(s, s', j - 1) && Internal(s, s');
      }
    }
  }

  /** Meetings still to come before every batch on the ring has left it. */
  function Distance(stages: seq<Option<Batch>>): nat
  {
    if stages == [] then 0 else (if stages[0].Some? then |stages| else 0) + Distance(stages[1..])
  }

  function CallLeft(ranks: nat, z: RankZero): nat
  {
    match z
    case Ready => 0
    case Receiving(_) => ranks + 2
    case Sending(_) => ranks + 1
  }

  function Work(ranks: nat, s: State): nat { Distance(s.stages) + CallLeft(ranks, s.zero) }

  lemma {:induction false} DistanceDrops(stages: seq<Option<Batch>>, j: nat)
    requires j + 1 < |stages| && stages[j].Some? && stages[j + 1] == None
    ensures Distance(stages[j := None][j + 1 := stages[j]]) == Distance(stages) - 1
  {
    var after := stages[j := None][j + 1 := stages[j]];
    if j == 0 {
      assert after[1..][1..] == stages[1..][1..];
    } else {
      DistanceDrops(stages[1..], j - 1);
      assert after[1..] == stages[1..][j - 1 := None][j := stages[j]];
    }
  }

  lemma {:induction false} DistanceOfLast(stages: seq<Option<Batch>>)
    requires stages != [] && stages[|stages| - 1].Some?
    ensures Distance(stages[|stages| - 1 := None]) == Distance(stages) - 1
  {
    if |stages| > 1 {
      DistanceOfLast(stages[1..]);
      assert stages[|stages| - 1 := None][1..] == stages[1..][|stages| - 2 := None];
    }
  }

  /** Every meeting brings the ring closer to rest, so a call of `infer` always returns: there is no
      infinite run of internal steps, and by `NoDeadlock` none that stops early. */
  lemma {:induction false} CallsReturn(ranks: nat, s: State, s': State)
    requires RingInv(ranks, s) && Internal(s, s')
    ensures Work(ranks, s') < Work(ranks, s)
  {
    if ReceiveOutput(s, s') {
      DistanceOfLast(s.stages);
    } else if SendFirst(s, s') {
      assert s'.stages[1..] == s.stages[1..];
    } else {
      var j :| Hand(s, s', j);
      DistanceDrops(s.stages, j);
    }
  }
}
