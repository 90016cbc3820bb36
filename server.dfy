/**
 * Model of pkg/server/server.go: the bridge from gossip (Serf) membership
 * events to Raft reconfiguration, gated on leadership, and the two key/value
 * pass-throughs to the Raft agent.
 *
 * The metadata store and the Raft agent are not part of this model; they are
 * oracles. Each answers call by call: the k-th `metadata.Add` fails when
 * `addFails(k)`, the k-th `IsLeader()` answers `isLeader(k)`, the k-th
 * `AddVoter` fails when `addVoterFails(k)`.
 */
module Server {
  import opened Common

  /** A gossip member as Serf reports it: its node name and the Raft address it advertises. */
  datatype Member = Member(name: string, raftAddr: string)

  /** The record the metadata store keeps for a member. */
  datatype NodeData = NodeData(id: string, raftAddr: string)

  /** The record `metadata.Add` makes of a member. */
  function NodeDataOf(m: Member): (d: NodeData)
  {
    NodeData(m.name, m.raftAddr)
  }

  /** The `AddVoter(nodedata.Id(), nodedata.RaftAddr())` call issued for a member. */
  function VoterCallOf(m: Member): (c: VoterCall)
  {
    VoterCall(NodeDataOf(m).id, NodeDataOf(m).raftAddr)
  }

  /** The kinds of Serf event the handler can be given. */
  datatype EventKind = MemberJoin | MemberLeave | MemberFailed | MemberUpdate | MemberReap | UserEvent | QueryEvent

  /** A Serf event; only member events carry members. */
  datatype Event = Event(kind: EventKind, members: seq<Member>)

  /** The entry `SetKeyVal` submits to Raft: one flat key and a value. */
  datatype KVData = KVData(key: string, val: string)

  /** What a write submitted to the Raft agent, and the error it returned. */
  datatype Submission = Submission(entries: seq<KVData>, err: Outcome)

  /** A row read from the Raft agent's state machine, with its error. */
  datatype RowResult = RowResult(row: map<string, string>, err: Outcome)

  /** The Raft agent's answers. */
  datatype RaftAgent = RaftAgent(
    isLeader: nat -> bool,
    addVoterFails: nat -> bool,
    apply: KVData -> Outcome,
    getByRowKey: (string, string) -> RowResult)

  /**
   * The observable state of the membership bridge: the metadata store, the
   * `metadata.Add` calls made so far, the number of `IsLeader()` questions
   * asked so far, and the `AddVoter` calls made so far.
   */
  datatype Bridge = Bridge(
    metadata: map<string, NodeData>,
    adds: seq<Member>,
    leaderChecks: nat,
    voterCalls: seq<VoterCall>)

  // ---------------------------------------------------------------------
  // Specification of HandleEvent
  // ---------------------------------------------------------------------

  /**
   * One turn of the join loop: record the member (the store changes only if
   * the add succeeds, but the loop goes on either way), ask for leadership
   * once, and issue `AddVoter` only if the answer is yes.
   */
  function JoinMember(t: Bridge, m: Member, addFails: nat -> bool, isLeader: nat -> bool): (r: Bridge)
  {
    var metadata := if addFails(|t.adds|) then t.metadata else t.metadata[m.name := NodeDataOf(m)];
    var voterCalls := if isLeader(t.leaderChecks) then t.voterCalls + [VoterCallOf(m)] else t.voterCalls;
    Bridge(metadata, t.adds + [m], t.leaderChecks + 1, voterCalls)
  }

  /** The join loop over a batch, member by member in batch order. */
  function JoinBatch(t: Bridge, ms: seq<Member>, addFails: nat -> bool, isLeader: nat -> bool): (r: Bridge)
    decreases |ms|
  {
    if ms == [] then t
    else JoinMember(JoinBatch(t, ms[..|ms| - 1], addFails, isLeader), ms[|ms| - 1], addFails, isLeader)
  }

  /**
   * Reference definition of the voter additions a batch should cause: for
   * the i-th member, one call exactly when the (k + i)-th leadership
   * question was answered yes.
   */
  function Gated(ms: seq<Member>, isLeader: nat -> bool, k: nat): (calls: seq<VoterCall>)
    decreases |ms|
  {
    if ms == [] then []
    else (if isLeader(k) then [VoterCallOf(ms[0])] else []) + Gated(ms[1..], isLeader, k + 1)
  }

  /** The number of yes answers among the leadership questions k .. k + n - 1. */
  function LeaderAnswers(isLeader: nat -> bool, k: nat, n: nat): (count: nat)
    decreases n
  {
    if n == 0 then 0 else (if isLeader(k) then 1 else 0) + LeaderAnswers(isLeader, k + 1, n - 1)
  }

  /**
   * The effect of `HandleEvent` on the bridge: a join runs the loop; reap,
   * leave, failed and every other kind are only logged.
   */
  function HandleEventSpec(t: Bridge, e: Event, addFails: nat -> bool, isLeader: nat -> bool): (r: Bridge)
    ensures e.kind != MemberJoin ==> r == t
    ensures e.kind == MemberJoin ==> r.adds == t.adds + e.members
    ensures e.kind == MemberJoin ==> r.leaderChecks == t.leaderChecks + |e.members|
    ensures e.kind == MemberJoin ==> r.voterCalls == t.voterCalls + Gated(e.members, isLeader, t.leaderChecks)
  {
    if e.kind == MemberJoin then
      JoinRecordsEveryMember(t, e.members, addFails, isLeader);
      JoinVoterCalls(t, e.members, addFails, isLeader);
      JoinBatch(t, e.members, addFails, isLeader)
    else
      t
  }

  // ---------------------------------------------------------------------
  // Lemmas about the join loop
  // ---------------------------------------------------------------------

  /** Every member of the batch is added to the store exactly once, in batch order, and leadership is asked once per member. */
  lemma {:induction false} JoinRecordsEveryMember(t: Bridge, ms: seq<Member>, addFails: nat -> bool, isLeader: nat -> bool)
    ensures JoinBatch(t, ms, addFails, isLeader).adds == t.adds + ms
    ensures JoinBatch(t, ms, addFails, isLeader).leaderChecks == t.leaderChecks + |ms|
    decreases |ms|
  {
    if ms != [] {
      var init := ms[..|ms| - 1];
      JoinRecordsEveryMember(t, init, addFails, isLeader);
      assert init + [ms[|ms| - 1]] == ms;
    }
  }

  lemma {:induction false} GatedSnoc(ms: seq<Member>, m: Member, isLeader: nat -> bool, k: nat)
    ensures Gated(ms + [m], isLeader, k) == Gated(ms, isLeader, k) + (if isLeader(k + |ms|) then [VoterCallOf(m)] else [])
    decreases |ms|
  {
    if ms == [] {
      assert [m][1..] == [];
    } else {
      assert (ms + [m])[1..] == ms[1..] + [m];
      GatedSnoc(ms[1..], m, isLeader, k + 1);
    }
  }

  /** The AddVoter calls a batch makes are exactly those of the reference definition. */
  lemma {:induction false} JoinVoterCalls(t: Bridge, ms: seq<Member>, addFails: nat -> bool, isLeader: nat -> bool)
    ensures JoinBatch(t, ms, addFails, isLeader).voterCalls == t.voterCalls + Gated(ms, isLeader, t.leaderChecks)
    decreases |ms|
  {
    if ms != [] {
      var init, m := ms[..|ms| - 1], ms[|ms| - 1];
      JoinVoterCalls(t, init, addFails, isLeader);
      JoinRecordsEveryMember(t, init, addFails, isLeader);
      GatedSnoc(init, m, isLeader, t.leaderChecks);
      assert init + [m] == ms;
    }
  }

  /** The number of AddVoter calls is the number of yes answers to the leadership question. */
  lemma {:induction false} GatedCount(ms: seq<Member>, isLeader: nat -> bool, k: nat)
    ensures |Gated(ms, isLeader, k)| == LeaderAnswers(isLeader, k, |ms|)
    decreases |ms|
  {
    if ms != [] {
      GatedCount(ms[1..], isLeader, k + 1);
    }
  }

  /** A batch processed while every answer is "not leader" issues no AddVoter call. */
  lemma {:induction false} GatedNotLeader(ms: seq<Member>, isLeader: nat -> bool, k: nat)
    requires forall i :: k <= i < k + |ms| ==> !isLeader(i)
    ensures Gated(ms, isLeader, k) == []
    decreases |ms|
  {
    if ms != [] {
      GatedNotLeader(ms[1..], isLeader, k + 1);
    }
  }

  /** A batch processed while every answer is "leader" issues one AddVoter call per member, in batch order. */
  lemma {:induction false} GatedAllLeader(ms: seq<Member>, isLeader: nat -> bool, k: nat)
    requires forall i :: k <= i < k + |ms| ==> isLeader(i)
    ensures |Gated(ms, isLeader, k)| == |ms|
    ensures forall i :: 0 <= i < |ms| ==> Gated(ms, isLeader, k)[i] == VoterCallOf(ms[i])
    decreases |ms|
  {
    if ms != [] {
      GatedAllLeader(ms[1..], isLeader, k + 1);
    }
  }

  /** A member whose leadership question was answered yes gets its AddVoter call, whatever happened to its metadata. */
  lemma {:induction false} GatedLeaderMember(ms: seq<Member>, isLeader: nat -> bool, k: nat, i: nat)
    requires i < |ms| && isLeader(k + i)
    ensures VoterCallOf(ms[i]) in Gated(ms, isLeader, k)
    decreases |ms|
  {
    if i > 0 {
      GatedLeaderMember(ms[1..], isLeader, k + 1, i - 1);
    }
  }

  /** Every AddVoter call is for a member of the batch whose leadership question was answered yes. */
  lemma {:induction false} GatedOnlyLeaderMembers(ms: seq<Member>, isLeader: nat -> bool, k: nat, c: VoterCall)
    requires c in Gated(ms, isLeader, k)
    ensures exists i :: 0 <= i < |ms| && isLeader(k + i) && c == VoterCallOf(ms[i])
    decreases |ms|
  {
    if c == VoterCallOf(ms[0]) && isLeader(k) {
      assert isLeader(k + 0) && c == VoterCallOf(ms[0]);
    } else {
      GatedOnlyLeaderMembers(ms[1..], isLeader, k + 1, c);
      var j :| 0 <= j < |ms[1..]| && isLeader(k + 1 + j) && c == VoterCallOf(ms[1..][j]);
      assert isLeader(k + (j + 1)) && c == VoterCallOf(ms[j + 1]);
    }
  }

  /** Failures of `metadata.Add` do not change which AddVoter calls a batch makes. */
  lemma JoinIgnoresAddFailures(t: Bridge, ms: seq<Member>, addFails1: nat -> bool, addFails2: nat -> bool, isLeader: nat -> bool)
    ensures JoinBatch(t, ms, addFails1, isLeader).voterCalls == JoinBatch(t, ms, addFails2, isLeader).voterCalls
  {
    JoinVoterCalls(t, ms, addFails1, isLeader);
    JoinVoterCalls(t, ms, addFails2, isLeader);
  }

  /**
   * A member whose add succeeded, and whom no later successful add in the
   * same batch overwrote, is in the store with the record made from it.
   */
  lemma {:induction false} JoinMetadataLastWins(t: Bridge, ms: seq<Member>, addFails: nat -> bool, isLeader: nat -> bool, i: nat)
    requires i < |ms| && !addFails(|t.adds| + i)
    requires forall j :: i < j < |ms| && ms[j].name == ms[i].name ==> addFails(|t.adds| + j)
    ensures ms[i].name in JoinBatch(t, ms, addFails, isLeader).metadata
    ensures JoinBatch(t, ms, addFails, isLeader).metadata[ms[i].name] == NodeDataOf(ms[i])
    decreases |ms|
  {
    var init, m := ms[..|ms| - 1], ms[|ms| - 1];
    JoinRecordsEveryMember(t, init, addFails, isLeader);
    if i < |ms| - 1 {
      JoinMetadataLastWins(t, init, addFails, isLeader, i);
      assert m.name == ms[i].name ==> addFails(|t.adds| + (|ms| - 1));
    }
  }

  /**
   * An id for which no add in the batch succeeded keeps its entry (or its
   * absence) in the store: failed adds and other members do not touch it.
   */
  lemma {:induction false} JoinMetadataUntouched(t: Bridge, ms: seq<Member>, addFails: nat -> bool, isLeader: nat -> bool, id: string)
    requires forall j :: 0 <= j < |ms| && ms[j].name == id ==> addFails(|t.adds| + j)
    ensures id in JoinBatch(t, ms, addFails, isLeader).metadata <==> id in t.metadata
    ensures id in t.metadata ==> JoinBatch(t, ms, addFails, isLeader).metadata[id] == t.metadata[id]
    decreases |ms|
  {
    if ms != [] {
      var init, m := ms[..|ms| - 1], ms[|ms| - 1];
      JoinRecordsEveryMember(t, init, addFails, isLeader);
      JoinMetadataUntouched(t, init, addFails, isLeader, id);
      assert m.name == id ==> addFails(|t.adds| + (|ms| - 1));
    }
  }

  // ---------------------------------------------------------------------
  // The flat write key
  // ---------------------------------------------------------------------

  /** The separator `SetKeyVal` puts between table, row key and column. */
  const Sep: char := ':'

  /** The flat key `table + ":" + key + ":" + col`. */
  function CompositeKey(table: string, key: string, col: string): (flat: string)
  {
    table + [Sep] + key + [Sep] + col
  }

  /** Reference decoding of a flat key: the fields between separators, in order. */
  function SplitKey(s: string): (parts: seq<string>)
    ensures |parts| >= 1
  {
    if s == [] then [[]]
    else
      var rest := SplitKey(s[1..]);
      if s[0] == Sep then [[]] + rest else [[s[0]] + rest[0]] + rest[1..]
  }

  lemma {:induction false} SplitKeyPlain(a: string)
    requires Sep !in a
    ensures SplitKey(a) == [a]
    decreases |a|
  {
    if a != [] {
      SplitKeyPlain(a[1..]);
      assert [a[0]] + a[1..] == a;
    }
  }

  lemma {:induction false} SplitKeyField(a: string, rest: string)
    requires Sep !in a
    ensures SplitKey(a + [Sep] + rest) == [a] + SplitKey(rest)
    decreases |a|
  {
    if a == [] {
      assert [] + [Sep] + rest == [Sep] + rest;
      assert ([Sep] + rest)[1..] == rest;
    } else {
      assert (a + [Sep] + rest)[1..] == a[1..] + [Sep] + rest;
      SplitKeyField(a[1..], rest);
      assert [a[0]] + a[1..] == a;
    }
  }

  /** When no component holds the separator, the flat key splits back into the three components. */
  lemma SplitCompositeKey(table: string, key: string, col: string)
    requires Sep !in table && Sep !in key && Sep !in col
    ensures SplitKey(CompositeKey(table, key, col)) == [table, key, col]
  {
    assert CompositeKey(table, key, col) == table + [Sep] + (key + [Sep] + col);
    SplitKeyField(table, key + [Sep] + col);
    SplitKeyField(key, col);
    SplitKeyPlain(col);
  }

  /** Without separators in the components, distinct cells get distinct flat keys. */
  lemma CompositeKeyInjective(t1: string, k1: string, c1: string, t2: string, k2: string, c2: string)
    requires Sep !in t1 && Sep !in k1 && Sep !in c1
    requires Sep !in t2 && Sep !in k2 && Sep !in c2
    requires CompositeKey(t1, k1, c1) == CompositeKey(t2, k2, c2)
    ensures t1 == t2 && k1 == k2 && c1 == c2
  {
    SplitCompositeKey(t1, k1, c1);
    SplitCompositeKey(t2, k2, c2);
  }

  /** With a separator inside a component, two different cells share one flat key. */
  lemma CompositeKeyCollision(a: string, b: string, c: string, d: string)
    ensures CompositeKey(a + [Sep] + b, c, d) == CompositeKey(a, b + [Sep] + c, d)
    ensures a + [Sep] + b != a
  {
  }

  // ---------------------------------------------------------------------
  // The server
  // ---------------------------------------------------------------------

  /**
   * The server: its metadata store, and the Raft agent's side of the
   * membership bridge (the leadership questions asked and the voter
   * additions issued, in order).
   */
  class Server {
    /** The metadata store's answers to `Add`, call by call. */
    const addFails: nat -> bool
    /** The Raft agent. */
    const raft: RaftAgent

    var metadata: map<string, NodeData>
    var adds: seq<Member>
    var leaderChecks: nat
    var voterCalls: seq<VoterCall>

    function State(): (b: Bridge)
      reads this
    {
      Bridge(metadata, adds, leaderChecks, voterCalls)
    }

    constructor (addFails: nat -> bool, raft: RaftAgent)
      ensures State() == Bridge(map[], [], 0, [])
      ensures this.addFails == addFails && this.raft == raft
    {
      this.addFails := addFails;
      this.raft := raft;
      metadata, adds, leaderChecks, voterCalls := map[], [], 0, [];
    }

    /** `GetByRowKey`: the Raft agent's row and error, unchanged. */
    function GetByRowKey(table: string, key: string): (r: RowResult)
      ensures r == raft.getByRowKey(table, key)
    {
      raft.getByRowKey(table, key)
    }

    /**
     * `SetKeyVal`: submits exactly one entry whose key joins table, row key
     * and column with ":" and whose value is `val`, and returns the Raft
     * agent's error unchanged.
     */
    function SetKeyVal(table: string, key: string, col: string, val: string): (s: Submission)
      ensures |s.entries| == 1
      ensures s.entries[0].key == CompositeKey(table, key, col) && s.entries[0].val == val
      ensures s.err == raft.apply(s.entries[0])
      ensures Sep !in table && Sep !in key && Sep !in col ==> SplitKey(s.entries[0].key) == [table, key, col]
    {
      var kve := KVData(CompositeKey(table, key, col), val);
      assert Sep !in table && Sep !in key && Sep !in col ==> SplitKey(kve.key) == [table, key, col] by {
        if Sep !in table && Sep !in key && Sep !in col {
          SplitCompositeKey(table, key, col);
        }
      }
      Submission([kve], raft.apply(kve))
    }

    /** `metadata.Add`: records the member's data unless the store reports an error. */
    method MetadataAdd(m: Member) returns (nodedata: NodeData, failed: bool)
      modifies this`metadata, this`adds
      ensures failed == addFails(|old(adds)|) && nodedata == NodeDataOf(m)
      ensures adds == old(adds) + [m]
      ensures metadata == if failed then old(metadata) else old(metadata)[m.name := nodedata]
    {
      failed := addFails(|adds|);
      nodedata := NodeDataOf(m);
      if !failed {
        metadata := metadata[m.name := nodedata];
      }
      adds := adds + [m];
    }

    /** `raftAgent.IsLeader()`: the next answer of the agent. */
    method IsLeader() returns (leader: bool)
      modifies this`leaderChecks
      ensures leader == raft.isLeader(old(leaderChecks)) && leaderChecks == old(leaderChecks) + 1
    {
      leader := raft.isLeader(leaderChecks);
      leaderChecks := leaderChecks + 1;
    }

    /** `raftAgent.AddVoter(id, addr)`: records the call and returns the agent's error. */
    method AddVoter(id: string, addr: string) returns (failed: bool)
      modifies this`voterCalls
      ensures failed == raft.addVoterFails(|old(voterCalls)|)
      ensures voterCalls == old(voterCalls) + [VoterCall(id, addr)]
    {
      failed := raft.addVoterFails(|voterCalls|);
      voterCalls := voterCalls + [VoterCall(id, addr)];
    }

    /**
     * `HandleEvent`: on a join, records each member and, only while the
     * agent answers that it leads, adds that member as a voter. Errors from
     * either call are logged and the loop goes on.
     */
    method HandleEvent(e: Event)
      modifies this
      ensures State() == HandleEventSpec(old(State()), e, addFails, raft.isLeader)
    {
      match e.kind
      case MemberJoin =>
        ghost var start := State();
        for i := 0 to |e.members|
          invariant State() == JoinBatch(start, e.members[..i], addFails, raft.isLeader)
        {
          var m := e.members[i];
          assert e.members[..i + 1][..i] == e.members[..i];
          var nodedata, addErr := MetadataAdd(m);
          // an add error is only logged
          var leader := IsLeader();
          if !leader {
            continue;
          }
          var voterErr := AddVoter(nodedata.id, nodedata.raftAddr);
          // an AddVoter error is only logged
        }
        assert e.members[..|e.members|] == e.members;
      case MemberReap =>
      case MemberLeave | MemberFailed =>
      case _ =>
    }
  }
}
