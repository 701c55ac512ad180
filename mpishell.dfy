/**
 * One member of an MPI group running a wrapped command (`WrappedProcess` in
 * mpishell.py).  Start-up checks the group size and picks the member's input
 * relay role from its rank.  The relay and drain threads are modelled as
 * sequential loops over the lines they would see: the root relays console
 * input, broadcasting each line before writing it to its child; a follower
 * writes every broadcast line to its child; a drain turns every line of a child
 * pipe into one decorated console line.  The MPI broadcast is an ordered log of
 * broadcast lines shared by the members; the child's standard input and the
 * console are sequences of lines.
 */
module MpiShell {
  import opened Wrappers
  import opened Decoration

  /** The largest group the colour table can label. */
  const MaxGroupSize: nat := 4

  /** The error raised by the size assertion at start-up. */
  datatype StartError = GroupTooLarge(size: nat)

  /** The input relay loop a member runs. */
  datatype Role = Root | Follower

  /** Rank 0 relays the console; every other rank follows the broadcast. */
  function SelectRole(rank: nat): (r: Role)
    ensures r.Root? <==> rank == 0
    ensures r.Follower? <==> rank != 0
  {
    if rank == 0 then Root else Follower
  }

  /** What an input relay does, step by step. */
  datatype RelayEvent =
    | Broadcast(line: string)   // the root broadcasts a console line
    | Receive(line: string)     // a follower receives a broadcast line
    | WriteChild(line: string)  // the line is written to the child's standard input

  /** How a member of role `role` obtains the next line to relay. */
  function Acquire(role: Role, line: string): RelayEvent {
    if role.Root? then Broadcast(line) else Receive(line)
  }

  /** The events of relaying `lines` in order: each line is obtained and then written to the child. */
  function RelaySteps(role: Role, lines: seq<string>): seq<RelayEvent> {
    if lines == [] then []
    else RelaySteps(role, lines[..|lines| - 1]) + [Acquire(role, lines[|lines| - 1]), WriteChild(lines[|lines| - 1])]
  }

  lemma {:induction false} RelayStepsLength(role: Role, lines: seq<string>)
    ensures |RelaySteps(role, lines)| == 2 * |lines|
  {
    if lines != [] {
      RelayStepsLength(role, lines[..|lines| - 1]);
    }
  }

  /** Line k is obtained at step 2k and written to the child at step 2k + 1, right after. */
  lemma {:induction false} RelayStepsOrder(role: Role, lines: seq<string>, k: nat)
    requires k < |lines|
    ensures |RelaySteps(role, lines)| == 2 * |lines|
    ensures RelaySteps(role, lines)[2 * k] == Acquire(role, lines[k])
    ensures RelaySteps(role, lines)[2 * k + 1] == WriteChild(lines[k])
  {
    RelayStepsLength(role, lines);
    var front := lines[..|lines| - 1];
    RelayStepsLength(role, front);
    if k < |lines| - 1 {
      RelayStepsOrder(role, front, k);
    }
  }

  /** Relaying two batches one after the other is relaying their concatenation. */
  lemma {:induction false} RelayStepsAppend(role: Role, a: seq<string>, b: seq<string>)
    ensures RelaySteps(role, a + b) == RelaySteps(role, a) + RelaySteps(role, b)
  {
    if b == [] {
      assert a + b == a;
    } else {
      var front := b[..|b| - 1];
      RelayStepsAppend(role, a, front);
      assert (a + b)[..|a + b| - 1] == a + front;
    }
  }

  /** The lines broadcast by the root so far, in broadcast order (`mpi_comm.bcast`). */
  class BroadcastLog {
    var lines: seq<string>

    constructor ()
      ensures lines == []
    {
      lines := [];
    }

    /** `bcast(line, root=0)` on the root: the line is delivered after every earlier one. */
    method Bcast(line: string)
      modifies this
      ensures lines == old(lines) + [line]
    {
      lines := lines + [line];
    }
  }

  class WrappedProcess {
    /** `Get_rank()` and `Get_size()` of the communicator, constant for the run. */
    const rank: nat
    const size: nat
    /** The broadcast shared with the other members of the group. */
    const comm: BroadcastLog
    /** The input relay loop chosen at start-up. */
    const role: Role
    /** The lines written to the child's standard input. */
    var childStdin: seq<string>
    /** The lines printed on this member's console. */
    var console: seq<string>
    /** How many broadcast lines this member has written to its child. */
    var relayed: nat
    /** The relay's actions so far, in order. */
    ghost var relayEvents: seq<RelayEvent>

    /**
     * The member's invariant: the group passed the size check, the role
     * matches the rank, the child has been given exactly the broadcast lines
     * relayed so far, in order, and the root has relayed every line it
     * broadcast.
     */
    ghost predicate Valid()
      reads this, comm
    {
      && rank < size <= MaxGroupSize
      && role == SelectRole(rank)
      && relayed <= |comm.lines|
      && childStdin == comm.lines[..relayed]
      && (role.Root? ==> relayed == |comm.lines|)
      && relayEvents == RelaySteps(role, childStdin)
    }

    /** Spawning the child and choosing the relay, once the size check has passed. */
    constructor (rank: nat, size: nat, comm: BroadcastLog)
      requires rank < size <= MaxGroupSize
      requires rank == 0 ==> comm.lines == []
      ensures Valid()
      ensures this.rank == rank && this.size == size && this.comm == comm
      ensures childStdin == [] && console == [] && relayed == 0
    {
      this.rank := rank;
      this.size := size;
      this.comm := comm;
      this.role := SelectRole(rank);
      childStdin := [];
      console := [];
      relayed := 0;
      relayEvents := [];
    }

    /**
     * `process.stdin.write(line)` of a relay: the child may only be given the
     * next line of the broadcast, so a line reaches a child after it has been
     * broadcast and in broadcast order.
     */
    method WriteToChild(line: string)
      requires relayed < |comm.lines| && comm.lines[relayed] == line
      modifies this`childStdin, this`relayed
      ensures childStdin == old(childStdin) + [line]
      ensures relayed == old(relayed) + 1
    {
      childStdin := childStdin + [line];
      relayed := relayed + 1;
    }

    /**
     * The root's relay: every console line is broadcast and then written to
     * the child, in the order read, with nothing lost or repeated.
     */
    method RootRelay(stdin: seq<string>)
      requires Valid() && role.Root?
      modifies this, comm
      ensures Valid()
      ensures comm.lines == old(comm.lines) + stdin
      ensures childStdin == old(childStdin) + stdin
      ensures console == old(console)
      ensures relayEvents == old(relayEvents) + RelaySteps(Root, stdin)
    {
      for i := 0 to |stdin|
        invariant Valid()
        invariant comm.lines == old(comm.lines) + stdin[..i]
        invariant childStdin == old(childStdin) + stdin[..i]
        invariant console == old(console)
      {
        var line := stdin[i];
        comm.Bcast(line);
        relayEvents := relayEvents + [Broadcast(line)];
        ghost var before := childStdin;
        WriteToChild(line);
        relayEvents := relayEvents + [WriteChild(line)];
        assert childStdin[..|childStdin| - 1] == before;
        assert stdin[..i + 1] == stdin[..i] + [line];
      }
      assert stdin[..|stdin|] == stdin;
      RelayStepsAppend(Root, old(childStdin), stdin);
    }

    /**
     * A follower's relay: every broadcast line not yet relayed is received
     * and written to the child, in broadcast order.  The source loops
     * forever; the model stops where the next receive would block because the
     * root has broadcast nothing more.
     */
    method FollowerRelay()
      requires Valid() && role.Follower?
      modifies this
      ensures Valid()
      ensures relayed == |comm.lines| && childStdin == comm.lines
      ensures childStdin == old(childStdin) + comm.lines[old(relayed)..]
      ensures console == old(console)
      ensures relayEvents == old(relayEvents) + RelaySteps(Follower, comm.lines[old(relayed)..])
    {
      ghost var pending := comm.lines[relayed..];
      while relayed < |comm.lines|
        invariant Valid()
        invariant old(relayed) <= relayed
        invariant childStdin == old(childStdin) + pending[..relayed - old(relayed)]
        invariant console == old(console)
        decreases |comm.lines| - relayed
      {
        ghost var i := relayed - old(relayed);
        var line := comm.lines[relayed];
        assert line == pending[i];
        relayEvents := relayEvents + [Receive(line)];
        ghost var before := childStdin;
        assert comm.lines[..relayed + 1] == comm.lines[..relayed] + [line];
        WriteToChild(line);
        relayEvents := relayEvents + [WriteChild(line)];
        assert childStdin[..|childStdin| - 1] == before;
        assert pending[..i + 1] == pending[..i] + [line];
      }
      assert pending[..relayed - old(relayed)] == pending;
      RelayStepsAppend(Follower, old(childStdin), pending);
    }

    /**
     * A drain of one child pipe: every pipe line becomes exactly one
     * decorated console line, in pipe order, and each console line reads back
     * as this member's rank and the pipe line without its newline.
     */
    method Drain(pipe: seq<string>)
      requires Valid()
      modifies this`console
      ensures Valid()
      ensures |console| == |old(console)| + |pipe|
      ensures console[..|old(console)|] == old(console)
      ensures forall k :: 0 <= k < |pipe| ==> Decorate(rank, pipe[k]) == Success(console[|old(console)| + k])
      ensures forall k :: 0 <= k < |pipe| ==> Undecorate(console[|old(console)| + k]) == Some((rank, StripNewline(pipe[k])))
    {
      for i := 0 to |pipe|
        invariant |console| == |old(console)| + i
        invariant console[..|old(console)|] == old(console)
        invariant forall k :: 0 <= k < i ==> Decorate(rank, pipe[k]) == Success(console[|old(console)| + k])
        invariant forall k :: 0 <= k < i ==> Undecorate(console[|old(console)| + k]) == Some((rank, StripNewline(pipe[k])))
      {
        var printed := Decorate(rank, pipe[i]).value;
        UndecorateDecorate(rank, pipe[i]);
        console := console + [printed];
      }
    }
  }

  /**
   * Start-up of one member: the size assertion comes first, so a group
   * larger than the colour table fails before any child exists; otherwise the
   * child is spawned and the relay role follows from the rank.
   */
  method Start(rank: nat, size: nat, comm: BroadcastLog) returns (r: Result<WrappedProcess, StartError>)
    requires rank < size
    requires rank == 0 ==> comm.lines == []
    ensures r.Failure? <==> size > MaxGroupSize
    ensures r.Failure? ==> r.error == GroupTooLarge(size)
    ensures r.Success? ==> fresh(r.value) && r.value.Valid()
    ensures r.Success? ==> r.value.rank == rank && r.value.size == size && r.value.comm == comm
    ensures r.Success? ==> r.value.role == SelectRole(rank)
    ensures r.Success? ==> r.value.childStdin == [] && r.value.console == []
  {
    if size > MaxGroupSize {
      return Failure(GroupTooLarge(size));
    }
    var process := new WrappedProcess(rank, size, comm);
    r := Success(process);
  }

  /**
   * The group relaying a batch of console input: the root relays it, then a
   * follower catches up on the broadcast.  Both children have then been given
   * the same lines, in the same order.
   */
  method LockstepRelay(root: WrappedProcess, follower: WrappedProcess, input: seq<string>)
    requires root.Valid() && root.role.Root?
    requires follower.Valid() && follower.role.Follower?
    requires follower.comm == root.comm && follower != root
    modifies root, follower, root.comm
    ensures root.Valid() && follower.Valid()
    ensures root.childStdin == old(root.childStdin) + input
    ensures follower.childStdin == root.childStdin
    ensures root.comm.lines == old(root.comm.lines) + input
    ensures root.console == old(root.console) && follower.console == old(follower.console)
  {
    ghost var before := root.comm.lines;
    root.RootRelay(input);
    assert root.comm.lines[..follower.relayed] == before[..follower.relayed];
    follower.FollowerRelay();
  }
}
