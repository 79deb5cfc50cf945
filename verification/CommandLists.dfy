/** The linked lists of commands in the handle: they stay acyclic and disjoint, their tail
    pointers right, and they hold the requests that the engine's queues hold. */
module CommandLists {
  import opened Bytes
  import opened Nbd
  import opened Reply
  import opened Engine
  import opened EngineParser

  /** struct command as a list element. */
  class Node {
    const cmd: Command
    var next: Node?

    constructor (cmd: Command)
      ensures this.cmd == cmd && next == null
    {
      this.cmd := cmd;
      next := null;
    }
  }

  ghost function NodeAt(nodes: seq<Node>, i: nat): Node? { if i < |nodes| then nodes[i] else null }

  /** The last element, if any: what a tail pointer should be. */
  ghost function Last(nodes: seq<Node>): Node? { if nodes == [] then null else nodes[|nodes| - 1] }

  function Without<T>(s: seq<T>, i: nat): seq<T>
    requires i < |s|
  {
    s[..i] + s[i + 1..]
  }

  /** The commands of a list, as the engine sees them. */
  ghost function Cmds(nodes: seq<Node>): (r: seq<Command>)
    ensures |r| == |nodes| && forall i | 0 <= i < |nodes| :: r[i] == nodes[i].cmd
  {
    seq(|nodes|, i requires 0 <= i < |nodes| => nodes[i].cmd)
  }

  /** The list holds the requests of `cmds`, in order. */
  ghost predicate Holds(nodes: seq<Node>, cmds: seq<Command>) { SameReqs(Cmds(nodes), cmds) }

  lemma HoldsAppend(nodes: seq<Node>, cmds: seq<Command>, node: Node, cmd: Command)
    requires Holds(nodes, cmds) && node.cmd.req == cmd.req
    ensures Holds(nodes + [node], cmds + [cmd]) && Holds([node] + nodes, [cmd] + cmds)
  {
  }

  lemma HoldsTail(nodes: seq<Node>, cmds: seq<Command>)
    requires Holds(nodes, cmds) && nodes != []
    ensures Holds(nodes[1..], cmds[1..])
  {
    assert forall k | 0 <= k < |nodes| - 1 :: Cmds(nodes[1..])[k] == Cmds(nodes)[k + 1];
  }

  lemma HoldsWithout(nodes: seq<Node>, cmds: seq<Command>, i: nat)
    requires Holds(nodes, cmds) && i < |nodes|
    ensures Holds(Without(nodes, i), cmds[..i] + cmds[i + 1..])
  {
    var a, b := Without(nodes, i), cmds[..i] + cmds[i + 1..];
    assert forall k | 0 <= k < |a| ::
        a[k] == nodes[if k < i then k else k + 1] && b[k] == cmds[if k < i then k else k + 1];
  }

  /** The place of the first element with the cookie: the engine's own search. */
  lemma {:induction false} LookupIs(cmds: seq<Command>, cookie: nat, i: nat)
    requires i <= |cmds| && (forall k | 0 <= k < i :: cmds[k].req.cookie != cookie)
    requires i < |cmds| ==> cmds[i].req.cookie == cookie
    ensures Lookup(cmds, cookie) == if i < |cmds| then Some(i) else None
  {
    if cmds != [] && i > 0 { LookupIs(cmds[1..], cookie, i - 1); }
  }

  /** A list: its head pointer and, as ghosts, its elements in order. */
  class List {
    var head: Node?
    ghost var nodes: seq<Node>
    ghost var Repr: set<object>

    /** Following the next pointers from the head visits the elements once each. */
    ghost predicate Valid()
      reads this, Repr
    {
      && this in Repr && (forall i | 0 <= i < |nodes| :: nodes[i] in Repr)
      && (forall i, j | 0 <= i < j < |nodes| :: nodes[i] != nodes[j])
      && head == NodeAt(nodes, 0)
      && forall i {:trigger nodes[i].next} | 0 <= i < |nodes| :: nodes[i].next == NodeAt(nodes, i + 1)
    }

    constructor ()
      ensures Valid() && nodes == [] && fresh(Repr)
    {
      head, nodes, Repr := null, [], {this};
    }

    /** Walk to the first element with the cookie, and the element before it. */
    method Find(cookie: nat) returns (prev: Node?, node: Node?, ghost i: nat)
      requires Valid()
      ensures i <= |nodes| && node == NodeAt(nodes, i) && prev == (if i > 0 then nodes[i - 1] else null)
      ensures forall k | 0 <= k < i :: nodes[k].cmd.req.cookie != cookie
      ensures node != null ==> node.cmd.req.cookie == cookie
      ensures Lookup(Cmds(nodes), cookie) == if node != null then Some(i) else None
    {
      node, prev, i := head, null, 0;
      while node != null && node.cmd.req.cookie != cookie
        invariant i <= |nodes| && node == NodeAt(nodes, i) && prev == (if i > 0 then nodes[i - 1] else null)
        invariant forall k | 0 <= k < i :: nodes[k].cmd.req.cookie != cookie
        decreases |nodes| - i
      {
        assert node == nodes[i];
        prev, node, i := node, node.next, i + 1;
      }
      LookupIs(Cmds(nodes), cookie, i);
    }

    /** Unlink the element at position `i`, given the one before it. */
    method Unlink(prev: Node?, node: Node, ghost i: nat)
      requires Valid() && i < |nodes| && node == nodes[i] && prev == (if i > 0 then nodes[i - 1] else null)
      modifies Repr
      ensures Valid() && nodes == Without(old(nodes), i) && Repr == old(Repr) - {node} && node.next == null
    {
      ghost var before := nodes;
      assert before[i].next == NodeAt(before, i + 1);
      if prev != null { prev.next := node.next; } else { head := node.next; }
      node.next := null;
      nodes, Repr := Without(nodes, i), Repr - {node};
      assert forall k | 0 <= k < |nodes| :: nodes[k] == if k < i then before[k] else before[k + 1];
    }

    /** Take the first element off. */
    method PopFront() returns (node: Node)
      requires Valid() && nodes != []
      modifies Repr
      ensures Valid() && node == old(nodes)[0] && nodes == old(nodes)[1..] && Repr == old(Repr) - {node}
              && node.next == null
    {
      node := head;
      ghost var before := nodes;
      Unlink(null, node, 0);
      assert Without(before, 0) == before[1..];
    }

    /** Append an element, given the tail. */
    method Append(node: Node, tail: Node?)
      requires Valid() && tail == Last(nodes) && node !in Repr && node.next == null
      modifies this, tail
      ensures Valid() && nodes == old(nodes) + [node] && Repr == old(Repr) + {node}
    {
      ghost var before := nodes;
      if tail != null { tail.next := node; } else { head := node; }
      nodes, Repr := nodes + [node], Repr + {node};
      assert forall k | 0 <= k < |before| :: nodes[k] == before[k];
    }

    /** Put an element in front. */
    method Push(node: Node)
      requires Valid() && node !in Repr
      modifies this, node
      ensures Valid() && nodes == [node] + old(nodes) && Repr == old(Repr) + {node}
    {
      ghost var before := nodes;
      node.next := head;
      head := node;
      nodes, Repr := [node] + nodes, Repr + {node};
      assert forall k | 0 < k < |nodes| :: nodes[k] == before[k - 1];
    }
  }

  /** The elements that are not retired, in order. */
  ghost function Kept(nodes: seq<Node>, retire: Command -> bool): seq<Node>
  {
    if nodes == [] then []
    else
      var n := |nodes| - 1;
      Kept(nodes[..n], retire) + if retire(nodes[n].cmd) then [] else [nodes[n]]
  }

  lemma NoneKept(nodes: seq<Node>, retire: Command -> bool)
    requires nodes == []
    ensures Kept(nodes, retire) == []
  {
  }

  lemma KeptSnoc(all: seq<Node>, k: nat, retire: Command -> bool)
    requires k < |all|
    ensures Kept(all[..k + 1], retire) == Kept(all[..k], retire) + if retire(all[k].cmd) then [] else [all[k]]
  {
    assert all[..k + 1][..k] == all[..k];
  }

  /** The lists of a handle and the tail pointers of two of them. */
  class CommandLists {
    const toIssue: List
    const inFlight: List
    const done: List
    var toIssueTail: Node?
    var doneTail: Node?

    ghost predicate Valid()
      reads this, toIssue, inFlight, done, toIssue.Repr, inFlight.Repr, done.Repr
    {
      && toIssue.Valid() && inFlight.Valid() && done.Valid()
      && this !in toIssue.Repr && this !in inFlight.Repr && this !in done.Repr
      && toIssue.Repr !! inFlight.Repr && toIssue.Repr !! done.Repr && inFlight.Repr !! done.Repr
      && doneTail == Last(done.nodes)
    }

    /** The lists hold what the engine's queues hold. */
    ghost predicate Shows(q: Queues)
      reads this, toIssue, inFlight, done
    {
      Holds(toIssue.nodes, q.toIssue) && Holds(inFlight.nodes, q.inFlight) && Holds(done.nodes, q.done)
    }

    /** The tail of the issue queue, as long as the connection lasts. */
    ghost predicate TailOk()
      reads this, toIssue
    {
      toIssueTail == Last(toIssue.nodes)
    }

    constructor ()
      ensures Valid() && TailOk() && toIssue.nodes == [] && inFlight.nodes == [] && done.nodes == []
    {
      toIssue := new List();
      inFlight := new List();
      done := new List();
      toIssueTail, doneTail := null, null;
    }

    /** Queue a command at the back of cmds_to_issue; the assertion that an empty queue has
        no tail holds. */
    method Enqueue(cmd: Command, ghost h: Handle)
      requires Valid() && TailOk() && Shows(h.q) && cmd.req.cookie == h.q.unique
      modifies this, toIssue, toIssueTail
      ensures Valid() && TailOk() && inFlight.nodes == old(inFlight.nodes) && done.nodes == old(done.nodes)
      ensures toIssueTail != null && fresh(toIssueTail) && toIssueTail.cmd == cmd
      ensures toIssue.nodes == old(toIssue.nodes) + [toIssueTail]
      ensures Queue(h, cmd).q != h.q ==> Shows(Queue(h, cmd).q)
    {
      hide Holds, Queue;
      QueueShape(h, cmd);
      var node := new Node(cmd);
      assert toIssue.head == null ==> toIssueTail == null;
      HoldsAppend(toIssue.nodes, h.q.toIssue, node, cmd);
      toIssue.Append(node, toIssueTail);
      toIssueTail := node;
    }

    /** The head of cmds_to_issue becomes the head of cmds_in_flight. */
    method MoveHead()
      requires Valid() && TailOk() && toIssue.nodes != []
      modifies this, toIssue.Repr, inFlight
      ensures Valid() && TailOk() && toIssue.nodes == old(toIssue.nodes)[1..]
      ensures inFlight.nodes == [old(toIssue.nodes)[0]] + old(inFlight.nodes) && done.nodes == old(done.nodes)
    {
      var cmd := toIssue.PopFront();
      if toIssueTail == cmd { toIssueTail := null; }
      inFlight.Push(cmd);
    }

    /** ISSUE_COMMAND.FINISH as far as it concerns the lists. */
    method IssueFinish(ghost h: Handle)
      requires Valid() && TailOk() && toIssue.nodes != [] && Shows(h.q) && !h.failed
      modifies this, toIssue.Repr, inFlight
      ensures Valid() && TailOk() && toIssue.nodes == old(toIssue.nodes)[1..]
      ensures inFlight.nodes == [old(toIssue.nodes)[0]] + old(inFlight.nodes) && done.nodes == old(done.nodes)
      ensures !EnterIssueFinish(h).failed ==> Shows(EnterIssueFinish(h).q)
    {
      hide EnterIssueFinish;
      IssueShape(h, toIssue.nodes, inFlight.nodes);
      hide Holds;
      MoveHead();
    }

    /** Append to cmds_done. */
    method AppendDone(node: Node)
      requires Valid() && node.next == null && node !in toIssue.Repr && node !in inFlight.Repr && node !in done.Repr
      modifies this`doneTail, done, doneTail
      ensures Valid() && done.nodes == old(done.nodes) + [node] && done.Repr == old(done.Repr) + {node}
    {
      assert doneTail == null ==> done.head == null;
      done.Append(node, doneTail);
      doneTail := node;
    }

    /** The command that the engine's Lookup finds in cmds_in_flight goes to the back of
        cmds_done, or is freed. */
    method TakeInFlight(cookie: nat, retire: bool) returns (found: bool)
      requires Valid()
      modifies this`doneTail, inFlight.Repr, done, doneTail
      ensures Valid() && toIssue.nodes == old(toIssue.nodes)
      ensures found <==> Lookup(old(Cmds(inFlight.nodes)), cookie).Some?
      ensures if found then
                var i := Lookup(old(Cmds(inFlight.nodes)), cookie).value;
                && inFlight.nodes == Without(old(inFlight.nodes), i)
                && done.nodes == if retire then old(done.nodes) else old(done.nodes) + [old(inFlight.nodes)[i]]
              else inFlight.nodes == old(inFlight.nodes) && done.nodes == old(done.nodes)
    {
      hide Lookup;
      var prev, node, i := inFlight.Find(cookie);
      found := node != null;
      if found {
        inFlight.Unlink(prev, node, i);
        if !retire { AppendDone(node); }
      }
    }

    /** REPLY.FINISH_COMMAND as far as it concerns the lists: false if there is no such
        command. */
    method FinishCommand(cookie: nat, retire: bool, ghost u: User, ghost h: Handle) returns (found: bool)
      requires Valid() && Shows(h.q)
      modifies this`doneTail, inFlight.Repr, done, doneTail
      ensures Valid() && toIssue.nodes == old(toIssue.nodes)
      ensures found <==> Lookup(h.q.inFlight, cookie).Some?
      ensures if found then
                var i := Lookup(h.q.inFlight, cookie).value;
                && i < |old(inFlight.nodes)| && inFlight.nodes == Without(old(inFlight.nodes), i)
                && done.nodes == (if retire then old(done.nodes) else old(done.nodes) + [old(inFlight.nodes)[i]])
                && (retire == Complete(u, h, h.q.inFlight[i], h.q.inFlight[i].error).2 ==> Shows(FinishAt(u, h, i).q))
              else inFlight.nodes == old(inFlight.nodes) && done.nodes == old(done.nodes)
    {
      hide Lookup, Complete, FinishAt;
      FinishShape(u, h, cookie, inFlight.nodes, done.nodes);
      hide Holds;
      found := TakeInFlight(cookie, retire);
    }

    /** Take the command that the engine's Lookup finds off cmds_done. */
    method TakeDone(cookie: nat) returns (found: bool)
      requires Valid()
      modifies this`doneTail, done.Repr
      ensures Valid() && toIssue.nodes == old(toIssue.nodes) && inFlight.nodes == old(inFlight.nodes)
      ensures found <==> Lookup(old(Cmds(done.nodes)), cookie).Some?
      ensures done.nodes ==
              if found then Without(old(done.nodes), Lookup(old(Cmds(done.nodes)), cookie).value) else old(done.nodes)
    {
      hide Lookup;
      var prev, node, i := done.Find(cookie);
      found := node != null;
      if found {
        if doneTail == node {
          assert node.next == null by { LastOne(done, i); }
          doneTail := prev;
        }
        done.Unlink(prev, node, i);
      }
    }

    /** nbd_aio_command_completed as far as it concerns the lists: order and tail of cmds_done
        are kept. */
    method Retire(cookie: nat, ghost h: Handle) returns (found: bool)
      requires Valid() && Shows(h.q)
      modifies this`doneTail, done.Repr
      ensures Valid() && toIssue.nodes == old(toIssue.nodes) && inFlight.nodes == old(inFlight.nodes)
      ensures found <==> Lookup(h.q.done, cookie).Some?
      ensures done.nodes == if found then Without(old(done.nodes), Lookup(h.q.done, cookie).value) else old(done.nodes)
      ensures CommandCompleted(h, cookie).0.q != h.q ==> Shows(CommandCompleted(h, cookie).0.q)
    {
      hide CommandCompleted, Lookup;
      RetireShape(h, cookie);
      LookupSame(Cmds(done.nodes), h.q.done, cookie);
      hide Holds;
      var at := Lookup(h.q.done, cookie);
      if at.Some? { HoldsWithout(done.nodes, h.q.done, at.value); }
      found := TakeDone(cookie);
    }

    /** The list that is not being aborted. */
    ghost function Other(list: List): List { if list == toIssue then inFlight else toIssue }

    /** The first command of a list is freed or goes to cmds_done. */
    method AbortOne(list: List, retire: Command -> bool)
      requires Valid() && (list == toIssue || list == inFlight) && list.nodes != []
      modifies this`doneTail, list.Repr, done, doneTail
      ensures Valid() && list.nodes == old(list.nodes)[1..] && list.Repr <= old(list.Repr)
      ensures Other(list).nodes == old(Other(list).nodes) && Other(list).Repr == old(Other(list).Repr)
      ensures done.nodes == old(done.nodes) + if retire(old(list.nodes)[0].cmd) then [] else [old(list.nodes)[0]]
      ensures doneTail == old(doneTail) || doneTail in old(list.Repr)
    {
      var node := list.PopFront();
      if !retire(node.cmd) { AppendDone(node); }
    }

    /** nbd_internal_abort_commands.  What is not retired goes to the back of cmds_done in
        order; no tail pointer but that of cmds_done is touched. */
    method Abort(list: List, retire: Command -> bool)
      requires Valid() && (list == toIssue || list == inFlight)
      modifies this`doneTail, list.Repr, done, doneTail
      ensures Valid() && list.nodes == [] && Other(list).nodes == old(Other(list).nodes)
              && toIssueTail == old(toIssueTail)
      ensures done.nodes == old(done.nodes) + Kept(old(list.nodes), retire)
      ensures doneTail == old(doneTail) || doneTail in old(list.Repr)
      ensures Other(list).Repr == old(Other(list).Repr) && list.Repr <= old(list.Repr)
    {
      hide Kept;
      ghost var all := list.nodes;
      ghost var k := 0;
      NoneKept(all[..0], retire);
      while list.head != null
        invariant Valid() && k <= |all| && list.nodes == all[k..] && Other(list).nodes == old(Other(list).nodes)
        invariant list.Repr <= old(list.Repr) && Other(list).Repr == old(Other(list).Repr)
        invariant done.nodes == old(done.nodes) + Kept(all[..k], retire)
        invariant doneTail == old(doneTail) || doneTail in old(list.Repr)
        invariant toIssueTail == old(toIssueTail)
        decreases |all| - k
      {
        KeptSnoc(all, k, retire);
        AbortOne(list, retire);
        k := k + 1;
      }
      assert all[..k] == all;
    }

    /** DEAD and CLOSED: both lists are aborted, first the commands not yet issued.  The tail
        pointer of the issue queue dangles afterwards if and only if the queue was not empty. */
    method End(retire: Command -> bool)
      requires Valid() && TailOk()
      modifies this`doneTail, toIssue.Repr, inFlight.Repr, done, doneTail
      ensures Valid() && toIssue.nodes == [] && inFlight.nodes == []
      ensures TailOk() <==> old(toIssue.nodes) == []
      ensures done.nodes == old(done.nodes) + Kept(old(toIssue.nodes), retire) + Kept(old(inFlight.nodes), retire)
    {
      Abort(toIssue, retire);
      Abort(inFlight, retire);
    }
  }

  // ---- what the engine does to its queues ----

  lemma QueueShape(h: Handle, cmd: Command)
    requires cmd.req.cookie == h.q.unique
    ensures var q := Queue(h, cmd).q;
      q == h.q || (q.toIssue == h.q.toIssue + [cmd] && q.inFlight == h.q.inFlight && q.done == h.q.done)
  {
  }

  lemma IssueShape(h: Handle, waiting: seq<Node>, flying: seq<Node>)
    requires Holds(waiting, h.q.toIssue) && Holds(flying, h.q.inFlight) && waiting != [] && !h.failed
    ensures var g := EnterIssueFinish(h);
      || g.failed
      || (Holds(waiting[1..], g.q.toIssue) && Holds([waiting[0]] + flying, g.q.inFlight) && g.q.done == h.q.done)
  {
    hide Field;
    HoldsAppend(flying, h.q.inFlight, waiting[0], h.q.toIssue[0]);
    HoldsTail(waiting, h.q.toIssue);
  }

  lemma FinishShape(u: User, h: Handle, cookie: nat, flying: seq<Node>, done: seq<Node>)
    requires Holds(flying, h.q.inFlight) && Holds(done, h.q.done)
    ensures Lookup(Cmds(flying), cookie) == Lookup(h.q.inFlight, cookie)
    ensures Lookup(h.q.inFlight, cookie).Some? ==>
      var i := Lookup(h.q.inFlight, cookie).value;
      var q := FinishAt(u, h, i).q;
      && i < |flying| && q.toIssue == h.q.toIssue && Holds(Without(flying, i), q.inFlight)
      && Holds(if Complete(u, h, h.q.inFlight[i], h.q.inFlight[i].error).2 then done else done + [flying[i]], q.done)
  {
    hide Lookup, Complete;
    LookupSame(Cmds(flying), h.q.inFlight, cookie);
    match Lookup(h.q.inFlight, cookie)
    case None =>
    case Some(i) =>
      HoldsWithout(flying, h.q.inFlight, i);
      HoldsAppend(done, h.q.done, flying[i], Complete(u, h, h.q.inFlight[i], h.q.inFlight[i].error).1);
  }

  lemma RetireShape(h: Handle, cookie: nat)
    ensures var q := CommandCompleted(h, cookie).0.q;
      || q == h.q
      || (Lookup(h.q.done, cookie).Some? && q.toIssue == h.q.toIssue && q.inFlight == h.q.inFlight
          && (var i := Lookup(h.q.done, cookie).value; q.done == h.q.done[..i] + h.q.done[i + 1..]))
  {
    hide Lookup;
  }

  lemma LastOne(list: List, i: nat)
    requires list.Valid() && i < |list.nodes| && list.nodes[i] == Last(list.nodes)
    ensures i == |list.nodes| - 1 && list.nodes[i].next == null
  {
  }
}
