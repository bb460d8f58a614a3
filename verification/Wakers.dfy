/** The wake handles of a daemon in code: `notify_peer` and `resume_delivery` (crates/wt-daemon/src/state.rs). */
module Wakers {
  import opened Basics
  import opened Messages
  import opened Delivery
  import opened DeliveryWake
  import opened Drain

  lemma HandleLeads(n: Node, peer: NodeId)
    requires WakeInv(n) && peer in n.wakers
    ensures n.wakers[peer] < |n.tasks|
  {
  }

  /** Whoever was notified is alive. */
  lemma NotifyReaches(n: Node, peer: NodeId)
    ensures Reachable(Notify(n, peer), peer)
  {
  }

  lemma NotifyCases(n: Node, peer: NodeId)
    ensures var notified := n.notified + PendingKeys(n.table, peer);
            && (Reachable(n, peer) ==> Notify(n, peer) == n.(tasks := n.tasks[n.wakers[peer] := n.tasks[n.wakers[peer]].(token := true)], notified := notified))
            && (!Reachable(n, peer) ==> Notify(n, peer) == n.(wakers := n.wakers[peer := |n.tasks|], tasks := n.tasks + [NewTask(peer)], notified := notified))
    ensures (n.wakers - {peer})[peer := |n.tasks|] == n.wakers[peer := |n.tasks|]
  {
  }

  class Daemon {
    const store: MessageStore
    /** The scan of the outbox never fails. */
    const reliable: bool
    /** Wake handle per peer, and every delivery task ever spawned, by number. */
    var wakers: map<NodeId, nat>
    var tasks: seq<Task>
    /** Shutdown has been signalled. */
    var down: bool
    ghost var notified: set<Key>

    /** The delivery side of this install as the transition system sees it. */
    ghost function View(): Node
      reads this, store
    {
      Node(store.messages, wakers, tasks, {}, notified, {}, map[], [], down)
    }

    constructor (store: MessageStore, reliable: bool)
      ensures View() == EmptyNode().(table := store.messages) && this.store == store && this.reliable == reliable
      ensures WakeInv(View())
    {
      this.store, this.reliable := store, reliable;
      wakers, tasks, down, notified := map[], [], false, {};
    }

    /** Tells every running task to stop after its pass. */
    method SignalShutdown()
      requires WakeInv(View())
      modifies this
      ensures View() == old(View()).(tasks := AllStop(old(tasks)), down := true) && WakeInv(View())
    {
      WakeShutdown(View());
      tasks, down := AllStop(tasks), true;
    }

    /**
     Queues a wake for the running task of `peer`, or starts a task if none runs. After the shutdown
     signal the wake may go to a task that is on its way out, but always to one that is alive.
     */
    method NotifyPeer(peer: NodeId)
      requires WakeInv(View())
      modifies this
      ensures View() == Notify(old(View()), peer) && WakeInv(View())
      ensures Reachable(View(), peer) && (!down ==> Covered(View(), peer))
    {
      ghost var before := View();
      WakeNotify(before, peer);
      NotifyReaches(before, peer);
      NotifyCases(before, peer);
      hide WakeInv, Covered, Notify, PendingKeys;
      notified := notified + PendingKeys(store.messages, peer);
      if peer in wakers {
        HandleLeads(before, peer);
        var t := wakers[peer];
        if Alive(tasks[t]) {
          tasks := tasks[t := tasks[t].(token := true)];
          return;
        }
        wakers := wakers - {peer};
      }
      wakers := wakers[peer := |tasks|];
      tasks := tasks + [NewTask(peer)];
    }

    /**
     At startup: notifies every peer with undelivered messages, after which every pending row is
     covered. A failed scan of the outbox notifies nobody.
     */
    method ResumeDelivery() returns (ok: bool)
      requires WakeInv(View())
      modifies this
      ensures WakeInv(View()) && notified >= old(notified) && (reliable ==> ok) && down == old(down)
      ensures !ok ==> View() == old(View())
      ensures ok ==> forall k :: k in store.messages && Pending(store.messages, store.messages[k].peer, k) ==>
                k in notified && (!down ==> Covered(View(), store.messages[k].peer))
    {
      var up: bool := *;
      if !up && !reliable {
        return false;
      }
      ok := true;
      var peers := store.OutboxPendingPeers();
      ghost var t := store.messages;
      assert forall k :: k in t && Pending(t, t[k].peer, k) ==> t[k].peer in peers;
      while peers != {}
        invariant WakeInv(View()) && notified >= old(notified) && down == old(down)
        invariant forall k :: k in t && Pending(t, t[k].peer, k) ==> t[k].peer in peers || k in notified
        decreases |peers|
      {
        var peer :| peer in peers;
        NotifyPeer(peer);
        peers := peers - {peer};
      }
    }
  }
}
