/**
 * The guest registry (mom/GuestManager.py): guest id to the monitor
 * watching that guest.  A monitor is seen from outside only: whether its
 * thread is alive, whether it is ready, the guest name it knows and the
 * snapshot `interrogate` would give.  Asking the hypervisor about a guest
 * and starting its monitor is one external step, an input here.
 */
module GuestManagers {
  import opened Wrappers
  import opened PolicyValues
  import opened Dicts

  type GuestId = int

  /** What the registry can observe of one guest monitor. */
  datatype GuestMonitorView = GuestMonitorView(
    alive: bool,
    ready: bool,
    guestName: Option<string>,
    snapshot: Option<Value>)

  /**
   * The result of trying to start a monitor for a guest: None when the
   * hypervisor has no information about it, otherwise the monitor, which
   * may already have died.
   */
  type Launcher = GuestId -> Option<GuestMonitorView>

  function SetOf(s: seq<GuestId>): set<GuestId> {
    set id | id in s
  }

  /** `spawn_guest_monitors`: listed guests not yet watched get a monitor, if it starts alive. */
  function Spawned(guests: map<GuestId, GuestMonitorView>, domains: seq<GuestId>, launch: Launcher)
    : (r: map<GuestId, GuestMonitorView>)
    ensures forall id :: id in guests ==> id in r && r[id] == guests[id]
    ensures forall id :: id in r && id !in guests ==>
      id in domains && launch(id) == Some(r[id]) && r[id].alive
    ensures forall id :: id in domains && id !in guests && launch(id).Some? && launch(id).value.alive ==>
      id in r
  {
    var started := set id | id in SetOf(domains) - guests.Keys && launch(id).Some? && launch(id).value.alive;
    map id | id in guests.Keys + started :: if id in guests then guests[id] else launch(id).value
  }

  /** `check_threads`: only guests whose monitor is alive and that are still listed remain. */
  function Reaped(guests: map<GuestId, GuestMonitorView>, domains: seq<GuestId>)
    : (r: map<GuestId, GuestMonitorView>)
    ensures r.Keys <= guests.Keys && r.Keys <= SetOf(domains)
    ensures forall id :: id in r ==> r[id] == guests[id] && r[id].alive
    ensures forall id :: id in guests && guests[id].alive && id in domains ==> id in r
  {
    map id | id in guests && guests[id].alive && id in domains :: guests[id]
  }

  /** The guests `check_threads` tells to terminate: alive but no longer listed. */
  function Unlisted(guests: map<GuestId, GuestMonitorView>, domains: seq<GuestId>): (r: set<GuestId>)
    ensures forall id :: id in r <==> id in guests && guests[id].alive && id !in domains
  {
    set id | id in guests && guests[id].alive && id !in domains
  }

  /** `interrogate`: the snapshots that exist, by guest id. */
  function Snapshots(guests: map<GuestId, GuestMonitorView>): (r: map<GuestId, Value>)
    ensures r.Keys <= guests.Keys
    ensures forall id :: id in guests ==>
      (id in r <==> guests[id].snapshot.Some?) && (id in r ==> r[id] == guests[id].snapshot.value)
  {
    map id | id in guests && guests[id].snapshot.Some? :: guests[id].snapshot.value
  }

  /** A guest `rpc_get_active_guests` reports: ready, with a known name. */
  predicate Active(m: GuestMonitorView) {
    m.ready && m.guestName.Some?
  }

  class GuestManager {
    var guests: map<GuestId, GuestMonitorView>

    constructor ()
      ensures guests == map[]
    {
      guests := map[];
    }

    method SpawnGuestMonitors(domains: seq<GuestId>, launch: Launcher)
      modifies this
      ensures guests == Spawned(old(guests), domains, launch)
    {
      var spawn := SetOf(domains) - guests.Keys;
      ghost var before := guests;
      ghost var done: set<GuestId> := {};
      while spawn != {}
        invariant spawn + done == SetOf(domains) - before.Keys && spawn !! done
        invariant guests == before + map id | id in done && launch(id).Some? && launch(id).value.alive :: launch(id).value
        decreases spawn
      {
        var id := Pick(spawn);
        var started := launch(id);
        if started.Some? && started.value.alive {
          if id !in guests {
            guests := guests[id := started.value];
          }
        }
        spawn := spawn - {id};
        done := done + {id};
      }
      assert guests == Spawned(before, domains, launch);
    }

    /** `check_threads`; returns the guests whose monitor was told to terminate. */
    method CheckThreads(domains: seq<GuestId>) returns (terminated: set<GuestId>)
      modifies this
      ensures guests == Reaped(old(guests), domains)
      ensures terminated == Unlisted(old(guests), domains)
    {
      var items := guests.Keys;
      ghost var before := guests;
      terminated := {};
      while items != {}
        invariant items <= before.Keys
        invariant guests == map id | id in before && (id in items || (before[id].alive && id in domains)) :: before[id]
        invariant terminated == set id | id in before.Keys - items && before[id].alive && id !in domains
        decreases items
      {
        var id := Pick(items);
        var m := guests[id];
        if !m.alive {
          guests := guests - {id};
        } else if id !in domains {
          terminated := terminated + {id};
          guests := guests - {id};
        }
        items := items - {id};
      }
    }

    /** `wait_for_guest_monitors`: pops every entry; returns the guests joined. */
    method WaitForGuestMonitors() returns (joined: set<GuestId>)
      modifies this
      ensures guests == map[]
      ensures joined == old(guests).Keys
    {
      joined := {};
      while |guests| > 0
        invariant joined !! guests.Keys && joined + guests.Keys == old(guests).Keys
        decreases |guests|
      {
        var id := Pick(guests.Keys);
        guests := guests - {id};
        joined := joined + {id};
      }
    }

    method Interrogate() returns (r: map<GuestId, Value>)
      ensures r == Snapshots(guests)
    {
      r := map[];
      var items := guests.Keys;
      while items != {}
        invariant items <= guests.Keys
        invariant r == map id | id in guests.Keys - items && guests[id].snapshot.Some? :: guests[id].snapshot.value
        decreases items
      {
        var id := Pick(items);
        var snap := guests[id].snapshot;
        if snap.Some? {
          r := r[id := snap.value];
        }
        items := items - {id};
      }
    }

    /**
     * One round of `run`: with a guest list, start monitors for new guests,
     * then drop the dead and the unlisted; without one, do nothing.
     */
    method Tick(domains: Option<seq<GuestId>>, launch: Launcher) returns (terminated: set<GuestId>)
      modifies this
      ensures domains.None? ==> guests == old(guests) && terminated == {}
      ensures domains.Some? ==>
        guests == Reaped(Spawned(old(guests), domains.value, launch), domains.value) &&
        terminated == Unlisted(Spawned(old(guests), domains.value, launch), domains.value)
    {
      terminated := {};
      if domains.Some? {
        SpawnGuestMonitors(domains.value, launch);
        terminated := CheckThreads(domains.value);
      }
    }

    /**
     * `rpc_get_active_guests`: the names of the ready guests, one per
     * guest.  `ids` says which guest each entry came from.
     */
    method ActiveGuests() returns (names: seq<string>, ghost ids: seq<GuestId>)
      ensures forall n :: n in names <==> exists id :: id in guests && Active(guests[id]) && guests[id].guestName == Some(n)
      ensures |ids| == |names|
      ensures forall i, j :: 0 <= i < j < |ids| ==> ids[i] != ids[j]
      ensures forall id :: id in ids <==> id in guests && Active(guests[id])
      ensures forall i :: 0 <= i < |ids| ==> ids[i] in guests && guests[ids[i]].guestName == Some(names[i])
      ensures |names| == |set id | id in guests && Active(guests[id])|
    {
      names := [];
      ids := [];
      var items := guests.Keys;
      while items != {}
        invariant items <= guests.Keys
        invariant |ids| == |names|
        invariant forall i, j :: 0 <= i < j < |ids| ==> ids[i] != ids[j]
        invariant forall id :: id in ids <==> id in guests.Keys - items && Active(guests[id])
        invariant forall i :: 0 <= i < |ids| ==> ids[i] in guests && guests[ids[i]].guestName == Some(names[i])
        decreases items
      {
        var id := Pick(items);
        var m := guests[id];
        if Active(m) {
          names := names + [m.guestName.value];
          ids := ids + [id];
        }
        items := items - {id};
      }
      forall n | n in names
        ensures exists id :: id in guests && Active(guests[id]) && guests[id].guestName == Some(n)
      {
        var i :| 0 <= i < |names| && names[i] == n;
        assert ids[i] in ids;
      }
      forall n | exists id :: id in guests && Active(guests[id]) && guests[id].guestName == Some(n)
        ensures n in names
      {
        var id :| id in guests && Active(guests[id]) && guests[id].guestName == Some(n);
        var i :| 0 <= i < |ids| && ids[i] == id;
      }
      DistinctCard(ids);
      ghost var active := set id | id in guests && Active(guests[id]);
      forall id ensures id in SetOf(ids) <==> id in active {
        assert id in SetOf(ids) <==> id in ids;
      }
      assert SetOf(ids) == active;
    }
  }

  /** A sequence without repeats has as many elements as the set it holds. */
  lemma {:induction false} DistinctCard(s: seq<GuestId>)
    requires forall i, j :: 0 <= i < j < |s| ==> s[i] != s[j]
    ensures |SetOf(s)| == |s|
    decreases |s|
  {
    if |s| > 0 {
      var last := s[|s| - 1];
      var rest := s[..|s| - 1];
      DistinctCard(rest);
      assert SetOf(s) == SetOf(rest) + {last};
    } else {
      assert SetOf(s) == {};
    }
  }

  // ---------------------------------------------------------------------
  // properties

  /** After a round with a guest list, only listed guests are watched, and only by live monitors. */
  lemma TickOnlyListed(guests: map<GuestId, GuestMonitorView>, domains: seq<GuestId>, launch: Launcher)
    ensures var after := Reaped(Spawned(guests, domains, launch), domains);
      after.Keys <= SetOf(domains) && forall id :: id in after ==> after[id].alive
  {
  }

  /** An empty guest list ends every monitor's watch. */
  lemma TickEmptyList(guests: map<GuestId, GuestMonitorView>, launch: Launcher)
    ensures Reaped(Spawned(guests, [], launch), []) == map[]
  {
  }

  /**
   * A watched guest that stays listed and alive keeps its monitor through a
   * round: an existing entry is never replaced.
   */
  lemma TickKeepsLiveListed(guests: map<GuestId, GuestMonitorView>, domains: seq<GuestId>, launch: Launcher, id: GuestId)
    requires id in guests && guests[id].alive && id in domains
    ensures var after := Reaped(Spawned(guests, domains, launch), domains);
      id in after && after[id] == guests[id]
  {
  }

  /** A listed guest not yet watched is watched after a round exactly when its monitor starts alive. */
  lemma TickStartsNew(guests: map<GuestId, GuestMonitorView>, domains: seq<GuestId>, launch: Launcher, id: GuestId)
    requires id !in guests && id in domains
    ensures var after := Reaped(Spawned(guests, domains, launch), domains);
      id in after <==> launch(id).Some? && launch(id).value.alive
  {
  }
}
