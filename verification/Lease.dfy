/** The run lock: a lease in a key store with expiry, held by token. */
module Lease {
  import opened Domain

  // ---------------------------------------------------------------- the key store

  datatype Slot = Slot(token: string, expiry: int)

  /** The store's clock and the one key that names this run's lock. */
  datatype Store = Store(now: int, slot: Option<Slot>)

  /** The token a read of the key returns; an expired key is absent. */
  function Owner(store: Store): Option<string> {
    if store.slot.Some? && store.now < store.slot.value.expiry then Some(store.slot.value.token) else None
  }

  /** Set if absent, with an expiry, in one command. */
  function SetIfAbsent(store: Store, token: string, ttl: int): (Store, bool) {
    if Owner(store).None? then (store.(slot := Some(Slot(token, store.now + ttl))), true) else (store, false)
  }

  /** Compare with the owner and push the expiry out, in one script. */
  function CompareAndExtend(store: Store, token: string, ttl: int): (Store, bool) {
    if Owner(store) == Some(token) then (store.(slot := Some(Slot(token, store.now + ttl))), true) else (store, false)
  }

  /** Compare with the owner and delete, in one script. */
  function CompareAndDelete(store: Store, token: string): (Store, bool) {
    if Owner(store) == Some(token) then (store.(slot := None), true) else (store, false)
  }

  class KeyStore {
    var store: Store

    constructor (now: int)
      ensures store == Store(now, None)
    {
      store := Store(now, None);
    }
  }

  class RunLock {
    const client: KeyStore
    const token: string
    const ttl: int
    var held: bool

    constructor (client: KeyStore, token: string, ttl: int)
      requires ttl >= 1
      ensures this.client == client && this.token == token && this.ttl == ttl && !held
    {
      this.client, this.token, this.ttl := client, token, ttl;
      held := false;
    }

    /** Take the lock, or report it unavailable.  A refusal changes nothing. */
    method Acquire() returns (acquired: bool)
      modifies this`held, client
      ensures (client.store, acquired) == SetIfAbsent(old(client.store), token, ttl)
      ensures (client.store, held) == Acquired(old(client.store), old(held), Holder(token, ttl))
    {
      var (after, placed) := SetIfAbsent(client.store, token, ttl);
      client.store := after;
      acquired := placed;
      if acquired {
        held := true;
      }
    }

    /** Extend the lease; false means the lock was lost, or never held. */
    method Renew() returns (extended: bool)
      modifies this`held, client
      ensures (client.store, held) == Renewed(old(client.store), old(held), Holder(token, ttl))
      ensures held == extended
    {
      if !held {
        return false;
      }
      var (after, renewed) := CompareAndExtend(client.store, token, ttl);
      client.store := after;
      extended := renewed;
      if !extended {
        held := false;
      }
    }

    /** Give the lock up, but only if it is still ours. */
    method Release()
      modifies this`held, client
      ensures (client.store, held) == Released(old(client.store), old(held), Holder(token, ttl))
    {
      if !held {
        return;
      }
      var (after, deleted) := CompareAndDelete(client.store, token);
      client.store := after;
      held := false;
    }
  }

  // ---------------------------------------------------------------- the protocol

  datatype Holder = Holder(token: string, ttl: int)

  /** The store, each worker's held flag, and when each worker that has not released since was last
      granted or renewed the lease. */
  datatype System = System(store: Store, held: set<nat>, granted: map<nat, int>)

  datatype Action = Acquire(w: nat) | Renew(w: nat) | Release(w: nat) | Tick(seconds: nat)

  function Apply(holders: seq<Holder>, system: System, action: Action): System {
    match action
    case Tick(seconds) => system.(store := system.store.(now := system.store.now + seconds))
    case Acquire(w) =>
      if w >= |holders| then system
      else
        var (store, acquired) := SetIfAbsent(system.store, holders[w].token, holders[w].ttl);
        if acquired then System(store, system.held + {w}, system.granted[w := store.now]) else system
    case Renew(w) =>
      if w >= |holders| || w !in system.held then system
      else
        var (store, extended) := CompareAndExtend(system.store, holders[w].token, holders[w].ttl);
        if extended then System(store, system.held, system.granted[w := store.now])
        else system.(held := system.held - {w})
    case Release(w) =>
      if w >= |holders| || w !in system.held then system
      else System(CompareAndDelete(system.store, holders[w].token).0, system.held - {w}, system.granted - {w})
  }

  /** What `Acquire`, `Renew` and `Release` promise of the store and of the held flag. */
  function Acquired(store: Store, held: bool, holder: Holder): (Store, bool) {
    var (after, placed) := SetIfAbsent(store, holder.token, holder.ttl);
    (after, placed || held)
  }

  function Renewed(store: Store, held: bool, holder: Holder): (Store, bool) {
    if held then CompareAndExtend(store, holder.token, holder.ttl) else (store, false)
  }

  function Released(store: Store, held: bool, holder: Holder): (Store, bool) {
    (if held then CompareAndDelete(store, holder.token).0 else store, false)
  }

  /** Each action of the protocol is the method of the worker's lock: the store and the worker's flag become what
      the method promises, and no other worker's flag or grant changes. */
  lemma {:induction false} ActionsAreTheMethods(holders: seq<Holder>, system: System, w: nat)
    requires w < |holders|
    ensures Does(holders, system, Acquire(w), w, Acquired(system.store, w in system.held, holders[w]))
    ensures Does(holders, system, Renew(w), w, Renewed(system.store, w in system.held, holders[w]))
    ensures Does(holders, system, Release(w), w, Released(system.store, w in system.held, holders[w]))
  {
  }

  predicate Does(holders: seq<Holder>, system: System, action: Action, w: nat, effect: (Store, bool)) {
    var after := Apply(holders, system, action);
    && after.store == effect.0
    && (w in after.held <==> effect.1)
    && after.held - {w} == system.held - {w}
    && after.granted - {w} == system.granted - {w}
  }

  function After(holders: seq<Holder>, system: System, actions: seq<Action>): System {
    if actions == [] then system
    else Apply(holders, After(holders, system, actions[..|actions| - 1]), actions[|actions| - 1])
  }

  predicate DistinctTokens(holders: seq<Holder>) {
    forall i, j | 0 <= i < j < |holders| :: holders[i].token != holders[j].token
  }

  predicate Initial(system: System) {
    system.held == {} && system.granted == map[]
  }

  /** The worker's ttl has not elapsed since its last successful acquire or renew, and it has not released. */
  predicate Fresh(holders: seq<Holder>, system: System, w: nat) {
    w < |holders| && w in system.granted && system.store.now < system.granted[w] + holders[w].ttl
  }

  ghost predicate LeasesHeld(holders: seq<Holder>, system: System) {
    forall w: nat | w < |holders| && Fresh(holders, system, w) ::
      system.store.slot == Some(Slot(holders[w].token, system.granted[w] + holders[w].ttl))
  }

  /** A worker whose lease is fresh knows that it holds it. */
  ghost predicate FreshAreHeld(holders: seq<Holder>, system: System) {
    forall w: nat | w < |holders| && Fresh(holders, system, w) :: w in system.held
  }

  lemma {:induction false} StepKeepsHeld(holders: seq<Holder>, system: System, action: Action)
    requires DistinctTokens(holders) && LeasesHeld(holders, system) && FreshAreHeld(holders, system)
    ensures FreshAreHeld(holders, Apply(holders, system, action))
  {
    var after := Apply(holders, system, action);
    forall v: nat | v < |holders| && Fresh(holders, after, v) ensures v in after.held {
      if v in system.granted && after.granted[v] == system.granted[v] {
        assert Fresh(holders, system, v);
      }
    }
  }

  lemma {:induction false} StepKeepsLeases(holders: seq<Holder>, system: System, action: Action)
    requires DistinctTokens(holders) && LeasesHeld(holders, system)
    ensures LeasesHeld(holders, Apply(holders, system, action))
  {
    var after := Apply(holders, system, action);
    forall v: nat | v < |holders| && Fresh(holders, after, v)
      ensures after.store.slot == Some(Slot(holders[v].token, after.granted[v] + holders[v].ttl))
    {
      if v in system.granted && after.granted[v] == system.granted[v] {
        assert Fresh(holders, system, v);
        assert Owner(system.store) == Some(holders[v].token);
        if !action.Tick? && action.w < |holders| && action.w != v {
          assert holders[action.w].token != holders[v].token;
        }
      }
    }
  }

  /** In every interleaving of acquires, renewals, releases and the passing of time, a worker whose
      lease is fresh owns the key, until exactly the instant its lease runs out. */
  lemma {:induction false} FreshLeaseOwnsTheKey(holders: seq<Holder>, system: System, actions: seq<Action>)
    requires DistinctTokens(holders) && Initial(system)
    ensures LeasesHeld(holders, After(holders, system, actions))
    ensures forall w: nat | w < |holders| && Fresh(holders, After(holders, system, actions), w) ::
              Owner(After(holders, system, actions).store) == Some(holders[w].token)
  {
    if actions != [] {
      FreshLeaseOwnsTheKey(holders, system, actions[..|actions| - 1]);
      StepKeepsLeases(holders, After(holders, system, actions[..|actions| - 1]), actions[|actions| - 1]);
    }
  }

  /** Two live leases never coexist. */
  lemma {:induction false} LeasesAreExclusive(holders: seq<Holder>, system: System, actions: seq<Action>, v: nat, w: nat)
    requires DistinctTokens(holders) && Initial(system)
    requires Fresh(holders, After(holders, system, actions), v) && Fresh(holders, After(holders, system, actions), w)
    ensures v == w
  {
    FreshLeaseOwnsTheKey(holders, system, actions);
  }

  /** So a renewal in time succeeds: the worker still holds the lease, granted anew from now, and owns the key
      at every instant until its ttl has passed again. */
  lemma {:induction false} FreshLeaseRenews(holders: seq<Holder>, system: System, actions: seq<Action>, w: nat, seconds: nat)
    requires DistinctTokens(holders) && Initial(system) && w < |holders|
    requires Fresh(holders, After(holders, system, actions), w) && seconds < holders[w].ttl
    ensures var before := After(holders, system, actions);
            var renewed := Apply(holders, before, Renew(w));
            && w in before.held && w in renewed.held
            && w in renewed.granted && renewed.granted[w] == before.store.now
            && Owner(Apply(holders, renewed, Tick(seconds)).store) == Some(holders[w].token)
  {
    FreshLeasesAreHeld(holders, system, actions);
    FreshLeaseOwnsTheKey(holders, system, actions);
  }

  lemma {:induction false} FreshLeasesAreHeld(holders: seq<Holder>, system: System, actions: seq<Action>)
    requires DistinctTokens(holders) && Initial(system)
    ensures FreshAreHeld(holders, After(holders, system, actions))
  {
    if actions != [] {
      var init := actions[..|actions| - 1];
      FreshLeasesAreHeld(holders, system, init);
      FreshLeaseOwnsTheKey(holders, system, init);
      StepKeepsHeld(holders, After(holders, system, init), actions[|init|]);
    }
  }

  /** An owner's release leaves the key free at once, for anybody. */
  lemma {:induction false} ReleaseFreesTheKey(holders: seq<Holder>, system: System, actions: seq<Action>, w: nat, v: nat)
    requires DistinctTokens(holders) && Initial(system) && w < |holders|
    requires Fresh(holders, After(holders, system, actions), w)
    requires v < |holders| && holders[v].ttl >= 1
    ensures var released := Apply(holders, After(holders, system, actions), Release(w));
            var taken := Apply(holders, released, Acquire(v));
            && Owner(released.store).None? && w !in released.held
            && Owner(taken.store) == Some(holders[v].token) && v in taken.held && Fresh(holders, taken, v)
  {
    FreshLeasesAreHeld(holders, system, actions);
    FreshLeaseOwnsTheKey(holders, system, actions);
  }

  /** A worker that does not own the key cannot change the store by renewing or releasing, and nobody
      can take the key from a live owner. */
  lemma {:induction false} NonOwnersChangeNothing(holders: seq<Holder>, system: System, w: nat)
    requires w < |holders| && Owner(system.store) != Some(holders[w].token)
    ensures Apply(holders, system, Renew(w)).store == system.store
    ensures Apply(holders, system, Release(w)).store == system.store
    ensures w !in Apply(holders, system, Renew(w)).held
    ensures Owner(system.store).Some? ==> Apply(holders, system, Acquire(w)) == system
  {
  }

  /** A worker that stops renewing frees the key: once its ttl passes any worker acquires. */
  lemma {:induction false} CrashedLeaseExpires(holders: seq<Holder>, system: System, w: nat, seconds: nat)
    requires w < |holders| && holders[w].ttl >= 1
    requires system.store.slot.Some? && system.store.slot.value.expiry <= system.store.now + seconds
    ensures var after := Apply(holders, Apply(holders, system, Tick(seconds)), Acquire(w));
            Owner(after.store) == Some(holders[w].token) && Fresh(holders, after, w)
  {
  }

  /** Sharing a token breaks exclusion: a stale holder's release deletes the new owner's lease. */
  lemma {:induction false} SharedTokensBreakExclusion()
    ensures var holders := [Holder("t", 10), Holder("t", 10)];
            var system := System(Store(0, None), {}, map[]);
            var after := After(holders, system, [Acquire(0), Tick(10), Acquire(1), Release(0)]);
            Fresh(holders, after, 1) && Owner(after.store).None?
  {
    var holders := [Holder("t", 10), Holder("t", 10)];
    var system := System(Store(0, None), {}, map[]);
    var one := System(Store(0, Some(Slot("t", 10))), {0}, map[0 := 0]);
    var two := System(Store(10, Some(Slot("t", 10))), {0}, map[0 := 0]);
    var three := System(Store(10, Some(Slot("t", 20))), {0, 1}, map[0 := 0, 1 := 10]);
    assert [Acquire(0), Tick(10), Acquire(1), Release(0)][..3] == [Acquire(0), Tick(10), Acquire(1)];
    assert [Acquire(0), Tick(10), Acquire(1)][..2] == [Acquire(0), Tick(10)];
    assert [Acquire(0), Tick(10)][..1] == [Acquire(0)];
    assert [Acquire(0)][..0] == [];
    assert After(holders, system, [Acquire(0)]) == one;
    assert After(holders, system, [Acquire(0), Tick(10)]) == two;
    assert After(holders, system, [Acquire(0), Tick(10), Acquire(1)]) == three;
    assert Apply(holders, three, Release(0)) == System(Store(10, None), {1}, map[1 := 10]);
  }
}
