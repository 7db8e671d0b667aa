/**
 * The manager's registry of connected providers
 * (node/impl/manager/sched_provider.go): registration, removal, and one pass
 * of the heartbeat sweep that refreshes responsive providers and drops those
 * silent for longer than the TTL. Times are nanosecond counts.
 */
module Scheduler {
  import opened Base

  /** `HeartbeatInterval`, 10 s. */
  const HeartbeatInterval: int := 10_000_000_000
  /** `ProviderTTL`, 30 s. */
  const ProviderTTL: int := 30_000_000_000

  type ProviderID = string

  /** The RPC handle of a connected provider, known by the URL it was
      reached at. */
  datatype Handle = Handle(url: string)

  /** `providerLife`. */
  datatype ProviderLife = ProviderLife(handle: Handle, lastSeen: int)

  /** `providerLife.Expired`: the TTL after the last sighting lies strictly
      before `now`. */
  predicate Expired(p: ProviderLife, now: int)
  {
    p.lastSeen + ProviderTTL < now
  }

  /** `providerLife.Update`. */
  function Seen(p: ProviderLife, now: int): ProviderLife
  {
    p.(lastSeen := now)
  }

  /** The registry after `AddProvider(id, handle)` at `now`. */
  function Added(m: map<ProviderID, ProviderLife>, id: ProviderID, handle: Handle, now: int): map<ProviderID, ProviderLife>
  {
    if id in m then m else m[id := ProviderLife(handle, now)]
  }

  /** The registry after one sweep at `now` in which the providers in
      `responding` answered their session probe. */
  function Swept(m: map<ProviderID, ProviderLife>, now: int, responding: set<ProviderID>): map<ProviderID, ProviderLife>
  {
    map id | id in m && (id in responding || !Expired(m[id], now)) :: if id in responding then Seen(m[id], now) else m[id]
  }

  /** Part way through a sweep: the entries in `todo` not yet visited. */
  ghost function SweptExcept(m: map<ProviderID, ProviderLife>, todo: set<ProviderID>, now: int, responding: set<ProviderID>): map<ProviderID, ProviderLife>
  {
    map id | id in m && (id in todo || id in responding || !Expired(m[id], now)) ::
      if id in todo then m[id] else if id in responding then Seen(m[id], now) else m[id]
  }

  /** `ProviderScheduler`. */
  class ProviderScheduler {
    var providers: map<ProviderID, ProviderLife>

    constructor ()
      ensures providers == map[]
    {
      providers := map[];
    }

    /** `AddProvider`: never fails; the first registration of an ID wins. */
    method AddProvider(id: ProviderID, handle: Handle, now: int) returns (err: Option<string>)
      modifies this
      ensures err == None
      ensures providers == Added(old(providers), id, handle, now)
    {
      if id in providers {
        return None;
      }
      providers := providers[id := ProviderLife(handle, now)];
      return None;
    }

    /** `delProvider`. */
    method DelProvider(id: ProviderID)
      modifies this
      ensures providers == old(providers) - {id}
    {
      if id in providers {
        providers := providers - {id};
      }
    }

    /** The lookup `UpdateDeployment` relies on (the source calls a `Get` that
        is not part of this model; it is taken to fail on an unknown ID). */
    method Get(id: ProviderID) returns (r: Result<Handle, string>)
      ensures id in providers ==> r == Ok(providers[id].handle)
      ensures id !in providers ==> r.Err?
    {
      if id !in providers {
        return Err("provider not found");
      }
      return Ok(providers[id].handle);
    }

    /** One pass of `watch` at `now`: each provider is visited once; a
        failed probe keeps an unexpired provider as it is and deletes an
        expired one; a successful probe refreshes it. */
    method Sweep(now: int, responding: set<ProviderID>)
      modifies this
      ensures providers == Swept(old(providers), now, responding)
    {
      ghost var m0 := providers;
      var todo := providers.Keys;
      assert providers == SweptExcept(m0, todo, now, responding);
      while todo != {}
        invariant todo <= m0.Keys
        invariant providers == SweptExcept(m0, todo, now, responding)
        decreases todo
      {
        var id :| id in todo;
        var provider := providers[id];
        if id !in responding {
          if !Expired(provider, now) {
            todo := todo - {id};
            continue;
          }
          providers := providers - {id};
          todo := todo - {id};
          continue;
        }
        providers := providers[id := Seen(provider, now)];
        todo := todo - {id};
      }
      assert providers == Swept(m0, now, responding);
    }
  }

  /** Registering again under a known ID changes nothing, whatever the new
      handle or time; other IDs are untouched and a new ID starts as seen
      now. */
  lemma AddFirstWins(m: map<ProviderID, ProviderLife>, id: ProviderID, h: Handle, t: int, h': Handle, t': int)
    ensures Added(Added(m, id, h, t), id, h', t') == Added(m, id, h, t)
    ensures id !in m ==> Added(m, id, h, t)[id] == ProviderLife(h, t)
    ensures id in m ==> Added(m, id, h, t) == m
    ensures forall other | other in m && other != id :: other in Added(m, id, h, t) && Added(m, id, h, t)[other] == m[other]
    ensures Added(m, id, h, t).Keys == m.Keys + {id}
  {
  }

  /** A sweep adds no ID; a responsive provider stays with `LastSeen` = now
      and its handle; a silent unexpired one stays unchanged; a silent
      expired one is removed. */
  lemma SweepOutcome(m: map<ProviderID, ProviderLife>, now: int, responding: set<ProviderID>, id: ProviderID)
    ensures Swept(m, now, responding).Keys <= m.Keys
    ensures id in m && id in responding ==> id in Swept(m, now, responding) && Swept(m, now, responding)[id] == ProviderLife(m[id].handle, now)
    ensures id in m && id !in responding && !Expired(m[id], now) ==> id in Swept(m, now, responding) && Swept(m, now, responding)[id] == m[id]
    ensures id in m && id !in responding && Expired(m[id], now) ==> id !in Swept(m, now, responding)
  {
  }

  /** After a sweep no registered provider is expired at the sweep's time. */
  lemma NoExpiredAfterSweep(m: map<ProviderID, ProviderLife>, now: int, responding: set<ProviderID>)
    ensures forall id | id in Swept(m, now, responding) :: !Expired(Swept(m, now, responding)[id], now)
  {
  }

  /** A provider that stops answering survives sweeps up to three heartbeats
      after its last sighting and is dropped by any sweep after that. */
  lemma ExpiryHorizon(p: ProviderLife)
    ensures !Expired(p, p.lastSeen + 3 * HeartbeatInterval)
    ensures Expired(p, p.lastSeen + 3 * HeartbeatInterval + 1)
    ensures ProviderTTL == 3 * HeartbeatInterval
  {
  }

  /** Removal takes out exactly the given ID; an absent one changes
      nothing. */
  lemma DelExact(m: map<ProviderID, ProviderLife>, id: ProviderID)
    ensures id !in m ==> m - {id} == m
    ensures (m - {id}).Keys == m.Keys - {id}
  {
  }
}
