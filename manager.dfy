/**
 * The manager service's RPC entry points (node/impl/manager/manager.go):
 * `ProviderConnect`, which registers a provider that dialled in and stores
 * it, and `UpdateDeployment`, which forwards a deployment to its provider
 * and then records it. The database is reduced to the rows each write adds,
 * and the remote provider to the calls it receives; their outcomes are
 * parameters.
 */
module ManagerService {
  import opened Base
  import opened Text
  import opened Types
  import Scheduler
  import Handler

  /** `db.ManagerDB`, reduced to the rows the manager's writes add. A write
      that fails (`fault`) adds nothing: its transaction is rolled back. */
  class ManagerDB {
    var providers: seq<Provider>
    var deployments: seq<Deployment>

    constructor ()
      ensures providers == [] && deployments == []
    {
      providers := [];
      deployments := [];
    }

    /** `AddNewProvider`. */
    method AddNewProvider(p: Provider, fault: Option<string>) returns (err: Option<string>)
      modifies this
      ensures err == fault
      ensures providers == if fault.None? then old(providers) + [p] else old(providers)
      ensures deployments == old(deployments)
    {
      if fault.Some? {
        return fault;
      }
      providers := providers + [p];
      return None;
    }

    /** `CreateDeployment`. */
    method CreateDeployment(d: Deployment, fault: Option<string>) returns (err: Option<string>)
      modifies this
      ensures err == fault
      ensures deployments == if fault.None? then old(deployments) + [d] else old(deployments)
      ensures providers == old(providers)
    {
      if fault.Some? {
        return fault;
      }
      deployments := deployments + [d];
      return None;
    }
  }

  /** The IP recorded for a connecting provider: its own when it sent one,
      otherwise the remote address up to its first `:`. */
  function DefaultIP(ip: string, remoteAddr: string): (r: string)
    ensures ip != "" ==> r == ip
    ensures ip == "" ==> ':' !in r && |r| <= |remoteAddr| && r == remoteAddr[..|r|]
    ensures ip == "" && |r| < |remoteAddr| ==> remoteAddr[|r|] == ':'
    ensures ip == "" && ':' !in remoteAddr ==> r == remoteAddr
  {
    BeforeFirstIsPrefix(remoteAddr, ':');
    if ip == "" then BeforeFirst(remoteAddr, ':') else ip
  }

  /** A `host:port` address gives its host. */
  lemma DefaultIPOfHostPort(host: string, port: string)
    requires ':' !in host
    ensures DefaultIP("", host + ":" + port) == host
  {
    assert host + ":" + port == host + [':'] + port;
    BeforeFirstOfConcat(host, ':', port);
  }

  /** A bracketed IPv6 address such as `[::1]:8080` gives just `[`, and an
      unbracketed one such as `2001:db8::1` its first group. */
  lemma DefaultIPOfIPv6(rest: string, group: string)
    requires ':' !in group
    ensures DefaultIP("", "[:" + rest) == "["
    ensures DefaultIP("", group + ":" + rest) == group
  {
    assert "[:" + rest == "[" + [':'] + rest;
    BeforeFirstOfConcat("[", ':', rest);
    DefaultIPOfHostPort(group, rest);
  }

  /** Behind a proxy, the client named first in `X-Forwarded-For` becomes
      the provider's IP. */
  lemma ProxiedProviderIP(client: string, proxies: string, realIp: string, connAddr: string)
    requires ',' !in client && ':' !in client && IsTrimmed(client) && client != ""
    ensures DefaultIP("", Handler.GetRemoteAddr(Handler.ServedContext(client + "," + proxies, realIp, connAddr))) == client
  {
    Handler.ForwardedChainGivesClient(client, proxies, realIp);
    BeforeFirstIsPrefix(client, ':');
  }

  /** Without usable proxy headers, the host of the connection's address
      becomes the provider's IP. */
  lemma DirectProviderIP(forwardedFor: string, realIp: string, host: string, port: string)
    requires AllSpace(BeforeFirst(forwardedFor, ',')) && AllSpace(realIp)
    requires ':' !in host
    ensures DefaultIP("", Handler.GetRemoteAddr(Handler.ServedContext(forwardedFor, realIp, host + ":" + port))) == host
  {
    assert Handler.GetClientIP(forwardedFor, realIp) == "";
    DefaultIPOfHostPort(host, port);
  }

  /** `Manager`: the database, the provider registry, and the deployments
      the remote providers were sent, with the handle each went to. */
  class Manager {
    const db: ManagerDB
    const scheduler: Scheduler.ProviderScheduler
    var remoteCalls: seq<(Scheduler.Handle, Deployment)>

    constructor (db: ManagerDB, scheduler: Scheduler.ProviderScheduler)
      ensures this.db == db && this.scheduler == scheduler && remoteCalls == []
    {
      this.db := db;
      this.scheduler := scheduler;
      remoteCalls := [];
    }

    /** `ProviderConnect` at time `now`, given the outcome of dialling the
        provider back at `url` (`connectErr`) and of the database write
        (`dbFault`). A failed dial touches neither registry nor database;
        otherwise the provider is registered first, then stamped and
        stored. The returned provider is the caller's record as the source
        leaves it, written in place. */
    method ProviderConnect(ctx: Handler.ContextValue, url: string, provider: Provider, connectErr: Option<string>,
                           now: int, createdAt: int, updatedAt: int, dbFault: Option<string>)
      returns (err: Option<string>, updated: Provider)
      modifies scheduler, db
      ensures connectErr.Some? ==>
        && err == Some("connecting remote provider failed: " + connectErr.value)
        && updated == provider
        && scheduler.providers == old(scheduler.providers)
        && db.providers == old(db.providers)
      ensures connectErr.None? ==>
        && scheduler.providers == Scheduler.Added(old(scheduler.providers), provider.id, Scheduler.Handle(url), now)
        && updated == provider.(ip := DefaultIP(provider.ip, Handler.GetRemoteAddr(ctx)), createdAt := createdAt, updatedAt := updatedAt)
        && err == dbFault
        && db.providers == if dbFault.None? then old(db.providers) + [updated] else old(db.providers)
      ensures db.deployments == old(db.deployments)
    {
      var remoteAddr := Handler.GetRemoteAddr(ctx);
      if connectErr.Some? {
        return Some("connecting remote provider failed: " + connectErr.value), provider;
      }
      var p := Scheduler.Handle(url);
      err := scheduler.AddProvider(provider.id, p, now);
      if err.Some? {
        return err, provider;
      }
      updated := provider;
      if updated.ip == "" {
        updated := updated.(ip := Split(remoteAddr, ':')[0]);
      }
      updated := updated.(createdAt := createdAt);
      updated := updated.(updatedAt := updatedAt);
      err := db.AddNewProvider(updated, dbFault);
    }

    /** `UpdateDeployment`, given the outcome of the provider's
        `CreateDeployment` (`remoteErr`) and of the database write
        (`dbFault`). The provider is found by `d.providerId`; the `id`
        argument is not read. An unknown provider means no remote call; a
        failed remote call means nothing is stored; a failed write is
        returned with the remote call left in place. */
    method UpdateDeployment(id: string, d: Deployment, remoteErr: Option<string>, dbFault: Option<string>)
      returns (err: Option<string>)
      modifies this, db
      ensures d.providerId !in scheduler.providers ==>
        err.Some? && remoteCalls == old(remoteCalls) && db.deployments == old(db.deployments)
      ensures d.providerId in scheduler.providers ==>
        remoteCalls == old(remoteCalls) + [(scheduler.providers[d.providerId].handle, d)]
      ensures d.providerId in scheduler.providers && remoteErr.Some? ==>
        err == remoteErr && db.deployments == old(db.deployments)
      ensures d.providerId in scheduler.providers && remoteErr.None? ==>
        && err == dbFault
        && db.deployments == if dbFault.None? then old(db.deployments) + [d] else old(db.deployments)
      ensures db.providers == old(db.providers)
    {
      var providerApi := scheduler.Get(d.providerId);
      if providerApi.Err? {
        return Some(providerApi.error);
      }
      remoteCalls := remoteCalls + [(providerApi.value, d)];
      if remoteErr.Some? {
        return remoteErr;
      }
      err := db.CreateDeployment(d, dbFault);
    }
  }
}
