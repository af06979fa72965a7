/** Choosing the rtcd host of a new call (server/rtcd.go). Loads are reals; floating-point rounding is not the point. */
module RtcdHosts {
  import opened CallModel

  class Host {
    const ip: ID
    var flagged: bool
    constructor (ip: ID)
      ensures this.ip == ip && !flagged
    {
      this.ip, flagged := ip, false;
    }
  }

  /** What a host answers when asked: whether its client is connected, and its load unless the request fails. */
  datatype Answer = Answer(connected: bool, load: Option<real>)

  class Manager {
    var hosts: map<ID, Host>

    constructor ()
      ensures hosts == map[]
    {
      hosts := map[];
    }

    ghost predicate Valid()
      reads this, hosts.Values
    {
      && (forall ip :: ip in hosts ==> hosts[ip].ip == ip)
      && forall ip, jp :: ip in hosts && jp in hosts && hosts[ip] == hosts[jp] ==> ip == jp
    }

    /** The first half of a checker pass: known hosts that are no longer advertised are flagged, those that are again are
        unflagged. */
    method FlagHosts(advertised: set<ID>)
      requires Valid()
      modifies hosts.Values`flagged
      ensures Valid()
      ensures forall ip :: ip in hosts ==> (hosts[ip].flagged <==> ip !in advertised)
    {
      var rest := hosts.Keys;
      while exists ip :: ip in rest
        invariant rest <= hosts.Keys
        invariant forall ip :: ip in hosts && ip !in rest ==> (hosts[ip].flagged <==> ip !in advertised)
        decreases |rest|
      {
        var ip :| ip in rest;
        var host := hosts[ip];
        if ip !in advertised && !host.flagged {
          host.flagged := true;
        } else if ip in advertised && host.flagged {
          host.flagged := false;
        }
        rest := rest - {ip};
      }
    }

    /** The second half: a client is made for each advertised host not known yet, unless that fails. */
    method AddMissing(advertised: set<ID>, reachable: set<ID>)
      requires Valid()
      modifies this
      ensures Valid() && hosts.Keys == old(hosts.Keys) + advertised * reachable
      ensures forall ip :: ip in old(hosts) ==> hosts[ip] == old(hosts)[ip]
      ensures forall ip :: ip in hosts && ip !in old(hosts) ==> fresh(hosts[ip]) && !hosts[ip].flagged
    {
      var rest := advertised;
      while exists ip :: ip in rest
        invariant Valid() && rest <= advertised
        invariant hosts.Keys == old(hosts.Keys) + (advertised - rest) * reachable
        invariant forall ip :: ip in old(hosts) ==> hosts[ip] == old(hosts)[ip]
        invariant forall ip :: ip in hosts && ip !in old(hosts) ==> fresh(hosts[ip]) && !hosts[ip].flagged
        decreases |rest|
      {
        var ip :| ip in rest;
        if ip !in hosts && ip in reachable {
          var host := new Host(ip);
          hosts := hosts[ip := host];
        }
        rest := rest - {ip};
      }
    }

    /** A pass: exactly the advertised hosts that could be reached are added to the known ones, which stay the same objects;
        every host the manager knows afterwards is flagged exactly when it is not advertised. */
    method CheckHosts(advertised: set<ID>, reachable: set<ID>)
      requires Valid()
      modifies this, hosts.Values`flagged
      ensures Valid() && hosts.Keys == old(hosts.Keys) + advertised * reachable
      ensures forall ip :: ip in old(hosts) ==> hosts[ip] == old(hosts)[ip]
      ensures forall ip :: ip in hosts && ip !in old(hosts) ==> fresh(hosts[ip])
      ensures forall ip :: ip in hosts ==> (hosts[ip].flagged <==> ip !in advertised)
    {
      FlagHosts(advertised);
      AddMissing(advertised, reachable);
    }

    ghost predicate Available(answers: map<ID, Answer>, ip: ID)
      reads this, hosts.Values
    {
      ip in hosts && ip in answers && !hosts[ip].flagged && answers[ip].connected
    }

    /** GetHostForNewCall fails exactly when every host is flagged or disconnected. Otherwise it returns one that is
        neither, and if any of those answered, one with the least load among them. */
    method GetHostForNewCall(answers: map<ID, Answer>) returns (host: Option<ID>)
      requires Valid() && answers.Keys == hosts.Keys
      ensures host.None? <==> forall ip :: !Available(answers, ip)
      ensures host.Some? ==> Available(answers, host.value)
      ensures host.Some? && (exists ip :: Available(answers, ip) && answers[ip].load.Some?) ==>
                answers[host.value].load.Some?
                && forall ip :: Available(answers, ip) && answers[ip].load.Some? ==> answers[host.value].load.value <= answers[ip].load.value
    {
      var available: seq<ID> := [];
      var rest := hosts.Keys;
      while exists ip :: ip in rest
        invariant rest <= hosts.Keys
        invariant forall ip :: ip in available <==> Available(answers, ip) && ip !in rest
        decreases |rest|
      {
        var ip :| ip in rest;
        rest := rest - {ip};
        if hosts[ip].flagged || !answers[ip].connected { continue; }
        available := available + [ip];
      }
      if |available| == 0 {
        assert forall ip :: Available(answers, ip) ==> ip in available;
        return None;
      }
      var minLoad := 0.0;
      host := None;
      for i := 0 to |available|
        invariant forall k :: 0 <= k < |available| ==> Available(answers, available[k])
        invariant host.Some? ==> Available(answers, host.value) && answers[host.value].load == Some(minLoad)
        invariant forall k :: 0 <= k < i && answers[available[k]].load.Some? ==> host.Some? && minLoad <= answers[available[k]].load.value
      {
        var ip := available[i];
        var info := answers[ip].load;
        if info.None? { continue; }
        if host.None? {
          minLoad, host := info.value, Some(ip);
        } else if info.value < minLoad {
          minLoad, host := info.value, Some(ip);
        }
      }
      if host.None? {
        var r: nat :| r < |available|;
        host := Some(available[r]);
      }
    }
  }
}
