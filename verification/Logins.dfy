/** The login and logoff handlers of the gate, ms_gate/src/rpc_handler.go, which write what a push
    looks up. */
module Logins {
  import opened Options
  import opened AddressText
  import opened SafePush

  /** ok says whether redis took the command. */
  datatype Event =
    | LogsIn(service: string, client: string, addr: string, connID: string, ok: bool)
    | LogsOff(service: string, client: string, ok: bool)

  function GateKey(service: string, client: string): Option<string> {
    if service == "ServiceGate" then Some("s_" + client)
    else if service == "ClientGate" then Some("c_" + client)
    else None
  }

  function Handle(redis: map<string, string>, e: Event): map<string, string> {
    var key := GateKey(e.service, e.client);
    if key.None? || !e.ok then redis
    else if e.LogsIn? then redis[key.value := LoginValue(e.addr, e.connID)]
    else redis - {key.value}
  }

  function StoredAfter(redis: map<string, string>, es: seq<Event>): map<string, string> {
    if es == [] then redis else Handle(StoredAfter(redis, es[..|es| - 1]), es[|es| - 1])
  }

  /** Servers log in at the service gate and clients at the client gate. */
  predicate Concerns(e: Event, client: string, typ: string) {
    && e.ok && e.client == client
    && ((typ == "server" && e.service == "ServiceGate") || (typ == "client" && e.service == "ClientGate"))
  }

  /** No two parties share a key. */
  lemma KeysDiffer(typ: string, client: string, typ': string, client': string)
    requires RedisKey(typ, client).Some? && RedisKey(typ, client) == RedisKey(typ', client')
    ensures typ == typ' && client == client'
  {
    var key := RedisKey(typ, client).value;
    assert key[0] == 's' <==> typ == "server";
    assert client == key[2..] == client';
  }

  /** An event of the gates touches the key of the party it concerns, and no other. */
  lemma TouchesOwnKey(e: Event, client: string, typ: string)
    ensures RedisKey(typ, client).Some? && e.ok ==>
      (GateKey(e.service, e.client) == RedisKey(typ, client) <==> Concerns(e, client, typ))
    ensures Concerns(e, client, typ) ==> RedisKey(typ, client).Some?
  {
    var typ' := if e.service == "ServiceGate" then "server" else if e.service == "ClientGate" then "client" else "";
    assert GateKey(e.service, e.client) == RedisKey(typ', e.client);
    if RedisKey(typ, client).Some? && RedisKey(typ', e.client) == RedisKey(typ, client) {
      KeysDiffer(typ, client, typ', e.client);
    }
  }

  /** Where a party is by what concerned it: on the connection it logged in on, if the gate has told
      that listen address and its connection is open. */
  function Where(d: Directory, e: Event): Option<Target> {
    if e.LogsIn? && e.addr in d.gates && d.gates[e.addr] in d.live then Some(Target(d.gates[e.addr], e.connID)) else None
  }

  /** What concerned a party decides where it is found, and nobody else's place changes. */
  lemma LoginDecides(d: Directory, e: Event, client: string, typ: string)
    requires e.LogsIn? ==> '/' !in e.addr && '/' !in e.connID
    ensures var t := d.(redis := Handle(d.redis, e));
      if Concerns(e, client, typ) then Find(t, client, typ) == Where(d, e) && !Panics(t, client, typ)
      else Find(t, client, typ) == Find(d, client, typ) && (Panics(t, client, typ) <==> Panics(d, client, typ))
  {
    TouchesOwnKey(e, client, typ);
    if Concerns(e, client, typ) && e.LogsIn? {
      LoggedInIsFound(d.(redis := Handle(d.redis, e)), client, typ, RedisKey(typ, client).value, e.addr, e.connID);
    }
  }

  ghost predicate IsLast(es: seq<Event>, client: string, typ: string, i: nat) {
    i < |es| && Concerns(es[i], client, typ) && forall j :: i < j < |es| ==> !Concerns(es[j], client, typ)
  }

  ghost predicate NoneConcerns(es: seq<Event>, client: string, typ: string) {
    forall i :: 0 <= i < |es| ==> !Concerns(es[i], client, typ)
  }

  ghost predicate PlainAddresses(es: seq<Event>) {
    forall i :: 0 <= i < |es| && es[i].LogsIn? ==> '/' !in es[i].addr && '/' !in es[i].connID
  }

  /** After any logins and logoffs at any gates, a push of type "server" finds a party where it last
      logged in at a service gate, one of type "client" where it last logged in at a client gate, and
      neither finds it once it has logged off there. */
  lemma {:induction false} LastLoginDecides(d: Directory, es: seq<Event>, client: string, typ: string, i: nat)
    requires PlainAddresses(es) && IsLast(es, client, typ, i)
    ensures var t := d.(redis := StoredAfter(d.redis, es)); Find(t, client, typ) == Where(d, es[i]) && !Panics(t, client, typ)
    decreases |es|
  {
    var n := |es| - 1;
    var s := d.(redis := StoredAfter(d.redis, es[..n]));
    LoginDecides(s, es[n], client, typ);
    if i < n {
      LastLoginDecides(d, es[..n], client, typ, i);
    }
  }

  /** And where nothing concerned it, it is found as before. */
  lemma {:induction false} OthersLoginsChangeNothing(d: Directory, es: seq<Event>, client: string, typ: string)
    requires PlainAddresses(es) && NoneConcerns(es, client, typ)
    ensures var t := d.(redis := StoredAfter(d.redis, es));
      Find(t, client, typ) == Find(d, client, typ) && (Panics(t, client, typ) <==> Panics(d, client, typ))
    decreases |es|
  {
    if es == [] {
      assert d.(redis := StoredAfter(d.redis, es)) == d;
    } else {
      var n := |es| - 1;
      OthersLoginsChangeNothing(d, es[..n], client, typ);
      LoginDecides(d.(redis := StoredAfter(d.redis, es[..n])), es[n], client, typ);
    }
  }

  /** A gate process as its clients log in and off; redis is shared with all the others. */
  class LoginGate {
    const service: string
    const listenAddr: string
    var redis: map<string, string>

    constructor (service: string, listenAddr: string, redis: map<string, string>)
      ensures this.service == service && this.listenAddr == listenAddr && this.redis == redis
    {
      this.service, this.listenAddr, this.redis := service, listenAddr, redis;
    }

    /** At a gate of another name the handler reports success and stores nothing. */
    method Login(client: string, connID: string, stored: bool) returns (success: bool)
      modifies `redis
      ensures redis == Handle(old(redis), LogsIn(service, client, listenAddr, connID, stored))
      ensures success <==> stored || (service != "ServiceGate" && service != "ClientGate")
      ensures service != "ServiceGate" && service != "ClientGate" ==> redis == old(redis)
    {
      success := true;
      var key;
      if "ServiceGate" == service {
        key := "s_" + client;
      } else if "ClientGate" == service {
        key := "c_" + client;
      } else {
        return;
      }
      var value := listenAddr + "/" + connID;
      if !stored {
        success := false;
        return;
      }
      redis := redis[key := value];
    }

    method Logoff(client: string, deleted: bool) returns (success: bool)
      modifies `redis
      ensures redis == Handle(old(redis), LogsOff(service, client, deleted))
      ensures success <==> deleted || (service != "ServiceGate" && service != "ClientGate")
      ensures service != "ServiceGate" && service != "ClientGate" ==> redis == old(redis)
    {
      success := true;
      var key;
      if "ServiceGate" == service {
        key := "s_" + client;
      } else if "ClientGate" == service {
        key := "c_" + client;
      } else {
        return;
      }
      if !deleted {
        success := false;
        return;
      }
      redis := redis - {key};
    }
  }
}
