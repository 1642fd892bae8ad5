/** The backend configuration file, as both copies of the connected-server
    headers read it: a sequence of service entries, each with an optional
    list of `service` addresses and an optional `database` address, every
    address of the form `host:port`. Loading the YAML text is left out. */
module Config {
  import opened Common
  import opened Pools

  /** One top-level entry of the backend file, in document order. */
  datatype ServiceConf = ServiceConf(name: string, service: Option<seq<string>>, database: Option<string>)

  /** `addr.substr(0, addr.find(":"))`: everything before the first ':'. */
  function HostPart(addr: string): (h: string)
  {
    match Find(addr, ':')
    case None => addr
    case Some(i) => addr[..i]
  }

  /** `addr.substr(addr.find(":") + 1)`: everything after the first ':', and
      the whole text when there is none, because `npos + 1` wraps to 0. */
  function PortPart(addr: string): (p: string)
    ensures ':' in addr ==> addr == HostPart(addr) + ":" + p
    ensures ':' !in addr ==> p == addr
  {
    match Find(addr, ':')
    case None => addr
    case Some(i) =>
      assert addr == addr[..i] + [':'] + addr[i + 1..];
      addr[i + 1..]
  }

  /** The split of one address; None when `std::stoi` throws on the port. */
  function SplitHostPort(addr: string): (r: Option<Server>)
    ensures r.Some? ==> r.value.host == HostPart(addr) && Stoi(PortPart(addr)) == Some(r.value.port)
    ensures r.None? <==> Stoi(PortPart(addr)).None?
  {
    match Stoi(PortPart(addr))
    case None => None
    case Some(port) => Some(Server(HostPart(addr), port))
  }

  /** Splitting undoes joining a colon-free host and a 32-bit port. */
  lemma SplitHostPortOfJoin(host: string, port: int)
    requires ':' !in host && Int32Min <= port <= Int32Max
    ensures SplitHostPort(host + ":" + IntToString(port)) == Some(Server(host, port))
  {
    var addr := host + ":" + IntToString(port);
    assert addr[|host|] == ':';
    assert ':' in addr;
    assert HostPart(addr) == host by {
      assert addr[..|host|] == host;
    }
    assert PortPart(addr) == IntToString(port) by {
      assert addr == host + ":" + PortPart(addr);
      assert addr == host + ":" + IntToString(port);
      assert addr[|host| + 1..] == PortPart(addr);
      assert addr[|host| + 1..] == IntToString(port);
    }
    StoiOfIntToString(port);
  }

  /** An address without ':' is its own host and its own port text. */
  lemma SplitHostPortWithoutColon(addr: string)
    requires ':' !in addr
    ensures SplitHostPort(addr) == match Stoi(addr) case None => None case Some(p) => Some(Server(addr, p))
  {
  }

  /** Every address of `addrs` split, in order; None as soon as one fails. */
  function ParseAll(addrs: seq<string>): Option<seq<Server>> {
    MapAll(SplitHostPort, addrs)
  }

  /** The `service` map the connected-server constructors build from the
      file, or None when some address makes `std::stoi` throw. */
  function ServiceTable(conf: seq<ServiceConf>): Option<map<string, seq<Server>>> {
    TableWith(SplitHostPort, conf)
  }

  /** The same map for any way `split` of reading one address: for each
      entry with a `service` list, in document order, push every address's
      reading at the back of the entry's list. */
  function TableWith(split: string -> Option<Server>, conf: seq<ServiceConf>): Option<map<string, seq<Server>>> {
    if |conf| == 0 then Some(map[])
    else
      match TableWith(split, conf[..|conf| - 1])
      case None => None
      case Some(table) =>
        var last := conf[|conf| - 1];
        if last.service.None? then Some(table)
        else
          match MapAll(split, last.service.value)
          case None => None
          case Some(servers) => Some(Extend(table, last.name, servers))
  }

  /** Reference: the addresses listed under `name`, in document order. */
  function Listed(conf: seq<ServiceConf>, name: string): seq<string> {
    if |conf| == 0 then []
    else
      var last := conf[|conf| - 1];
      Listed(conf[..|conf| - 1], name) + (if last.name == name && last.service.Some? then last.service.value else [])
  }

  /** Every listed address of every entry can be read. */
  predicate AllRead(split: string -> Option<Server>, conf: seq<ServiceConf>) {
    forall i :: 0 <= i < |conf| && conf[i].service.Some? ==> MapAll(split, conf[i].service.value).Some?
  }

  /** TableWith in terms of the reference: the table exists iff every
      address can be read, and then each name's list is its listed
      addresses, read, in order; a name is a key iff it lists an address. */
  lemma {:induction false} TableWithMeaning(split: string -> Option<Server>, conf: seq<ServiceConf>)
    ensures TableWith(split, conf).Some? <==> AllRead(split, conf)
    ensures TableWith(split, conf).Some? ==> forall name ::
      && MapAll(split, Listed(conf, name)) == Some(ListAt(TableWith(split, conf).value, name))
      && (name in TableWith(split, conf).value <==> |Listed(conf, name)| > 0)
  {
    if |conf| > 0 {
      var init := conf[..|conf| - 1];
      var last := conf[|conf| - 1];
      TableWithMeaning(split, init);
      assert forall i :: 0 <= i < |init| ==> init[i] == conf[i];
      assert AllRead(split, conf) <==>
        AllRead(split, init) && (last.service.Some? ==> MapAll(split, last.service.value).Some?);
      if TableWith(split, conf).Some? {
        forall name
          ensures MapAll(split, Listed(conf, name)) == Some(ListAt(TableWith(split, conf).value, name))
          ensures name in TableWith(split, conf).value <==> |Listed(conf, name)| > 0
        {
          TableWithStep(split, conf, name);
        }
      }
    }
  }

  /** The inductive step of TableWithMeaning for one name. */
  lemma TableWithStep(split: string -> Option<Server>, conf: seq<ServiceConf>, name: string)
    requires |conf| > 0 && TableWith(split, conf).Some?
    requires MapAll(split, Listed(conf[..|conf| - 1], name)) == Some(ListAt(TableWith(split, conf[..|conf| - 1]).value, name))
    requires name in TableWith(split, conf[..|conf| - 1]).value <==> |Listed(conf[..|conf| - 1], name)| > 0
    ensures MapAll(split, Listed(conf, name)) == Some(ListAt(TableWith(split, conf).value, name))
    ensures name in TableWith(split, conf).value <==> |Listed(conf, name)| > 0
  {
    var init := conf[..|conf| - 1];
    var last := conf[|conf| - 1];
    var table := TableWith(split, init).value;
    assert TableWith(split, init).Some?;
    if last.name == name && last.service.Some? {
      var added := MapAll(split, last.service.value).value;
      assert Listed(conf, name) == Listed(init, name) + last.service.value;
      assert TableWith(split, conf).value == Extend(table, name, added);
      MapAllAppend(split, Listed(init, name), last.service.value);
    } else {
      assert Listed(conf, name) == Listed(init, name) + [];
      assert Listed(init, name) + [] == Listed(init, name);
      assert ListAt(TableWith(split, conf).value, name) == ListAt(table, name);
      assert name in TableWith(split, conf).value <==> name in table;
    }
  }

  /** The table is built iff every address splits, and then each service's
      servers are exactly its listed addresses, split, in order; a service
      is a key iff it lists at least one address. */
  lemma ServiceTableMeaning(conf: seq<ServiceConf>)
    ensures ServiceTable(conf).Some? <==> AllRead(SplitHostPort, conf)
    ensures ServiceTable(conf).Some? ==> forall name ::
      && ParseAll(Listed(conf, name)) == Some(ListAt(ServiceTable(conf).value, name))
      && (name in ServiceTable(conf).value <==> |Listed(conf, name)| > 0)
  {
    TableWithMeaning(SplitHostPort, conf);
  }

  /** The constructor loop that fills the `service` map, entry by entry and
      address by address. */
  method BuildServiceTable(conf: seq<ServiceConf>) returns (r: Option<map<string, seq<Server>>>)
    ensures r == ServiceTable(conf)
  {
    r := BuildTable(SplitHostPort, conf);
  }

  /** The loop of BuildServiceTable, for any reading of one address. */
  method BuildTable(split: string -> Option<Server>, conf: seq<ServiceConf>) returns (r: Option<map<string, seq<Server>>>)
    ensures r == TableWith(split, conf)
  {
    var service: map<string, seq<Server>> := map[];
    var i := 0;
    while i < |conf|
      invariant 0 <= i <= |conf|
      invariant TableWith(split, conf[..i]) == Some(service)
    {
      assert conf[..i + 1][..i] == conf[..i];
      var entry := conf[i];
      if entry.service.Some? {
        var next := PushAll(service, entry.name, split, entry.service.value);
        if next.None? {
          TableWithNoneExtends(split, conf, i + 1);
          return None;
        }
        service := next.value;
      }
      i := i + 1;
    }
    assert conf[..|conf|] == conf;
    return Some(service);
  }

  /** Once a prefix fails, every longer prefix fails. */
  lemma {:induction false} TableWithNoneExtends(split: string -> Option<Server>, conf: seq<ServiceConf>, k: nat)
    requires k <= |conf| && TableWith(split, conf[..k]).None?
    ensures TableWith(split, conf).None?
    decreases |conf| - k
  {
    if k < |conf| {
      assert conf[..k + 1][..k] == conf[..k];
      TableWithNoneExtends(split, conf, k + 1);
    } else {
      assert conf[..k] == conf;
    }
  }
}
