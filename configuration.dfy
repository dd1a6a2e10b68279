/** `ConnectionInfo`: the four configuration entries and the two role descriptors built from them. */
module Configuration {
  import opened Wrappers
  import opened Text
  import opened Connection

  /** The entries read, in order: username, password, primary host, replica host. */
  const CONFIG_ENTRIES: seq<string> := ["mysql-username", "mysql-password", "mysql-master", "mysql-slave"]

  /** The `NoConnectionInfo` exception. */
  datatype NoConnectionInfo = NoConnectionInfo

  /** The configuration directory: the contents of each file that can be read, by file name. */
  type ConfigSource = map<string, string>

  predicate Configured(files: ConfigSource) {
    forall k :: 0 <= k < |CONFIG_ENTRIES| ==> CONFIG_ENTRIES[k] in files
  }

  class ConnectionInfo {
    const username: string
    const password: string
    /** `_master` and `_slave`: the hostnames of the two roles. */
    const masterHost: string
    const slaveHost: string

    constructor (username: string, password: string, masterHost: string, slaveHost: string)
      ensures this.username == username && this.password == password
      ensures this.masterHost == masterHost && this.slaveHost == slaveHost
    {
      this.username := username;
      this.password := password;
      this.masterHost := masterHost;
      this.slaveHost := slaveHost;
    }

    /** `ConnectionInfo()`: reads the four entries in turn, whitespace-stripped; the first
        one that cannot be read raises `NoConnectionInfo`, so no partial object escapes. */
    static method Load(files: ConfigSource) returns (r: Result<ConnectionInfo, NoConnectionInfo>)
      ensures r.Ok? <==> Configured(files)
      ensures r.Ok? ==> r.value.username == Strip(files[CONFIG_ENTRIES[0]])
      ensures r.Ok? ==> r.value.password == Strip(files[CONFIG_ENTRIES[1]])
      ensures r.Ok? ==> r.value.masterHost == Strip(files[CONFIG_ENTRIES[2]])
      ensures r.Ok? ==> r.value.slaveHost == Strip(files[CONFIG_ENTRIES[3]])
    {
      var values: seq<string> := [];
      var i := 0;
      while i < |CONFIG_ENTRIES|
        invariant 0 <= i <= |CONFIG_ENTRIES|
        invariant |values| == i
        invariant forall k :: 0 <= k < i ==> CONFIG_ENTRIES[k] in files && values[k] == Strip(files[CONFIG_ENTRIES[k]])
      {
        var name := CONFIG_ENTRIES[i];
        if name !in files {
          assert !Configured(files);
          return Err(NoConnectionInfo);
        }
        values := values + [Strip(files[name])];
        i := i + 1;
      }
      assert Configured(files);
      var info := new ConnectionInfo(values[0], values[1], values[2], values[3]);
      r := Ok(info);
    }

    /** `_connection_information(master)`: a new descriptor for one role, sharing the credentials. */
    method ConnectionInformation(master: bool) returns (d: DBConnectionInformation)
      ensures fresh(d)
      ensures d.hostname == (if master then masterHost else slaveHost)
      ensures d.username == username && d.password == password && d.master == master
    {
      d := new DBConnectionInformation(if master then masterHost else slaveHost, username, password, master);
    }

    /** The `master` property: a new primary descriptor on every access. */
    method Master() returns (d: DBConnectionInformation)
      ensures fresh(d)
      ensures d.hostname == masterHost && d.username == username && d.password == password && d.master
    {
      d := ConnectionInformation(true);
    }

    /** The `slave` property: a new replica descriptor on every access. */
    method Slave() returns (d: DBConnectionInformation)
      ensures fresh(d)
      ensures d.hostname == slaveHost && d.username == username && d.password == password && !d.master
    {
      d := ConnectionInformation(false);
    }

    /** `replicating()` as written: it compares the bound methods `master.ips` and
        `slave.ips` of two descriptors it has just built, which are never the same
        object, so the answer is true whatever the configuration and the network. */
    method Replicating() returns (r: bool)
      ensures r
    {
      var m := Master();
      var s := Slave();
      r := BoundMethod(m, "ips") != BoundMethod(s, "ips");
    }

    /** The evident intent of `replicating()`: the two roles' `ips()` texts differ. */
    function ReplicatingIntended(resolve: string -> Resolution): (r: bool)
      ensures masterHost == slaveHost ==> !r
    {
      FormatAddresses(resolve(masterHost)) != FormatAddresses(resolve(slaveHost))
    }

    /** Intended replication status: false when both roles name the same host; when both
        hosts resolve, true exactly when their address lists hold different addresses. */
    lemma ReplicatingIntendedMeaning(resolve: string -> Resolution)
      ensures masterHost == slaveHost ==> !ReplicatingIntended(resolve)
      ensures resolve(masterHost).Resolved? && resolve(slaveHost).Resolved? ==>
        var a, b := resolve(masterHost).addresses, resolve(slaveHost).addresses;
        |a| >= 1 && |b| >= 1 &&
        (forall i :: 0 <= i < |a| ==> ',' !in a[i]) &&
        (forall i :: 0 <= i < |b| ==> ',' !in b[i]) ==>
        (ReplicatingIntended(resolve) <==> multiset(a) != multiset(b))
    {
      if resolve(masterHost).Resolved? && resolve(slaveHost).Resolved? {
        var a, b := resolve(masterHost).addresses, resolve(slaveHost).addresses;
        if |a| >= 1 && |b| >= 1 &&
           (forall i :: 0 <= i < |a| ==> ',' !in a[i]) &&
           (forall i :: 0 <= i < |b| ==> ',' !in b[i]) {
          FormatAddressesEqualIff(a, b);
        }
      }
    }
  }

  /** One configuration on which the two differ: both roles on the same host. */
  method ReplicatingDiscrepancy() returns (asWritten: bool, intended: bool)
    ensures asWritten && !intended
  {
    var info := new ConnectionInfo("scalr", "secret", "db.example", "db.example");
    asWritten := info.Replicating();
    intended := info.ReplicatingIntended(host => Resolved(["10.0.0.1"]));
  }
}
