/** The discovery information of a Wi-Fi device. The version names the information: a session
    that has applied the newest version has connected with the newest information. */
module WifiDeviceObject {
  datatype Info = Info(ipaddr: seq<string>, serviceName: string, interfaceIndex: nat)

  class WifiDevice {
    var ipaddr: seq<string>
    var serviceName: string
    var interfaceIndex: nat
    var discoveryVersion: nat
    ghost var history: seq<Info>  // one entry a version, from version 1 on

    ghost predicate Valid()
      reads this
    {
      && 1 <= discoveryVersion == |history|
      && history[discoveryVersion - 1] == Info(ipaddr, serviceName, interfaceIndex)
      && forall v :: 1 <= v < discoveryVersion ==> history[v - 1] != history[v]
    }

    constructor (ipaddr: seq<string>, serviceName: string, interfaceIndex: nat)
      ensures Valid() && discoveryVersion == 1 && history == [Info(ipaddr, serviceName, interfaceIndex)]
    {
      this.ipaddr, this.serviceName, this.interfaceIndex := ipaddr, serviceName, interfaceIndex;
      discoveryVersion := 1;
      history := [Info(ipaddr, serviceName, interfaceIndex)];
    }

    method SnapshotDiscoveryInfo() returns (info: Info, version: nat)
      requires Valid()
      ensures 1 <= version == discoveryVersion && info == history[version - 1]
    {
      info := Info(ipaddr, serviceName, interfaceIndex);
      version := discoveryVersion;
    }

    /** The section under the session lock; what it returns is announced to the session. */
    method UpdateDiscoveryInfo(ipaddr: seq<string>, serviceName: string, interfaceIndex: nat)
      returns (newVersion: nat, changed: bool)
      requires Valid()
      modifies this
      ensures Valid() && newVersion == discoveryVersion
      ensures changed <==> Info(ipaddr, serviceName, interfaceIndex) != old(history)[old(discoveryVersion) - 1]
      ensures history == old(history) + if changed then [Info(ipaddr, serviceName, interfaceIndex)] else []
    {
      changed := this.ipaddr != ipaddr || this.serviceName != serviceName || this.interfaceIndex != interfaceIndex;
      this.ipaddr, this.serviceName, this.interfaceIndex := ipaddr, serviceName, interfaceIndex;
      if changed {
        discoveryVersion := discoveryVersion + 1;
        history := history + [Info(ipaddr, serviceName, interfaceIndex)];
      }
      newVersion := discoveryVersion;
    }
  }
}
