/**
 * The `model` package: endpoints, neighbours and the per-address
 * statistics record. Address.java and Neighbor.java are not part of this
 * model; Address and Neighbor below carry only what the Receiver and the
 * configuration loader read and write.
 */
module Model {
  import opened Wrappers
  import opened JavaLang

  /** A parsed host and port. */
  datatype Address = Address(host: string, port: int)

  /** What identifies a configured neighbour: its host, its Ict port and its report port once configured. */
  datatype NeighborId = NeighborId(host: string, ictPort: int32, reportPort: Option<int32>)

  /** One configured peer and what has been learned about it. */
  class Neighbor {
    const host: string
    const ictPort: int32
    var reportPort: Option<int32>
    var reportIxiVersion: Option<string>
    var uuid: Option<string>

    constructor (host: string, ictPort: int32)
      ensures this.host == host && this.ictPort == ictPort
      ensures reportPort.None? && reportIxiVersion.None? && uuid.None?
    {
      this.host := host;
      this.ictPort := ictPort;
      reportPort := None;
      reportIxiVersion := None;
      uuid := None;
    }

    function Id(): NeighborId
      reads this
    {
      NeighborId(host, ictPort, reportPort)
    }

    method SetReportPort(port: int32)
      modifies this`reportPort
      ensures reportPort == Some(port)
    {
      reportPort := Some(port);
    }

    method SetReportIxiVersion(version: Option<string>)
      modifies this`reportIxiVersion
      ensures reportIxiVersion == version
    {
      reportIxiVersion := version;
    }

    method SetUuid(uuid: Option<string>)
      modifies this`uuid
      ensures this.uuid == uuid
    {
      this.uuid := uuid;
    }
  }

  /** A `java.util.List<Neighbor>` that callers share and append to. */
  class NeighborList {
    var items: seq<Neighbor>

    constructor ()
      ensures items == []
    {
      items := [];
    }

    /** No neighbour object occurs twice in the list. */
    ghost predicate Distinct()
      reads this
    {
      forall i, j :: 0 <= i < j < |items| ==> items[i] != items[j]
    }

    /** The report port of each listed neighbour, in list order. */
    function ReportPorts(): (ports: seq<Option<int32>>)
      reads this, items
      ensures |ports| == |items|
      ensures forall k :: 0 <= k < |items| ==> ports[k] == items[k].reportPort
    {
      var ns := items;
      seq(|ns|, k requires 0 <= k < |ns| reads ns => ns[k].reportPort)
    }

    method Add(n: Neighbor)
      modifies this
      ensures items == old(items) + [n]
    {
      items := items + [n];
    }
  }

  // -----------------------------------------------------------------------
  // AddressAndStats
  // -----------------------------------------------------------------------

  /** The six fields of an AddressAndStats record; a counter that was never set is None (Java null). */
  datatype Stats = Stats(
    address: Address,
    allTx: Option<int32>,
    newTx: Option<int32>,
    ignoredTx: Option<int32>,
    invalidTx: Option<int32>,
    requestedTx: Option<int32>)

  /** An address with five nullable transaction counters. */
  class AddressAndStats {
    var address: Address
    var allTx: Option<int32>
    var newTx: Option<int32>
    var ignoredTx: Option<int32>
    var invalidTx: Option<int32>
    var requestedTx: Option<int32>

    /** The values the getters currently return. */
    function Fields(): Stats
      reads this
    {
      Stats(GetAddress(), GetAllTx(), GetNewTx(), GetIgnoredTx(), GetInvalidTx(), GetRequestedTx())
    }

    /** Stores the address; every counter starts null. */
    constructor (address: Address)
      ensures Fields() == Stats(address, None, None, None, None, None)
    {
      this.address := address;
      allTx := None;
      newTx := None;
      ignoredTx := None;
      invalidTx := None;
      requestedTx := None;
    }

    /** Stores every argument in its own field. */
    constructor WithCounters(address: Address, allTx: int32, newTx: int32, ignoredTx: int32,
                             invalidTx: int32, requestedTx: int32)
      ensures Fields() == Stats(address, Some(allTx), Some(newTx), Some(ignoredTx),
                                Some(invalidTx), Some(requestedTx))
    {
      this.address := address;
      this.allTx := Some(allTx);
      this.newTx := Some(newTx);
      this.ignoredTx := Some(ignoredTx);
      this.invalidTx := Some(invalidTx);
      this.requestedTx := Some(requestedTx);
    }

    function GetAddress(): Address reads this { address }
    function GetAllTx(): Option<int32> reads this { allTx }
    function GetNewTx(): Option<int32> reads this { newTx }
    function GetIgnoredTx(): Option<int32> reads this { ignoredTx }
    function GetInvalidTx(): Option<int32> reads this { invalidTx }
    function GetRequestedTx(): Option<int32> reads this { requestedTx }

    method SetAddress(address: Address)
      modifies this
      ensures GetAddress() == address
      ensures Fields() == old(Fields()).(address := address)
    {
      this.address := address;
    }

    method SetAllTx(allTx: Option<int32>)
      modifies this
      ensures GetAllTx() == allTx
      ensures Fields() == old(Fields()).(allTx := allTx)
    {
      this.allTx := allTx;
    }

    method SetNewTx(newTx: Option<int32>)
      modifies this
      ensures GetNewTx() == newTx
      ensures Fields() == old(Fields()).(newTx := newTx)
    {
      this.newTx := newTx;
    }

    method SetIgnoredTx(ignoredTx: Option<int32>)
      modifies this
      ensures GetIgnoredTx() == ignoredTx
      ensures Fields() == old(Fields()).(ignoredTx := ignoredTx)
    {
      this.ignoredTx := ignoredTx;
    }

    method SetInvalidTx(invalidTx: Option<int32>)
      modifies this
      ensures GetInvalidTx() == invalidTx
      ensures Fields() == old(Fields()).(invalidTx := invalidTx)
    {
      this.invalidTx := invalidTx;
    }

    method SetRequestedTx(requestedTx: Option<int32>)
      modifies this
      ensures GetRequestedTx() == requestedTx
      ensures Fields() == old(Fields()).(requestedTx := requestedTx)
    {
      this.requestedTx := requestedTx;
    }
  }
}
