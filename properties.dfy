/**
 * The `utils` package: the settings object of Report.ixi and the two
 * loaders that fill it from the host node's configuration and from
 * `report.ixi.cfg`. The parsed property files arrive as values: the
 * report properties as a key-to-text map, the host node's properties as
 * an `IctProperties` record.
 */
module Utils {
  import opened Wrappers
  import opened JavaLang
  import opened Model

  const NAME_KEY := "name"
  const REPORT_PORT_KEY := "reportPort"
  /** One key per configurable neighbour report port; there are exactly three. */
  const NEIGHBOR_REPORT_PORT_KEYS: seq<string> := ["neighborReportPortA", "neighborReportPortB", "neighborReportPortC"]
  /** The text used for a port property that is absent. */
  const DEFAULT_PORT_TEXT := "1338"
  const NAMING_CONVENTION := "Please follow the naming convention: \"<name> (ict-<number>)\""
  const FORMAT_NOTICE := "-property in report.ixi.cfg incorrectly formatted."

  /** What the getters of a Properties object return. */
  datatype Settings = Settings(
    name: Option<string>,
    uuid: Option<string>,
    host: Option<string>,
    reportPort: int32,
    ictPort: int32)

  /** The exceptions the report loader lets escape. */
  datatype LoadError =
    | InvalidPropertiesFormat(message: string)
    | IndexOutOfBounds(index: int)

  /** An `InetSocketAddress` of the host node's neighbour list. */
  datatype SocketAddress = SocketAddress(host: string, port: int32)

  /** The fields of the host node's properties that the loader reads. */
  datatype IctProperties = IctProperties(host: Option<string>, port: int32, neighbors: seq<SocketAddress>)

  /** `java.util.Properties.getProperty(key, default)`. */
  function GetProperty(props: map<string, string>, key: string, default: string): (v: string)
    ensures key in props ==> v == props[key]
    ensures key !in props ==> v == default
  {
    if key in props then props[key] else default
  }

  /**
   * The message of the InvalidPropertiesFormatException raised for
   * `property`: the property name, a fixed notice, then the extra message
   * (nothing when there is none).
   */
  function InvalidFormatMessage(property: string, extra: Option<string>): (m: string)
    ensures |m| == |property| + |FORMAT_NOTICE| + (if extra.Some? then |extra.value| else 0)
    ensures m[..|property|] == property
    ensures m[|property|..|property| + |FORMAT_NOTICE|] == FORMAT_NOTICE
    ensures m[|property| + |FORMAT_NOTICE|..] == if extra.Some? then extra.value else ""
  {
    property + FORMAT_NOTICE + (if extra.Some? then extra.value else "")
  }

  // -----------------------------------------------------------------------
  // The naming convention  .+\s\(ict-\d+\)
  // -----------------------------------------------------------------------

  /**
   * `t` matches `.+\s\(ict-\d+\)` as a whole, with the `\s` at index `i`:
   * one or more chars that are not line terminators, a whitespace char,
   * `(ict-`, one or more digits, `)`.
   */
  ghost predicate NamePatternAt(t: string, i: int) {
    1 <= i && i + 7 < |t|
    && (forall k :: 0 <= k < i ==> !IsLineTerminator(t[k]))
    && IsRegexWhitespace(t[i])
    && t[i + 1..i + 6] == "(ict-"
    && AllDigits(t[i + 6..|t| - 1])
    && t[|t| - 1] == ')'
  }

  ghost predicate MatchesNamePattern(t: string) {
    exists i :: NamePatternAt(t, i)
  }

  /** Number of digits at the back of `u`. */
  function DigitSuffix(u: string): (n: nat)
    ensures n <= |u|
    ensures AllDigits(u[|u| - n..])
    ensures n < |u| ==> !IsDigit(u[|u| - 1 - n])
  {
    if u == [] || !IsDigit(u[|u| - 1]) then 0
    else
      var init := u[..|u| - 1];
      var n := 1 + DigitSuffix(init);
      assert u[|u| - n..] == init[|init| - (n - 1)..] + [u[|u| - 1]];
      n
  }

  /** `t.matches(".+\\s\\(ict-\\d+\\)")`, decided right to left. */
  predicate NameMatches(t: string): (b: bool)
    ensures b ==> |t| >= 9 && t[|t| - 1] == ')' && !IsLineTerminator(t[0])
  {
    |t| >= 9 && t[|t| - 1] == ')' &&
    var d := DigitSuffix(t[..|t| - 1]);
    var i := |t| - 7 - d;
    d >= 1 && i >= 1
    && t[i + 1..i + 6] == "(ict-"
    && IsRegexWhitespace(t[i])
    && forall k :: 0 <= k < i ==> !IsLineTerminator(t[k])
  }

  /** When the digits at the back of `u` start at `m`, preceded by a non-digit, `DigitSuffix` finds exactly them. */
  lemma DigitSuffixExact(u: string, m: nat)
    requires m <= |u| && AllDigits(u[m..])
    requires m > 0 ==> !IsDigit(u[m - 1])
    ensures DigitSuffix(u) == |u| - m
  {
  }

  /** A match of the pattern is found by the right-to-left decision. */
  lemma PatternImpliesNameMatches(t: string, i: int)
    requires NamePatternAt(t, i)
    ensures NameMatches(t)
  {
    var u := t[..|t| - 1];
    assert u[i + 6..] == t[i + 6..|t| - 1];
    assert u[i + 5] == t[i + 1..i + 6][4];
    DigitSuffixExact(u, i + 6);
  }

  /** The right-to-left decision agrees with the pattern, in both directions. */
  lemma NameMatchesPattern(t: string)
    ensures NameMatches(t) <==> MatchesNamePattern(t)
  {
    if NameMatches(t) {
      var d := DigitSuffix(t[..|t| - 1]);
      var i := |t| - 7 - d;
      assert t[i + 6..|t| - 1] == t[..|t| - 1][|t| - 1 - d..];
      assert NamePatternAt(t, i);
    }
    if MatchesNamePattern(t) {
      var i :| NamePatternAt(t, i);
      PatternImpliesNameMatches(t, i);
    }
  }

  // -----------------------------------------------------------------------
  // loadFromReportProperties as a function of its inputs
  // -----------------------------------------------------------------------

  /** `Integer.parseInt(text)` followed by the rejection of values `<= 0`. */
  function PositivePort(text: string): (r: Option<int32>)
    ensures r.Some? ==> r.value > 0
  {
    match ParseInt(text)
    case Some(p) => if p <= 0 then None else Some(p)
    case None => None
  }

  /** The validated report port of the neighbour at index `i`, or the exception its lookup raises. */
  function NeighborPort(props: map<string, string>, i: nat): (r: Result<int32, LoadError>)
    ensures i >= |NEIGHBOR_REPORT_PORT_KEYS| ==> r == Failure(IndexOutOfBounds(i))
    ensures r.Success? ==>
              r.value > 0 && PositivePort(GetProperty(props, NEIGHBOR_REPORT_PORT_KEYS[i], DEFAULT_PORT_TEXT)) == Some(r.value)
    ensures r.Failure? && i < |NEIGHBOR_REPORT_PORT_KEYS| ==>
            r.error == InvalidPropertiesFormat(InvalidFormatMessage(NEIGHBOR_REPORT_PORT_KEYS[i], None))
  {
    if i >= |NEIGHBOR_REPORT_PORT_KEYS| then Failure(IndexOutOfBounds(i))
    else
      var key := NEIGHBOR_REPORT_PORT_KEYS[i];
      match PositivePort(GetProperty(props, key, DEFAULT_PORT_TEXT))
      case Some(p) => Success(p)
      case None => Failure(InvalidPropertiesFormat(InvalidFormatMessage(key, None)))
  }

  /** The neighbour loop from index `i` on: each port is written as soon as it is validated. */
  function ApplyNeighborPorts(props: map<string, string>, ports: seq<Option<int32>>, i: nat)
    : (r: (seq<Option<int32>>, Option<LoadError>))
    ensures |r.0| == |ports|
    ensures forall k :: 0 <= k < |ports| && k < i ==> r.0[k] == ports[k]
    decreases |ports| - i
  {
    if i >= |ports| then (ports, None)
    else
      match NeighborPort(props, i)
      case Failure(e) => (ports, Some(e))
      case Success(p) => ApplyNeighborPorts(props, ports[i := Some(p)], i + 1)
  }

  /** The first index in `from..n` whose port lookup fails, or `n` when none does. */
  function FirstFailingNeighbor(props: map<string, string>, n: nat, from: nat): (f: nat)
    requires from <= n
    ensures from <= f <= n
    ensures forall k :: from <= k < f ==> NeighborPort(props, k).Success?
    ensures f < n ==> NeighborPort(props, f).Failure?
    decreases n - from
  {
    if from == n || NeighborPort(props, from).Failure? then from
    else FirstFailingNeighbor(props, n, from + 1)
  }

  /** The outcome of `loadFromReportProperties`: the settings and neighbour ports it leaves, and what it throws. */
  datatype LoadOutcome = LoadOutcome(settings: Settings, ports: seq<Option<int32>>, error: Option<LoadError>)

  function LoadReport(props: map<string, string>, s: Settings, ports: seq<Option<int32>>): (r: LoadOutcome)
    ensures r.error.None? ==> r.settings.name.Some? && r.settings.reportPort > 0
  {
    var name := Trim(GetProperty(props, NAME_KEY, ""));
    if !NameMatches(name) then
      LoadOutcome(s, ports, Some(InvalidPropertiesFormat(InvalidFormatMessage(NAME_KEY, Some(NAMING_CONVENTION)))))
    else
      var named := s.(name := Some(name));
      match PositivePort(GetProperty(props, REPORT_PORT_KEY, DEFAULT_PORT_TEXT))
      case None =>
        LoadOutcome(named, ports, Some(InvalidPropertiesFormat(InvalidFormatMessage(REPORT_PORT_KEY, None))))
      case Some(p) =>
        var applied := ApplyNeighborPorts(props, ports, 0);
        LoadOutcome(named.(reportPort := p), applied.0, applied.1)
  }

  /**
   * The neighbour loop writes exactly the ports before the first failing
   * index, leaves the rest alone, and throws that index's exception.
   */
  lemma {:induction false} ApplyNeighborPortsSpec(props: map<string, string>, ports: seq<Option<int32>>, i: nat)
    requires i <= |ports|
    ensures var f := FirstFailingNeighbor(props, |ports|, i);
            var applied := ApplyNeighborPorts(props, ports, i);
            |applied.0| == |ports|
            && (forall k :: 0 <= k < |ports| ==>
                  applied.0[k] == if i <= k < f then Some(NeighborPort(props, k).value) else ports[k])
            && applied.1 == if f < |ports| then Some(NeighborPort(props, f).error) else None
    decreases |ports| - i
  {
    if i < |ports| && NeighborPort(props, i).Success? {
      var next := ports[i := Some(NeighborPort(props, i).value)];
      ApplyNeighborPortsSpec(props, next, i + 1);
      assert FirstFailingNeighbor(props, |ports|, i) == FirstFailingNeighbor(props, |next|, i + 1);
    }
  }

  /**
   * The loader writes only the name, the report port and the neighbours'
   * report ports: uuid, host and ict port keep their values, the neighbour
   * list keeps its length, and a load that completes has set the name.
   */
  lemma LoadWritesOnlyItsFields(props: map<string, string>, s: Settings, ports: seq<Option<int32>>)
    ensures var r := LoadReport(props, s, ports);
            |r.ports| == |ports|
            && r.settings.uuid == s.uuid && r.settings.host == s.host && r.settings.ictPort == s.ictPort
            && (r.error.None? ==> r.settings.name.Some?)
  {
    var name := Trim(GetProperty(props, NAME_KEY, ""));
    if NameMatches(name) {
      var port := PositivePort(GetProperty(props, REPORT_PORT_KEY, DEFAULT_PORT_TEXT));
      if port.Some? {
        assert |ApplyNeighborPorts(props, ports, 0).0| == |ports|;
      }
    }
  }

  /** The name is accepted iff its trimmed form matches the convention; a rejected name changes nothing. */
  lemma LoadNameRule(props: map<string, string>, s: Settings, ports: seq<Option<int32>>)
    ensures var name := Trim(GetProperty(props, NAME_KEY, ""));
            var out := LoadReport(props, s, ports);
            (MatchesNamePattern(name) ==> out.settings.name == Some(name))
            && (!MatchesNamePattern(name) ==>
                  out == LoadOutcome(s, ports, Some(InvalidPropertiesFormat(InvalidFormatMessage(NAME_KEY, Some(NAMING_CONVENTION))))))
  {
    NameMatchesPattern(Trim(GetProperty(props, NAME_KEY, "")));
  }

  /**
   * Once the name is accepted, the report port is the parsed positive
   * value, or the loader throws for `reportPort` leaving the port and the
   * neighbours as they were but the name already set.
   */
  lemma LoadReportPortRule(props: map<string, string>, s: Settings, ports: seq<Option<int32>>)
    requires MatchesNamePattern(Trim(GetProperty(props, NAME_KEY, "")))
    ensures var name := Trim(GetProperty(props, NAME_KEY, ""));
            var parsed := PositivePort(GetProperty(props, REPORT_PORT_KEY, DEFAULT_PORT_TEXT));
            var out := LoadReport(props, s, ports);
            (parsed.Some? ==> out.settings == s.(name := Some(name), reportPort := parsed.value))
            && (parsed.None? ==>
                  out == LoadOutcome(s.(name := Some(name)), ports,
                                     Some(InvalidPropertiesFormat(InvalidFormatMessage(REPORT_PORT_KEY, None)))))
  {
    NameMatchesPattern(Trim(GetProperty(props, NAME_KEY, "")));
  }

  /** A positive port is accepted however large it is: there is no upper bound. */
  lemma PositivePortAccepts(p: int32)
    requires p > 0
    ensures PositivePort(IntToString(p)) == Some(p)
  {
    ParseIntToString(p);
  }

  /**
   * A port text of an optional sign and one or more digits is accepted
   * exactly when its signed value is positive and fits in an `int`, so
   * `+1338` and `01338` are accepted as 1338.
   */
  lemma PositivePortSignedDigits(sign: string, digits: string)
    requires sign == "" || sign == "+" || sign == "-"
    requires |digits| > 0 && AllDigits(digits)
    ensures var v := if sign == "-" then -(DigitsValue(digits) as int) else DigitsValue(digits) as int;
            PositivePort(sign + digits) == if 0 < v < 0x8000_0000 then Some(v as int32) else None
  {
    ParseIntSignedDigits(sign, digits);
  }

  /** A leading `+` does not make a port invalid. */
  lemma PlusSignAccepted()
    ensures PositivePort("+1338") == Some(1338)
  {
    DefaultPortDigits();
    PositivePortSignedDigits("+", DEFAULT_PORT_TEXT);
    assert "+" + DEFAULT_PORT_TEXT == "+1338";
  }

  /** Leading zeros do not make a port invalid. */
  lemma LeadingZerosAccepted()
    ensures PositivePort("01338") == Some(1338)
  {
    DefaultPortDigits();
    DigitsValueLeadingZero(DEFAULT_PORT_TEXT);
    PositivePortSignedDigits("", "0" + DEFAULT_PORT_TEXT);
    assert "" + ("0" + DEFAULT_PORT_TEXT) == "01338";
  }

  /** A negative port is rejected. */
  lemma NegativePortRejected()
    ensures PositivePort("-1338") == None
  {
    DefaultPortDigits();
    PositivePortSignedDigits("-", DEFAULT_PORT_TEXT);
    assert "-" + DEFAULT_PORT_TEXT == "-1338";
  }

  /** The default port text is a digit string worth 1338. */
  lemma DefaultPortDigits()
    ensures AllDigits(DEFAULT_PORT_TEXT) && DigitsValue(DEFAULT_PORT_TEXT) == 1338
  {
    assert IntToString(1338) == DEFAULT_PORT_TEXT;
    NatDigitsValue(1338);
  }

  /** An absent port property reads as 1338, which is accepted. */
  lemma DefaultPortAccepted()
    ensures PositivePort(DEFAULT_PORT_TEXT) == Some(1338)
  {
    assert IntToString(1338) == DEFAULT_PORT_TEXT;
    PositivePortAccepts(1338);
  }

  /**
   * Once name and report port are accepted, neighbours before the first
   * failing index carry their new ports, the others keep theirs, and the
   * loader throws that index's exception (or nothing when none fails).
   */
  lemma LoadNeighborPortsRule(props: map<string, string>, s: Settings, ports: seq<Option<int32>>)
    requires MatchesNamePattern(Trim(GetProperty(props, NAME_KEY, "")))
    requires PositivePort(GetProperty(props, REPORT_PORT_KEY, DEFAULT_PORT_TEXT)).Some?
    ensures var f := FirstFailingNeighbor(props, |ports|, 0);
            var out := LoadReport(props, s, ports);
            |out.ports| == |ports|
            && (forall k :: 0 <= k < f ==> out.ports[k] == Some(NeighborPort(props, k).value))
            && (forall k :: f <= k < |ports| ==> out.ports[k] == ports[k])
            && out.error == if f < |ports| then Some(NeighborPort(props, f).error) else None
  {
    NameMatchesPattern(Trim(GetProperty(props, NAME_KEY, "")));
    ApplyNeighborPortsSpec(props, ports, 0);
  }

  /**
   * The loader completes normally iff the name, the report port and every
   * neighbour port are valid and there are at most three neighbours.
   */
  lemma LoadCompletesRule(props: map<string, string>, s: Settings, ports: seq<Option<int32>>)
    ensures LoadReport(props, s, ports).error.None? <==>
              MatchesNamePattern(Trim(GetProperty(props, NAME_KEY, "")))
              && PositivePort(GetProperty(props, REPORT_PORT_KEY, DEFAULT_PORT_TEXT)).Some?
              && |ports| <= |NEIGHBOR_REPORT_PORT_KEYS|
              && forall k :: 0 <= k < |ports| ==> NeighborPort(props, k).Success?
  {
    var name := Trim(GetProperty(props, NAME_KEY, ""));
    NameMatchesPattern(name);
    var port := PositivePort(GetProperty(props, REPORT_PORT_KEY, DEFAULT_PORT_TEXT));
    if NameMatches(name) && port.Some? {
      ApplyNeighborPortsSpec(props, ports, 0);
      var f := FirstFailingNeighbor(props, |ports|, 0);
      assert LoadReport(props, s, ports).error == ApplyNeighborPorts(props, ports, 0).1;
      if |ports| > |NEIGHBOR_REPORT_PORT_KEYS| {
        assert NeighborPort(props, 3).Failure?;
        assert f <= 3;
      }
    }
  }

  /** `n` was just created for the host node's neighbour `a`: nothing is configured or learned yet. */
  ghost predicate IsNewNeighbor(n: Neighbor, a: SocketAddress)
    reads n
  {
    n.host == a.host && n.ictPort == a.port
    && n.reportPort.None? && n.reportIxiVersion.None? && n.uuid.None?
  }

  /** The settings object of the module. */
  class Properties {
    var name: Option<string>
    var uuid: Option<string>
    var host: Option<string>
    var reportPort: int32
    var ictPort: int32

    /** The values the getters currently return. */
    function Current(): Settings
      reads this
    {
      Settings(GetName(), GetUuid(), GetHost(), GetReportPort(), GetIctPort())
    }

    /** No name or uuid yet; host "localhost", report port 1338, Ict port 1337. */
    constructor ()
      ensures Current() == Settings(None, None, Some("localhost"), 1338, 1337)
    {
      name := None;
      uuid := None;
      host := Some("localhost");
      reportPort := 1338;
      ictPort := 1337;
    }

    function GetIctPort(): int32 reads this { ictPort }
    function GetReportPort(): int32 reads this { reportPort }
    function GetHost(): Option<string> reads this { host }
    function GetUuid(): Option<string> reads this { uuid }
    function GetName(): Option<string> reads this { name }

    method SetIctPort(ictPort: int32)
      modifies this
      ensures GetIctPort() == ictPort
      ensures Current() == old(Current()).(ictPort := ictPort)
    {
      this.ictPort := ictPort;
    }

    method SetReportPort(reportPort: int32)
      modifies this
      ensures GetReportPort() == reportPort
      ensures Current() == old(Current()).(reportPort := reportPort)
    {
      this.reportPort := reportPort;
    }

    method SetHost(host: Option<string>)
      modifies this
      ensures GetHost() == host
      ensures Current() == old(Current()).(host := host)
    {
      this.host := host;
    }

    method SetUuid(uuid: Option<string>)
      modifies this
      ensures GetUuid() == uuid
      ensures Current() == old(Current()).(uuid := uuid)
    {
      this.uuid := uuid;
    }

    method SetName(name: Option<string>)
      modifies this
      ensures GetName() == name
      ensures Current() == old(Current()).(name := name)
    {
      this.name := name;
    }

    /**
     * Copies the host node's host and port, and appends one new neighbour
     * per neighbour of the host node, in order, after the entries already
     * in the list.
     */
    method LoadFromIctProperties(ictProperties: IctProperties, neighbors: NeighborList)
      modifies this, neighbors
      ensures Current() == old(Current()).(host := ictProperties.host, ictPort := ictProperties.port)
      ensures |neighbors.items| == |old(neighbors.items)| + |ictProperties.neighbors|
      ensures neighbors.items[..|old(neighbors.items)|] == old(neighbors.items)
      ensures forall j :: |old(neighbors.items)| <= j < |neighbors.items| ==>
                fresh(neighbors.items[j])
                && IsNewNeighbor(neighbors.items[j], ictProperties.neighbors[j - |old(neighbors.items)|])
      ensures old(neighbors.Distinct()) ==> neighbors.Distinct()
    {
      SetHost(ictProperties.host);
      SetIctPort(ictProperties.port);
      var start := |neighbors.items|;
      assert start == |old(neighbors.items)|;
      for k := 0 to |ictProperties.neighbors|
        invariant Current() == old(Current()).(host := ictProperties.host, ictPort := ictProperties.port)
        invariant |neighbors.items| == start + k
        invariant neighbors.items[..start] == old(neighbors.items)
        invariant forall j :: start <= j < |neighbors.items| ==>
                    fresh(neighbors.items[j]) && IsNewNeighbor(neighbors.items[j], ictProperties.neighbors[j - start])
        invariant old(neighbors.Distinct()) ==> neighbors.Distinct()
      {
        var address := ictProperties.neighbors[k];
        var n := new Neighbor(address.host, address.port);
        neighbors.Add(n);
      }
    }

    /**
     * Validates `report.ixi.cfg` and writes each value as soon as it is
     * validated: the trimmed name, the report port, then the report port of
     * each listed neighbour. The first invalid value throws, leaving what
     * was written before it.
     */
    method LoadFromReportProperties(reportProperties: map<string, string>, neighbors: NeighborList)
      returns (error: Option<LoadError>)
      requires neighbors.Distinct()
      modifies this, neighbors.items`reportPort
      ensures LoadOutcome(Current(), neighbors.ReportPorts(), error)
              == LoadReport(reportProperties, old(Current()), old(neighbors.ReportPorts()))
      ensures forall k :: 0 <= k < |neighbors.items| ==>
                neighbors.items[k].reportIxiVersion == old(neighbors.items[k].reportIxiVersion)
                && neighbors.items[k].uuid == old(neighbors.items[k].uuid)
    {
      ghost var ports := neighbors.ReportPorts();
      ghost var outcome := LoadReport(reportProperties, Current(), ports);
      var name := Trim(GetProperty(reportProperties, NAME_KEY, ""));
      if !NameMatches(name) {
        return Some(InvalidPropertiesFormat(InvalidFormatMessage(NAME_KEY, Some(NAMING_CONVENTION))));
      }
      SetName(Some(name));
      assert neighbors.ReportPorts() == ports;

      var portText := GetProperty(reportProperties, REPORT_PORT_KEY, DEFAULT_PORT_TEXT);
      var reportPort := ParseInt(portText);
      if reportPort.None? || reportPort.value <= 0 {
        assert PositivePort(portText).None?;
        return Some(InvalidPropertiesFormat(InvalidFormatMessage(REPORT_PORT_KEY, None)));
      }
      assert PositivePort(portText) == reportPort;
      SetReportPort(reportPort.value);
      assert neighbors.ReportPorts() == ports;
      assert Current() == outcome.settings;

      error := LoadNeighborReportPorts(reportProperties, neighbors);
    }

    /** The neighbour loop of `loadFromReportProperties`: validates and writes each neighbour's report port in list order. */
    method LoadNeighborReportPorts(reportProperties: map<string, string>, neighbors: NeighborList)
      returns (error: Option<LoadError>)
      requires neighbors.Distinct()
      modifies neighbors.items`reportPort
      ensures (neighbors.ReportPorts(), error) == ApplyNeighborPorts(reportProperties, old(neighbors.ReportPorts()), 0)
      ensures forall k :: 0 <= k < |neighbors.items| ==>
                neighbors.items[k].reportIxiVersion == old(neighbors.items[k].reportIxiVersion)
                && neighbors.items[k].uuid == old(neighbors.items[k].uuid)
    {
      var items := neighbors.items;
      ghost var before := old(neighbors.ReportPorts());
      var i := 0;
      while i < |items|
        invariant 0 <= i <= |items|
        invariant ApplyNeighborPorts(reportProperties, neighbors.ReportPorts(), i)
                  == ApplyNeighborPorts(reportProperties, before, 0)
      {
        ghost var ports := neighbors.ReportPorts();
        if i >= |NEIGHBOR_REPORT_PORT_KEYS| {
          assert ApplyNeighborPorts(reportProperties, ports, i) == (ports, Some(IndexOutOfBounds(i)));
          return Some(IndexOutOfBounds(i));
        }
        var key := NEIGHBOR_REPORT_PORT_KEYS[i];
        var portText := GetProperty(reportProperties, key, DEFAULT_PORT_TEXT);
        var neighborPort := ParseInt(portText);
        if neighborPort.None? || neighborPort.value <= 0 {
          assert PositivePort(portText).None?;
          assert ApplyNeighborPorts(reportProperties, ports, i)
                 == (ports, Some(InvalidPropertiesFormat(InvalidFormatMessage(key, None))));
          return Some(InvalidPropertiesFormat(InvalidFormatMessage(key, None)));
        }
        assert NeighborPort(reportProperties, i) == Success(neighborPort.value);
        items[i].SetReportPort(neighborPort.value);
        assert neighbors.ReportPorts() == ports[i := Some(neighborPort.value)];
        i := i + 1;
      }
      return None;
    }
  }
}
