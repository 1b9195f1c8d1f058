/**
 * The `api` package's Receiver: it attributes each received datagram to a
 * configured neighbour or to RCS, decodes it and dispatches on the payload
 * kind. The socket, `Address.parse`, `Neighbor.isNeighborReportAddress`
 * and `Payload.deserialize` are not part of this model; the last three are
 * the uninterpreted functions of an `Env`. What the Receiver makes happen
 * outside itself (persisting the uuid, waking the uuid waiter, sending to
 * RCS, its warning and info log lines) is recorded as `Event`s.
 */
module Api {
  import opened Wrappers
  import opened JavaLang
  import opened Model
  import opened Exchange

  /** A received datagram: the sender's IP text and port, and the bytes read as text. */
  datatype Datagram = Datagram(sourceIp: string, sourcePort: int, data: string)

  /** `neighbor.isNeighborReportAddress(address, strict)`, for the neighbour with that identity. */
  type Matcher = (NeighborId, Address, bool) -> bool

  /** The constants and collaborators the Receiver depends on. */
  datatype Env = Env(
    rcsHost: string,                        // RCS_HOST
    rcsPort: int,                           // RCS_PORT
    rcsIp: Option<string>,                  // RCS_HOST resolved; None when it does not resolve
    parse: (string, int) -> Address,        // Address.parse of the sender's socket address
    isNeighborReportAddress: Matcher,
    deserialize: string -> Option<Payload>) // None: deserialize throws

  /** What the Receiver does that is visible outside it. */
  datatype Event =
    | Stored(uuid: string)                              // the local metadata is persisted with this uuid
    | WaiterNotified                                    // waitingForUuid.notify()
    | Sent(payload: ReceivedPingPayload, host: string, port: int)
    | UnknownSender(ip: string)                         // warning: packet from an unknown address
    | InvalidPayloadFromNeighbor(neighbor: NeighborId)  // "Received invalid payload from Neighbor[...]"
    | InvalidPayloadFromRcs                             // "Received invalid payload from RCS"
    | VersionLearned(neighbor: NeighborId, version: Option<string>)
    | NeighborUuidLearned(neighbor: NeighborId)
    | NewUuidReceived                                   // "Received new uuid from RCS"
    | UuidValidated                                     // "Current uuid was successfully validated by RCS"
    | IoErrorReported                                   // the stack trace of a failed receive

  /** What the Receiver reads and writes of one configured neighbour. */
  datatype NeighborView = NeighborView(id: NeighborId, reportIxiVersion: Option<string>, uuid: Option<string>)

  /** The Receiver's abstract state. */
  datatype State = State(
    neighbors: seq<NeighborView>,
    localUuid: Option<string>,   // the uuid of the local metadata
    receiving: bool,
    events: seq<Event>)

  /** The exceptions dispatch can raise (they are all caught by processPacket). */
  datatype Failure =
    | UndecodablePayload   // Payload.deserialize threw
    | NoNeighbor           // a metadata payload without an attributed neighbour: null dereference
    | NoUuid               // a uuid payload whose uuid is null: null dereference

  /** What one `socket.receive` call produced. */
  datatype ReceiveStep =
    | Received(packet: Datagram, shutDownMeanwhile: bool)  // shutDown() may have run while receive blocked
    | ReceiveFailed(shutDownMeanwhile: bool)  // an IOException; shutDown() may have run meanwhile

  // -----------------------------------------------------------------------
  // Attribution
  // -----------------------------------------------------------------------

  function IdsOf(ns: seq<NeighborView>): (ids: seq<NeighborId>)
    ensures |ids| == |ns|
    ensures forall k :: 0 <= k < |ns| ==> ids[k] == ns[k].id
  {
    seq(|ns|, k requires 0 <= k < |ns| => ns[k].id)
  }

  /** The index of the first neighbour, in list order, that `m` matches in the given mode. */
  function FirstMatch(ids: seq<NeighborId>, a: Address, strict: bool, m: Matcher): (r: Option<nat>)
    ensures r.Some? ==> r.value < |ids|
  {
    if ids == [] then None
    else if m(ids[0], a, strict) then Some(0)
    else
      match FirstMatch(ids[1..], a, strict, m)
      case None => None
      case Some(k) => Some(k + 1)
  }

  /** `determineNeighborWhoSent`: a strict (host and port) match first, then a host-only match. */
  function Attribute(ids: seq<NeighborId>, a: Address, m: Matcher): (r: Option<nat>)
    ensures r.Some? ==> r.value < |ids|
  {
    var strict := FirstMatch(ids, a, true, m);
    if strict.Some? then strict else FirstMatch(ids, a, false, m)
  }

  lemma {:induction false} FirstMatchIsFirst(ids: seq<NeighborId>, a: Address, strict: bool, m: Matcher)
    ensures var r := FirstMatch(ids, a, strict, m);
            (r.Some? ==> m(ids[r.value], a, strict) && forall j :: 0 <= j < r.value ==> !m(ids[j], a, strict))
            && (r.None? <==> forall j :: 0 <= j < |ids| ==> !m(ids[j], a, strict))
  {
    if ids != [] && !m(ids[0], a, strict) {
      FirstMatchIsFirst(ids[1..], a, strict, m);
      assert forall j :: 1 <= j < |ids| ==> ids[j] == ids[1..][j - 1];
    }
  }

  /**
   * When some neighbour matches strictly, attribution picks the first
   * strict match, so a neighbour that only matches by host is never chosen
   * over it, wherever it stands in the list.
   */
  lemma AttributionPrefersStrict(ids: seq<NeighborId>, a: Address, m: Matcher, k: nat)
    requires k < |ids| && m(ids[k], a, true)
    ensures var r := Attribute(ids, a, m);
            r.Some? && r.value <= k && m(ids[r.value], a, true)
            && forall j :: 0 <= j < r.value ==> !m(ids[j], a, true)
  {
    FirstMatchIsFirst(ids, a, true, m);
  }

  /** With no strict match, attribution picks the first host-only match, and none when there is none. */
  lemma AttributionFallsBackToHost(ids: seq<NeighborId>, a: Address, m: Matcher)
    requires forall j :: 0 <= j < |ids| ==> !m(ids[j], a, true)
    ensures var r := Attribute(ids, a, m);
            (r.Some? ==> m(ids[r.value], a, false) && forall j :: 0 <= j < r.value ==> !m(ids[j], a, false))
            && (r.None? <==> forall j :: 0 <= j < |ids| ==> !m(ids[j], a, false))
  {
    FirstMatchIsFirst(ids, a, true, m);
    FirstMatchIsFirst(ids, a, false, m);
  }

  /**
   * `isPacketSentFromRCS`: the sender has RCS's resolved IP and RCS's port;
   * when RCS's host does not resolve, no packet counts as sent from RCS.
   */
  function IsSentFromRcs(env: Env, p: Datagram): (r: bool)
    ensures env.rcsIp.None? ==> !r
    ensures r ==> env.rcsIp == Some(p.sourceIp) && p.sourcePort == env.rcsPort
  {
    env.rcsIp == Some(p.sourceIp) && p.sourcePort == env.rcsPort
  }

  function Attribution(env: Env, s: State, p: Datagram): (r: Option<nat>)
    ensures r.Some? ==> r.value < |s.neighbors|
  {
    Attribute(IdsOf(s.neighbors), env.parse(p.sourceIp, p.sourcePort), env.isNeighborReportAddress)
  }

  // -----------------------------------------------------------------------
  // Dispatch
  // -----------------------------------------------------------------------

  /** A learned field is written when it is null or differs from the incoming value. */
  predicate Learns(current: Option<string>, incoming: Option<string>) {
    current.None? || current != incoming
  }

  /** `processMetadataPacket`. */
  function ProcessMetadata(s: State, who: Option<nat>, md: MetadataPayload): (r: Result<State, Failure>)
    requires who.Some? ==> who.value < |s.neighbors|
  {
    if who.None? then Failure(NoNeighbor)
    else
      var i := who.value;
      var n := s.neighbors[i];
      var learnsVersion := Learns(n.reportIxiVersion, md.reportIxiVersion);
      var learnsUuid := Learns(n.uuid, md.uuid);
      var n' := n.(reportIxiVersion := if learnsVersion then md.reportIxiVersion else n.reportIxiVersion,
                   uuid := if learnsUuid then md.uuid else n.uuid);
      var logged := (if learnsVersion then [VersionLearned(n.id, md.reportIxiVersion)] else [])
                    + (if learnsUuid then [NeighborUuidLearned(n.id)] else []);
      Success(s.(neighbors := s.neighbors[i := n'], events := s.events + logged))
  }

  /** `processUuidPayload`. */
  function ProcessUuid(s: State, up: UuidPayload): (r: Result<State, Failure>) {
    match up.uuid
    case None => Failure(NoUuid)
    case Some(u) =>
      if Some(u) != s.localUuid then
        Success(s.(localUuid := Some(u), events := s.events + [Stored(u), NewUuidReceived, WaiterNotified]))
      else
        Success(s.(events := s.events + [UuidValidated, WaiterNotified]))
  }

  /** `processPingPayload`. */
  function ProcessPing(env: Env, s: State, ping: PingPayload): (r: State) {
    if s.localUuid.Some? then
      s.(events := s.events + [Sent(ReceivedPingPayload(s.localUuid, ping), env.rcsHost, env.rcsPort)])
    else s
  }

  /** `processPayload`: one case per payload kind; other kinds change nothing. */
  function ProcessPayloadSpec(env: Env, s: State, who: Option<nat>, payload: Payload): (r: Result<State, Failure>)
    requires who.Some? ==> who.value < |s.neighbors|
  {
    match payload
    case Ping(ping) => Success(ProcessPing(env, s, ping))
    case Metadata(md) => ProcessMetadata(s, who, md)
    case Uuid(up) => ProcessUuid(s, up)
    case ReceivedPing(_) => Success(s)
    case Other(_) => Success(s)
  }

  /** The log line of processPacket's catch block. */
  function InvalidPayloadEvent(s: State, who: Option<nat>): (e: Event)
    requires who.Some? ==> who.value < |s.neighbors|
  {
    if who.Some? then InvalidPayloadFromNeighbor(s.neighbors[who.value].id) else InvalidPayloadFromRcs
  }

  /** `processPacket`. */
  function ProcessPacketSpec(env: Env, s: State, p: Datagram): (r: State) {
    var who := Attribution(env, s, p);
    if who.None? && !IsSentFromRcs(env, p) then
      s.(events := s.events + [UnknownSender(p.sourceIp)])
    else
      var outcome :=
        match env.deserialize(p.data)
        case None => Failure(UndecodablePayload)
        case Some(payload) => ProcessPayloadSpec(env, s, who, payload);
      match outcome
      case Success(s') => s'
      case Failure(_) => s.(events := s.events + [InvalidPayloadEvent(s, who)])
  }

  /** One iteration of the receive loop of `run`. */
  function StepSpec(env: Env, s: State, step: ReceiveStep): (r: State) {
    match step
    case Received(p, shutDownMeanwhile) =>
      ProcessPacketSpec(env, if shutDownMeanwhile then s.(receiving := false) else s, p)
    case ReceiveFailed(shutDownMeanwhile) =>
      var s' := if shutDownMeanwhile then s.(receiving := false) else s;
      if s'.receiving then s'.(events := s'.events + [IoErrorReported]) else s'
  }

  /** The receive loop of `run`: it stops at the first check that finds the flag cleared. */
  function RunSpec(env: Env, s: State, steps: seq<ReceiveStep>): (r: State)
    decreases |steps|
  {
    if !s.receiving || steps == [] then s
    else RunSpec(env, StepSpec(env, s, steps[0]), steps[1..])
  }

  // -----------------------------------------------------------------------
  // Properties of the packet processing
  // -----------------------------------------------------------------------

  /** A packet from neither a neighbour nor RCS is dropped: only the warning is logged. */
  lemma UnknownSenderDropped(env: Env, s: State, p: Datagram)
    requires Attribution(env, s, p).None? && !IsSentFromRcs(env, p)
    ensures ProcessPacketSpec(env, s, p) == s.(events := s.events + [UnknownSender(p.sourceIp)])
  {
  }

  /**
   * A packet that cannot be decoded, or whose dispatch throws, changes
   * nothing but one log line naming the attributed neighbour, or RCS.
   */
  lemma InvalidPayloadSwallowed(env: Env, s: State, p: Datagram)
    requires Attribution(env, s, p).Some? || IsSentFromRcs(env, p)
    requires var d := env.deserialize(p.data);
             d.None? || ProcessPayloadSpec(env, s, Attribution(env, s, p), d.value).Failure?
    ensures var who := Attribution(env, s, p);
            ProcessPacketSpec(env, s, p)
            == s.(events := s.events + [if who.Some? then InvalidPayloadFromNeighbor(s.neighbors[who.value].id)
                                        else InvalidPayloadFromRcs])
  {
  }

  /**
   * After a metadata payload from neighbour i, its version and uuid are
   * the payload's; each is logged as learned exactly when it was null or
   * different; nothing else changes.
   */
  lemma MetadataLearned(env: Env, s: State, p: Datagram, md: MetadataPayload)
    requires Attribution(env, s, p).Some?
    requires env.deserialize(p.data) == Some(Metadata(md))
    ensures var i := Attribution(env, s, p).value;
            var n := s.neighbors[i];
            var s' := ProcessPacketSpec(env, s, p);
            |s'.neighbors| == |s.neighbors|
            && s'.neighbors[i] == n.(reportIxiVersion := md.reportIxiVersion, uuid := md.uuid)
            && (forall j :: 0 <= j < |s.neighbors| && j != i ==> s'.neighbors[j] == s.neighbors[j])
            && s'.localUuid == s.localUuid && s'.receiving == s.receiving
            && s'.events == s.events
                            + (if Learns(n.reportIxiVersion, md.reportIxiVersion) then [VersionLearned(n.id, md.reportIxiVersion)] else [])
                            + (if Learns(n.uuid, md.uuid) then [NeighborUuidLearned(n.id)] else [])
  {
  }

  /**
   * When the sender strictly matches some neighbour, a metadata packet
   * updates a strictly matching neighbour, and every neighbour that does
   * not match strictly (a host-only match among them) keeps its state.
   */
  lemma MetadataGoesToStrictMatch(env: Env, s: State, p: Datagram, md: MetadataPayload, k: nat)
    requires k < |s.neighbors|
    requires env.isNeighborReportAddress(s.neighbors[k].id, env.parse(p.sourceIp, p.sourcePort), true)
    requires env.deserialize(p.data) == Some(Metadata(md))
    ensures var a := env.parse(p.sourceIp, p.sourcePort);
            var s' := ProcessPacketSpec(env, s, p);
            |s'.neighbors| == |s.neighbors|
            && (forall j :: 0 <= j < |s.neighbors| && !env.isNeighborReportAddress(s.neighbors[j].id, a, true) ==>
                  s'.neighbors[j] == s.neighbors[j])
            && exists i :: 0 <= i <= k && env.isNeighborReportAddress(s.neighbors[i].id, a, true)
                           && s'.neighbors[i].reportIxiVersion == md.reportIxiVersion
                           && s'.neighbors[i].uuid == md.uuid
  {
    var ids := IdsOf(s.neighbors);
    AttributionPrefersStrict(ids, env.parse(p.sourceIp, p.sourcePort), env.isNeighborReportAddress, k);
    MetadataLearned(env, s, p, md);
  }

  /**
   * A metadata field that is not learned keeps its non-null value, which
   * already equals the payload's, and no learned line is logged for it.
   */
  lemma UnlearnedFieldKept(env: Env, s: State, p: Datagram, md: MetadataPayload)
    requires Attribution(env, s, p).Some?
    requires env.deserialize(p.data) == Some(Metadata(md))
    ensures var i := Attribution(env, s, p).value;
            var n := s.neighbors[i];
            var s' := ProcessPacketSpec(env, s, p);
            |s.events| <= |s'.events| && |s'.neighbors| == |s.neighbors|
            && (!Learns(n.reportIxiVersion, md.reportIxiVersion) ==>
                  n.reportIxiVersion.Some? && n.reportIxiVersion == md.reportIxiVersion
                  && s'.neighbors[i].reportIxiVersion == n.reportIxiVersion
                  && forall e :: e in s'.events[|s.events|..] ==> !e.VersionLearned?)
            && (!Learns(n.uuid, md.uuid) ==>
                  n.uuid.Some? && n.uuid == md.uuid
                  && s'.neighbors[i].uuid == n.uuid
                  && forall e :: e in s'.events[|s.events|..] ==> !e.NeighborUuidLearned?)
  {
    var i := Attribution(env, s, p).value;
    var n := s.neighbors[i];
    var s' := ProcessPacketSpec(env, s, p);
    MetadataLearned(env, s, p, md);
    var added := (if Learns(n.reportIxiVersion, md.reportIxiVersion) then [VersionLearned(n.id, md.reportIxiVersion)] else [])
                 + (if Learns(n.uuid, md.uuid) then [NeighborUuidLearned(n.id)] else []);
    assert s'.events[|s.events|..] == added;
  }

  /** A metadata payload from RCS (no neighbour) fails at the neighbour dereference, before any write. */
  lemma MetadataFromRcsInvalid(env: Env, s: State, p: Datagram, md: MetadataPayload)
    requires Attribution(env, s, p).None? && IsSentFromRcs(env, p)
    requires env.deserialize(p.data) == Some(Metadata(md))
    ensures ProcessPacketSpec(env, s, p) == s.(events := s.events + [InvalidPayloadFromRcs])
  {
  }

  /**
   * A uuid payload: a different uuid becomes the local uuid, is persisted
   * once and logged as new; an equal one is not persisted and is logged as
   * validated; the waiter is notified once in both cases.
   */
  lemma UuidAdopted(env: Env, s: State, p: Datagram, u: string)
    requires Attribution(env, s, p).Some? || IsSentFromRcs(env, p)
    requires env.deserialize(p.data) == Some(Uuid(UuidPayload(Some(u))))
    ensures var s' := ProcessPacketSpec(env, s, p);
            s'.neighbors == s.neighbors && s'.receiving == s.receiving
            && s'.localUuid == Some(u)
            && s'.events == s.events + (if s.localUuid != Some(u) then [Stored(u), NewUuidReceived, WaiterNotified]
                                        else [UuidValidated, WaiterNotified])
  {
  }

  /** A uuid payload without a uuid fails before the comparison, so nothing is stored and the waiter is not notified. */
  lemma NullUuidInvalid(env: Env, s: State, p: Datagram)
    requires Attribution(env, s, p).Some? || IsSentFromRcs(env, p)
    requires env.deserialize(p.data) == Some(Uuid(UuidPayload(None)))
    ensures ProcessPacketSpec(env, s, p) == s.(events := s.events + [InvalidPayloadEvent(s, Attribution(env, s, p))])
  {
  }

  /**
   * A ping is relayed to RCS as one ReceivedPingPayload carrying the local
   * uuid, whoever sent it, when the local uuid is known, and not at all
   * otherwise.
   */
  lemma PingRelayed(env: Env, s: State, p: Datagram, ping: PingPayload)
    requires Attribution(env, s, p).Some? || IsSentFromRcs(env, p)
    requires env.deserialize(p.data) == Some(Ping(ping))
    ensures ProcessPacketSpec(env, s, p)
            == if s.localUuid.Some? then
                 s.(events := s.events + [Sent(ReceivedPingPayload(s.localUuid, ping), env.rcsHost, env.rcsPort)])
               else s
  {
  }

  /** Payload kinds other than ping, metadata and uuid change nothing. */
  lemma OtherPayloadIgnored(env: Env, s: State, p: Datagram, payload: Payload)
    requires Attribution(env, s, p).Some? || IsSentFromRcs(env, p)
    requires env.deserialize(p.data) == Some(payload)
    requires !payload.Ping? && !payload.Metadata? && !payload.Uuid?
    ensures ProcessPacketSpec(env, s, p) == s
  {
  }

  /**
   * The unknown-sender warning is logged for a packet exactly when it is
   * attributed to no neighbour and is not sent from RCS.
   */
  lemma DroppedIffUnknownSender(env: Env, s: State, p: Datagram)
    ensures var s' := ProcessPacketSpec(env, s, p);
            |s.events| <= |s'.events|
            && (UnknownSender(p.sourceIp) in s'.events[|s.events|..]
                <==> Attribution(env, s, p).None? && !IsSentFromRcs(env, p))
  {
    var s' := ProcessPacketSpec(env, s, p);
    ProcessPacketKeepsIdentities(env, s, p);
    if Attribution(env, s, p).None? && !IsSentFromRcs(env, p) {
      assert s'.events[|s.events|..] == [UnknownSender(p.sourceIp)];
    }
  }

  /** Processing a packet keeps every neighbour's identity and only appends events. */
  lemma ProcessPacketKeepsIdentities(env: Env, s: State, p: Datagram)
    ensures var s' := ProcessPacketSpec(env, s, p);
            IdsOf(s'.neighbors) == IdsOf(s.neighbors) && s'.receiving == s.receiving
            && s.events <= s'.events
  {
    var who := Attribution(env, s, p);
    var s' := ProcessPacketSpec(env, s, p);
    if who.Some? && env.deserialize(p.data).Some? && env.deserialize(p.data).value.Metadata? {
      assert IdsOf(s'.neighbors) == IdsOf(s.neighbors);
    }
  }

  /** The receive loop never changes a neighbour's identity and never loses an event. */
  lemma {:induction false} RunKeepsIdentities(env: Env, s: State, steps: seq<ReceiveStep>)
    ensures var s' := RunSpec(env, s, steps);
            IdsOf(s'.neighbors) == IdsOf(s.neighbors) && s.events <= s'.events
    decreases |steps|
  {
    if s.receiving && steps != [] {
      var next := StepSpec(env, s, steps[0]);
      if steps[0].Received? {
        ProcessPacketKeepsIdentities(env, if steps[0].shutDownMeanwhile then s.(receiving := false) else s, steps[0].packet);
      }
      RunKeepsIdentities(env, next, steps[1..]);
    }
  }

  /** Once the flag is cleared, the loop processes nothing more. */
  lemma StoppedLoopIsIdle(env: Env, s: State, steps: seq<ReceiveStep>)
    requires !s.receiving
    ensures RunSpec(env, s, steps) == s
  {
  }

  /** An IOException after shutDown is not reported, and the loop exits at the next check. */
  lemma IoErrorAfterShutDownSilent(env: Env, s: State, rest: seq<ReceiveStep>)
    requires s.receiving
    ensures RunSpec(env, s, [ReceiveFailed(true)] + rest) == s.(receiving := false)
  {
    assert ([ReceiveFailed(true)] + rest)[1..] == rest;
  }

  /**
   * A shutDown while receive blocks does not stop the packet that arrives:
   * it is processed in full, and the loop exits at the next check.
   */
  lemma PacketAfterShutDownProcessedThenStops(env: Env, s: State, p: Datagram, rest: seq<ReceiveStep>)
    requires s.receiving
    ensures RunSpec(env, s, [Received(p, true)] + rest) == ProcessPacketSpec(env, s.(receiving := false), p)
  {
    ProcessPacketKeepsIdentities(env, s.(receiving := false), p);
    assert ([Received(p, true)] + rest)[1..] == rest;
  }

  /** An IOException while receiving is reported and the loop goes on. */
  lemma IoErrorWhileReceivingReported(env: Env, s: State, rest: seq<ReceiveStep>)
    requires s.receiving
    ensures RunSpec(env, s, [ReceiveFailed(false)] + rest)
            == RunSpec(env, s.(events := s.events + [IoErrorReported]), rest)
  {
    assert ([ReceiveFailed(false)] + rest)[1..] == rest;
  }

  // -----------------------------------------------------------------------
  // The Receiver object
  // -----------------------------------------------------------------------

  function ViewOf(n: Neighbor): NeighborView
    reads n
  {
    NeighborView(n.Id(), n.reportIxiVersion, n.uuid)
  }

  class Receiver {
    const env: Env
    /** reportIxi.getNeighbors(). */
    const neighbors: seq<Neighbor>
    /** The uuid of reportIxi.getMetadata(). */
    var localUuid: Option<string>
    var isReceiving: bool
    var events: seq<Event>

    /** The neighbour list holds distinct objects, so updating one neighbour touches one entry. */
    ghost predicate Valid() {
      forall i, j :: 0 <= i < j < |neighbors| ==> neighbors[i] != neighbors[j]
    }

    function NeighborViews(): (vs: seq<NeighborView>)
      reads neighbors
      ensures |vs| == |neighbors|
      ensures forall k :: 0 <= k < |neighbors| ==> vs[k] == ViewOf(neighbors[k])
    {
      seq(|neighbors|, k requires 0 <= k < |neighbors| reads neighbors => ViewOf(neighbors[k]))
    }

    function View(): State
      reads this, neighbors
    {
      State(NeighborViews(), localUuid, isReceiving, events)
    }

    /** `who` is the index in the list of `neighbor`, or None when it is null. */
    ghost predicate Designates(who: Option<nat>, neighbor: Neighbor?) {
      (who.None? <==> neighbor == null)
      && (who.Some? ==> who.value < |neighbors| && neighbors[who.value] == neighbor)
    }

    constructor (env: Env, neighbors: seq<Neighbor>, localUuid: Option<string>)
      requires forall i, j :: 0 <= i < j < |neighbors| ==> neighbors[i] != neighbors[j]
      ensures Valid()
      ensures this.env == env && this.neighbors == neighbors
      ensures this.localUuid == localUuid && !isReceiving && events == []
    {
      this.env := env;
      this.neighbors := neighbors;
      this.localUuid := localUuid;
      isReceiving := false;
      events := [];
    }

    /** Processes received datagrams until the flag is found cleared (or the steps run out). */
    method Run(steps: seq<ReceiveStep>)
      requires Valid()
      modifies this, neighbors
      ensures View() == RunSpec(env, old(View()).(receiving := true), steps)
    {
      isReceiving := true;
      ghost var start := View();
      var i := 0;
      while isReceiving && i < |steps|
        invariant 0 <= i <= |steps|
        invariant RunSpec(env, View(), steps[i..]) == RunSpec(env, start, steps)
      {
        assert steps[i..][1..] == steps[i + 1..];
        match steps[i] {
          case Received(packet, shutDownMeanwhile) =>
            if shutDownMeanwhile {
              ShutDown();
            }
            ProcessPacket(packet);
          case ReceiveFailed(shutDownMeanwhile) =>
            if shutDownMeanwhile {
              ShutDown();
            }
            if isReceiving {
              events := events + [IoErrorReported];
            }
        }
        i := i + 1;
      }
    }

    method ShutDown()
      modifies this`isReceiving
      ensures View() == old(View()).(receiving := false)
    {
      isReceiving := false;
    }

    /** Finds the sender: the first strict match in list order, else the first host-only match. */
    method DetermineNeighborWhoSent(packet: Datagram) returns (neighbor: Neighbor?)
      ensures var who := Attribution(env, View(), packet);
              (who.None? <==> neighbor == null) && (who.Some? ==> neighbor == neighbors[who.value])
    {
      ghost var ids := IdsOf(NeighborViews());
      ghost var a := env.parse(packet.sourceIp, packet.sourcePort);
      FirstMatchIsFirst(ids, a, true, env.isNeighborReportAddress);
      FirstMatchIsFirst(ids, a, false, env.isNeighborReportAddress);
      // Strict port matching
      var i := 0;
      while i < |neighbors|
        invariant 0 <= i <= |neighbors|
        invariant forall j :: 0 <= j < i ==> !env.isNeighborReportAddress(ids[j], a, true)
      {
        var address := env.parse(packet.sourceIp, packet.sourcePort);
        if env.isNeighborReportAddress(neighbors[i].Id(), address, true) {
          return neighbors[i];
        }
        i := i + 1;
      }
      // Non-strict matching, port ignored
      i := 0;
      while i < |neighbors|
        invariant 0 <= i <= |neighbors|
        invariant forall j :: 0 <= j < i ==> !env.isNeighborReportAddress(ids[j], a, false)
      {
        var address := env.parse(packet.sourceIp, packet.sourcePort);
        if env.isNeighborReportAddress(neighbors[i].Id(), address, false) {
          return neighbors[i];
        }
        i := i + 1;
      }
      return null;
    }

    method ProcessPacket(packet: Datagram)
      requires Valid()
      modifies this`events, this`localUuid, neighbors
      ensures View() == ProcessPacketSpec(env, old(View()), packet)
    {
      ghost var who := Attribution(env, View(), packet);
      var neighbor := DetermineNeighborWhoSent(packet);
      if neighbor == null && !IsSentFromRcs(env, packet) {
        events := events + [UnknownSender(packet.sourceIp)];
        return;
      }
      var thrown: Option<Failure>;
      var decoded := env.deserialize(packet.data);
      if decoded.None? {
        thrown := Some(UndecodablePayload);
      } else {
        thrown := ProcessPayload(neighbor, who, decoded.value);
      }
      if thrown.Some? {
        if neighbor != null {
          events := events + [InvalidPayloadFromNeighbor(neighbor.Id())];
        } else {
          events := events + [InvalidPayloadFromRcs];
        }
      }
    }

    /** `thrown` is the exception the dispatch raised; if it raised one, nothing changed. */
    ghost predicate Completes(spec: Result<State, Failure>, thrown: Option<Failure>, before: State, after: State) {
      match spec
      case Success(s') => thrown.None? && after == s'
      case Failure(f) => thrown == Some(f) && after == before
    }

    method ProcessPayload(neighbor: Neighbor?, ghost who: Option<nat>, payload: Payload)
      returns (thrown: Option<Failure>)
      requires Valid() && Designates(who, neighbor)
      modifies this`events, this`localUuid, neighbors
      ensures Completes(ProcessPayloadSpec(env, old(View()), who, payload), thrown, old(View()), View())
    {
      match payload {
        case Ping(ping) =>
          ProcessPingPayload(ping);
          thrown := None;
        case Metadata(md) =>
          thrown := ProcessMetadataPacket(neighbor, who, md);
        case Uuid(up) =>
          thrown := ProcessUuidPayload(up);
        case ReceivedPing(_) =>
          thrown := None;
        case Other(_) =>
          thrown := None;
      }
    }

    method ProcessUuidPayload(uuidPayload: UuidPayload) returns (thrown: Option<Failure>)
      modifies this`events, this`localUuid
      ensures Completes(ProcessUuid(old(View()), uuidPayload), thrown, old(View()), View())
    {
      if uuidPayload.uuid.None? {
        return Some(NoUuid);
      }
      if uuidPayload.uuid != localUuid {
        localUuid := uuidPayload.uuid;
        events := events + [Stored(uuidPayload.uuid.value), NewUuidReceived];
      } else {
        events := events + [UuidValidated];
      }
      events := events + [WaiterNotified];
      return None;
    }

    method ProcessMetadataPacket(neighbor: Neighbor?, ghost who: Option<nat>, metadataPayload: MetadataPayload)
      returns (thrown: Option<Failure>)
      requires Valid() && Designates(who, neighbor)
      modifies this`events, neighbors`reportIxiVersion, neighbors`uuid
      ensures Completes(ProcessMetadata(old(View()), who, metadataPayload), thrown, old(View()), View())
    {
      if neighbor == null {
        return Some(NoNeighbor);
      }
      ghost var i := who.value;
      ghost var before := NeighborViews();
      var id := neighbor.Id();
      if Learns(neighbor.reportIxiVersion, metadataPayload.reportIxiVersion) {
        neighbor.SetReportIxiVersion(metadataPayload.reportIxiVersion);
        events := events + [VersionLearned(id, metadataPayload.reportIxiVersion)];
      }
      if Learns(neighbor.uuid, metadataPayload.uuid) {
        neighbor.SetUuid(metadataPayload.uuid);
        events := events + [NeighborUuidLearned(id)];
      }
      assert forall j :: 0 <= j < |neighbors| && j != i ==> neighbors[j] != neighbor;
      assert NeighborViews() == before[i := ViewOf(neighbor)];
      return None;
    }

    method ProcessPingPayload(pingPayload: PingPayload)
      modifies this`events
      ensures View() == ProcessPing(env, old(View()), pingPayload)
    {
      var receivedPingPayload := ReceivedPingPayload(localUuid, pingPayload);
      if localUuid.Some? {
        events := events + [Sent(receivedPingPayload, env.rcsHost, env.rcsPort)];
      }
    }
  }
}
