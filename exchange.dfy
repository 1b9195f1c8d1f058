/**
 * The payload kinds the Receiver distinguishes. The classes of the
 * `exchange` package and their wire format are not part of this model:
 * each kind carries only the getters the Receiver calls, and a field a
 * getter may return `null` for is an `Option`.
 */
module Exchange {
  import opened Wrappers

  /** A ping from a neighbour; its contents are only relayed, never inspected. */
  datatype PingPayload = PingPayload(message: string)

  datatype MetadataPayload = MetadataPayload(reportIxiVersion: Option<string>, uuid: Option<string>)

  datatype UuidPayload = UuidPayload(uuid: Option<string>)

  /** The report sent to RCS for a ping: the local uuid and the ping itself. */
  datatype ReceivedPingPayload = ReceivedPingPayload(uuid: Option<string>, ping: PingPayload)

  /** A decoded datagram; the Receiver dispatches on this kind. */
  datatype Payload =
    | Ping(ping: PingPayload)
    | Metadata(metadata: MetadataPayload)
    | Uuid(uuidPayload: UuidPayload)
    | ReceivedPing(receivedPing: ReceivedPingPayload)
    | Other(kind: string)  // a payload of any other class, named by its class
}
