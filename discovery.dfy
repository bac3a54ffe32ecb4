/** Constants and the error type of the agent-discovery crate. */
module Discovery {

  /** Event kind of a service card (parameterized replaceable). */
  const KIND_SERVICE_CARD: nat := 31990

  /** Event kind of a heartbeat (parameterized replaceable). */
  const KIND_HEARTBEAT: nat := 31991

  /** The crate's NIP-32 namespace label. The web client and the plug-in use
      "agent-reach" instead, so the tag builders take the label as a parameter. */
  const LABEL_NAMESPACE: string := "agent-discovery"

  const LABEL_SERVICE_CARD: string := "service-card"

  const LABEL_HEARTBEAT: string := "heartbeat"

  datatype Error =
    | InvalidCapability(detail: string)
    | InvalidProtocol(detail: string)
    | RelayError(detail: string)
    | SigningError(detail: string)
    | ParseError(detail: string)
    | SerializationError(detail: string)
    | NostrError(detail: string)
}
