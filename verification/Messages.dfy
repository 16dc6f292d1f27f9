/** The JSON messages the tasks exchange, as one record; an absent key is `None`, `false` or an empty list. */
module Messages {
  import opened Bytes
  import opened Wrappers

  /** A Rust `str` by its bytes. */
  type Str = seq<byte>

  /** The message type string; `Untyped` when the key is missing. */
  datatype Kind =
    | Submit | SubmitResp | Deliver | DeliverResp | Report | ReportResp
    | Connect | Terminate | OtherKind | Untyped

  /** What a short message says, apart from its routing. */
  datatype Body = Body(
    srcId: Option<Str>,
    destId: Option<Str>,
    destIds: seq<Str>,
    content: Option<string>,
    format: Option<byte>,
    serviceId: Option<Str>,
    spId: Option<Str>,
    validTime: Option<Str>,
    atTime: Option<Str>,
    state: Option<Str>,
    submitTime: Option<Str>,
    doneTime: Option<Str>,
    result: Option<u32>
  )

  const EMPTY_BODY := Body(None, None, [], None, None, None, None, None, None, None, None, None, None)

  datatype Json = Json(
    kind: Kind,
    seqId: Option<nat>,
    seqIds: seq<nat>,
    msgId: Option<Str>,
    msgIds: seq<Str>,
    accountMsgId: Option<Str>,
    passageMsgId: Option<Str>,
    speedLimit: bool,
    waitReceipt: bool,
    needReSend: Option<bool>,
    isPriority: bool,
    receiveTime: Option<int>,
    duration: Option<int>,
    longTotal: Option<byte>,
    longNumber: Option<byte>,
    channelId: Option<nat>,
    canWrite: Option<bool>,
    id: Option<nat>,
    entityId: Option<nat>,
    nodeId: Option<nat>,
    body: Body
  )

  const EMPTY := Json(Untyped, None, [], None, [], None, None, false, false, None, false, None, None, None, None,
                      None, None, None, None, None, EMPTY_BODY)
}
