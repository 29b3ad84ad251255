/** The records the stream allocator, the session descriptions and the persisted file share. */
module StreamTypes {

  type U8 = n: nat | n < 0x100
  type U16 = n: nat | n < 0x1_0000
  type U32 = n: nat | n < 0x1_0000_0000
  type U64 = n: nat | n < 0x1_0000_0000_0000_0000
  type I32 = n: int | -0x8000_0000 <= n < 0x8000_0000

  datatype Option<+T> = None | Some(value: T)

  /** The sixteen bytes of a UUID read as one number, which is the order the stream map iterates in. */
  type StreamId = n: nat | n < 0x1_0000_0000_0000_0000_0000_0000_0000_0000

  const NULL_ID: StreamId := 0

  datatype ChannelRoute = ChannelRoute(streamChannel: U16, deviceChannel: U16)

  datatype ChannelMapping = ChannelMapping(
    streamId: StreamId, streamName: string,
    streamChannelCount: U16, streamChannelOffset: U16,
    deviceChannelStart: U16, deviceChannelCount: U16,
    routes: seq<ChannelRoute>)

  datatype SdpSession = SdpSession(
    sessionName: string, sessionInfo: string, sessionId: U64, sessionVersion: U64,
    originUsername: string, originAddress: string, originNetworkType: string, originAddressType: string,
    connectionAddress: string, connectionType: string, connectionNetwork: string, ttl: U8,
    timeStart: U64, timeStop: U64,
    mediaType: string, port: U16, transport: string, payloadType: U8,
    encoding: string, sampleRate: U32, numChannels: U16,
    ptimeUs: U32, framecount: U32, sourceAddress: string,
    ptpDomain: I32, ptpMasterMac: string, ptpTraceable: bool, mediaClockType: string,
    dscp: I32, direction: string, customAttributes: map<string, string>)
  {
    /** What a description needs before it is accepted. */
    predicate IsValid() {
      && sessionName != "" && connectionAddress != "" && port != 0
      && (encoding == "L16" || encoding == "L24" || encoding == "AM824")
      && sampleRate != 0 && numChannels != 0
    }
  }

  /** A session before any line of a description has been read into it. */
  const BlankSession: SdpSession := SdpSession(
    "", "", 0, 0, "-", "", "IN", "IP4", "", "IN", "IP4", 32, 0, 0, "audio", 5004, "RTP/AVP", 97,
    "L24", 48000, 2, 1000, 0, "", 0, "", false, "direct=0", -1, "recvonly", map[])
}
