/** The messages that clients and the server exchange. */
module Messages {
  import opened Base
  import opened Metadata

  datatype UserStatus = Connected | Disconnected

  datatype LoginType = AsReceiver | AsSender

  datatype Payload =
    | Unknown
    | ErrorText(text: string)
    | Login(loginType: LoginType, username: string, key: string)
    | LoginSuccess
    | PublishMeta(meta: Meta)
    | RemoveMeta(path: string)
    | RequestMeta(after: i64)
    | TransmitMeta(metas: seq<Meta>)
    | NotifyUpdated(lastModified: i64)
    | RequestChunk(path: string, index: nat, hash: u64)
    | TransmitChunk(data: Bytes)
    | NotifySenderStatus(status: UserStatus)
    | StopChunk
}
