/** The wire protocol: channel ids, JSON values and the message envelope. */
module Protocol {
  import opened Wrappers

  const MAX_CHANNEL_ID_LEN := 128

  type ChannelId = string

  predicate IsIdChar(c: char) {
    '0' <= c <= '9' || 'a' <= c <= 'z' || 'A' <= c <= 'Z' || c == '-' || c == '_'
  }

  /** What deserialization accepts as a channel id. */
  predicate ValidChannelId(s: string) {
    && 0 < |s| <= MAX_CHANNEL_ID_LEN
    && forall i :: 0 <= i < |s| ==> IsIdChar(s[i])
  }

  datatype Value =
    | Null
    | Bool(b: bool)
    | Number(n: int)
    | Text(s: string)
    | Array(items: seq<Value>)
    | Object(fields: map<string, Value>)

  datatype SuperuserMode = Require | Try

  datatype Options = Options(payload: string, superuser: Option<SuperuserMode>, extra: map<string, Value>)

  /** `Handshake` stands for the variants that carry no channel and play no part after enrolment. */
  datatype Message =
    | Open(channel: ChannelId, options: Options)
    | Ready(channel: ChannelId)
    | Data(channel: ChannelId, data: Value)
    | Control(channel: ChannelId, command: string, extra: map<string, Value>)
    | Close(channel: ChannelId, problem: Option<string>)
    | Ping
    | Pong
    | Handshake

  predicate HasChannel(m: Message) {
    m.Open? || m.Ready? || m.Data? || m.Control? || m.Close?
  }

  /** A frame whose channel id does not deserialize is dropped by its receiver. */
  predicate WireOk(m: Message) {
    HasChannel(m) ==> ValidChannelId(m.channel)
  }

  predicate ClosesChannel(msgs: seq<Message>, c: ChannelId) {
    exists i :: 0 <= i < |msgs| && msgs[i].Close? && msgs[i].channel == c
  }
}
