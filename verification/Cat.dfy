/** Types shared by the CAT decoders, after src/cat.h. */
module Cat {
  type byte = x: int | 0 <= x < 256

  const MAX_CLIENTS := 9

  /** 0: no client; 1..9: the client applications. */
  type clientNo = c: int | 0 <= c <= MAX_CLIENTS

  datatype Dir = Host | Own | Radio

  datatype Kind =
    | Cmd | Echo | Reply | Ack | Nak | Unsolicited | Unmatched | Foreign | Bad | Jam | Dropped | Error

  /** A frame as it is handed to the frame callback. */
  datatype Frame = Frame(
    kind: Kind,
    dir: Dir,
    t: nat,
    buf: seq<byte>,
    applied: bool,
    own: bool,
    client: clientNo)

  /** What a state update reports: 1, 0 or -1 in the source. */
  datatype Applied = Updated | Nothing | Invalid

  predicate HasBit(b: byte, mask: int)
    requires mask > 0
  {
    (b / mask) % 2 == 1
  }

  /** Value arithmetic of a uint32_t. */
  function U32(x: nat): nat {
    x % 0x1_0000_0000
  }
}

/** Where the bytes of the CI-V and ASCII decoders come from: nine clients, mhuxd, and the radio. */
module Sources {
  import opened Cat

  const RX_OWN := MAX_CLIENTS
  const RX_RADIO := MAX_CLIENTS + 1
  const RX_NUM := MAX_CLIENTS + 2

  type source = i: int | 0 <= i < RX_NUM

  function DirOf(i: source): Dir {
    if i == RX_RADIO then Radio else if i == RX_OWN then Own else Host
  }

  function ClientOf(i: source): clientNo {
    if i < MAX_CLIENTS then i + 1 else 0
  }
}
