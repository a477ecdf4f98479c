/**
 The two reply classifiers of the shared raw ICMP sockets: a bounds-checked walk
 over an IPv4 datagram and over an ICMPv6 message.  Ids and sequence numbers are
 compared as the two bytes they occupy in memory, so no byte order is assumed.
 */
module IcmpReply {

  type Byte = x: int | 0 <= x < 256

  /** A 16-bit field as it lies in a packet. */
  datatype Word = Word(first: Byte, second: Byte)

  datatype Verdict = TooShort | BadHeader | NotEcho | NotOurs | Ours

  const IP_HEADER := 20
  const ICMP_HEADER := 8
  const IPPROTO_ICMP := 1
  const ICMP_ECHOREPLY := 0
  const ICMP6_ECHO_REPLY := 129
  const SNAPLEN := 128

  /** The marker carried by every ICMPv6 echo request, "cacti-monitoring-system". */
  const PAYLOAD: seq<Byte> :=
    [99, 97, 99, 116, 105, 45, 109, 111, 110, 105, 116, 111, 114, 105, 110, 103, 45, 115, 121, 115, 116, 101, 109]

  function HeaderLength(b: Byte): nat {
    (b % 16) * 4
  }

  function WordAt(bytes: seq<Byte>, at: nat): Word
    requires at + 2 <= |bytes|
  {
    Word(bytes[at], bytes[at + 1])
  }

  /** spine_icmp_classify_reply: the branches in source order. */
  function Classify(reply: seq<Byte>, id: Word, sequence: Word): Verdict {
    if |reply| < IP_HEADER then TooShort
    else
      var ihl := HeaderLength(reply[0]);
      if reply[0] / 16 != 4 || reply[9] != IPPROTO_ICMP || ihl < IP_HEADER || |reply| < ihl + ICMP_HEADER then BadHeader
      else if reply[ihl] != ICMP_ECHOREPLY || reply[ihl + 1] != 0 then NotEcho
      else if WordAt(reply, ihl + 4) != id || WordAt(reply, ihl + 6) != sequence then NotOurs
      else Ours
  }

  /** icmp6_reply_matches with check_id set: the message carries no IPv6 header. */
  predicate Matches6(reply: seq<Byte>, id: Word, sequence: Word) {
    && |reply| >= ICMP_HEADER + |PAYLOAD|
    && reply[0] == ICMP6_ECHO_REPLY
    && WordAt(reply, 6) == sequence
    && WordAt(reply, 4) == id
    && reply[ICMP_HEADER..ICMP_HEADER + |PAYLOAD|] == PAYLOAD
  }

  /** What recvfrom() keeps of a datagram in one batch slot. */
  function Snap(datagram: seq<Byte>): seq<Byte> {
    if |datagram| <= SNAPLEN then datagram else datagram[..SNAPLEN]
  }

  /** The eight ICMP header bytes of an echo reply; the checksum is not inspected. */
  function EchoReply(kind: Byte, checksum: Word, id: Word, sequence: Word): seq<Byte> {
    [kind, 0, checksum.first, checksum.second, id.first, id.second, sequence.first, sequence.second]
  }

  /** An IPv4 header of its own stated length that announces ICMP. */
  predicate IsIpv4IcmpHeader(header: seq<Byte>) {
    |header| >= IP_HEADER && |header| == HeaderLength(header[0]) && header[0] / 16 == 4 && header[9] == IPPROTO_ICMP
  }

  /** Section 3.1 of RFC 791 followed by the Echo Reply message of RFC 792. */
  ghost predicate IsEchoReply4(reply: seq<Byte>, id: Word, sequence: Word) {
    exists header: seq<Byte>, checksum: Word, data: seq<Byte> ::
      IsIpv4IcmpHeader(header) && reply == header + EchoReply(ICMP_ECHOREPLY, checksum, id, sequence) + data
  }

  lemma OursIsEchoReply(reply: seq<Byte>, id: Word, sequence: Word)
    requires Classify(reply, id, sequence) == Ours
    ensures IsEchoReply4(reply, id, sequence)
  {
    var ihl := HeaderLength(reply[0]);
    var header, middle, data := reply[..ihl], reply[ihl..ihl + ICMP_HEADER], reply[ihl + ICMP_HEADER..];
    var checksum := WordAt(reply, ihl + 2);
    assert middle == EchoReply(ICMP_ECHOREPLY, checksum, id, sequence);
    assert reply == header + middle + data;
    assert IsIpv4IcmpHeader(header);
  }

  lemma EchoReplyIsOurs(header: seq<Byte>, checksum: Word, data: seq<Byte>, id: Word, sequence: Word)
    requires IsIpv4IcmpHeader(header)
    ensures Classify(header + EchoReply(ICMP_ECHOREPLY, checksum, id, sequence) + data, id, sequence) == Ours
  {
    var echo := EchoReply(ICMP_ECHOREPLY, checksum, id, sequence);
    var reply := header + echo + data;
    assert reply[0] == header[0] && reply[9] == header[9];
    assert forall k | 0 <= k < 8 :: reply[|header| + k] == echo[k];
    assert WordAt(reply, |header| + 4) == id && WordAt(reply, |header| + 6) == sequence;
  }

  /** The Ours verdict is given to exactly the IPv4 echo replies with this id and sequence. */
  lemma OursIffEchoReply(reply: seq<Byte>, id: Word, sequence: Word)
    ensures Classify(reply, id, sequence) == Ours <==> IsEchoReply4(reply, id, sequence)
  {
    if Classify(reply, id, sequence) == Ours { OursIsEchoReply(reply, id, sequence); }
    if IsEchoReply4(reply, id, sequence) {
      var header: seq<Byte>, checksum: Word, data: seq<Byte> :|
        IsIpv4IcmpHeader(header) && reply == header + EchoReply(ICMP_ECHOREPLY, checksum, id, sequence) + data;
      EchoReplyIsOurs(header, checksum, data, id, sequence);
    }
  }

  /** Keeping only the first SNAPLEN bytes never changes a verdict of either classifier. */
  lemma SnapKeepsVerdict(datagram: seq<Byte>, id: Word, sequence: Word)
    ensures Classify(Snap(datagram), id, sequence) == Classify(datagram, id, sequence)
    ensures Matches6(Snap(datagram), id, sequence) <==> Matches6(datagram, id, sequence)
  {
    if |datagram| > SNAPLEN {
      var kept := Snap(datagram);
      assert HeaderLength(datagram[0]) <= 60;
      assert forall k | 0 <= k < SNAPLEN :: kept[k] == datagram[k];
      assert kept[ICMP_HEADER..ICMP_HEADER + |PAYLOAD|] == datagram[ICMP_HEADER..ICMP_HEADER + |PAYLOAD|];
    }
  }
}
