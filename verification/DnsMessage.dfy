/** Reading a domain name message: sections 4.1.1 to 4.1.4 of RFC 1035. */
module DnsMessage {
  import opened Wrappers

  type byte = b: int | 0 <= b < 256

  type Label = seq<byte>

  /** Section 4.1.1, with the flags as two octets: QR, OPCODE, AA, TC, RD and RA, Z, RCODE. */
  datatype Header = Header(id: nat, qr: bool, opcode: nat, aa: bool, tc: bool, rd: bool, ra: bool, z: nat, rcode: nat,
                           qdcount: nat, ancount: nat, nscount: nat, arcount: nat)

  datatype Question = Question(name: seq<Label>, qtype: nat, qclass: nat)

  datatype Record = Record(name: seq<Label>, rtype: nat, rclass: nat, ttl: nat, rdata: seq<byte>)

  datatype Message = Message(header: Header, questions: seq<Question>, answers: seq<Record>,
                             authorities: seq<Record>, additionals: seq<Record>)

  /** Something read, and the position behind it. */
  datatype At<+T> = At(got: T, next: nat)

  const HEADER_SIZE: nat := 12

  function Join(high: byte, low: byte): (v: nat)
    ensures v < 0x1_0000 && v / 0x100 == high && v % 0x100 == low
  {
    0x100 * (high as int) + low as int
  }

  function Short(m: seq<byte>, at: nat): nat
    requires at + 2 <= |m|
  {
    Join(m[at], m[at + 1])
  }

  function ReadHeader(m: seq<byte>): Header
    requires HEADER_SIZE <= |m|
  {
    Header(Short(m, 0),
           m[2] / 128 == 1, m[2] / 8 % 16, m[2] / 4 % 2 == 1, m[2] / 2 % 2 == 1, m[2] % 2 == 1,
           m[3] / 128 == 1, m[3] / 16 % 8, m[3] % 16,
           Short(m, 4), Short(m, 6), Short(m, 8), Short(m, 10))
  }

  /**
   * Section 4.1.4: labels up to a zero octet or a pointer. A pointer must lead to a prior position: one below
   * `limit`, where the name began.
   */
  function ReadName(m: seq<byte>, at: nat, limit: nat): (r: Option<At<seq<Label>>>)
    ensures r.Some? ==> at < r.value.next <= |m|
    decreases limit, |m| - at
  {
    if at >= |m| then None
    else if m[at] == 0 then Some(At([], at + 1))
    else if m[at] < 64 then ReadLabel(m, at, limit)
    else if m[at] >= 192 && at + 1 < |m| then
      var target := Short(m, at) - 0xC000;
      if target >= limit then None
      else
        match ReadName(m, target, target)
        case None => None
        case Some(r) => Some(At(r.got, at + 2))
    else None
  }

  function ReadLabel(m: seq<byte>, at: nat, limit: nat): (r: Option<At<seq<Label>>>)
    requires at < |m| && 0 < m[at]
    ensures r.Some? ==> at < r.value.next <= |m|
    decreases limit, |m| - at, 0
  {
    var end := at + 1 + m[at];
    if end > |m| then None
    else
      match ReadName(m, end, limit)
      case None => None
      case Some(r) => Some(At([m[at + 1..end]] + r.got, r.next))
  }

  /** Section 4.1.2 */
  function ReadQuestion(m: seq<byte>, at: nat): (r: Option<At<Question>>)
    ensures r.Some? ==> at < r.value.next <= |m|
  {
    match ReadName(m, at, at)
    case None => None
    case Some(n) =>
      if n.next + 4 > |m| then None
      else Some(At(Question(n.got, Short(m, n.next), Short(m, n.next + 2)), n.next + 4))
  }

  /** Section 4.1.3 */
  function ReadRecord(m: seq<byte>, at: nat): (r: Option<At<Record>>)
    ensures r.Some? ==> at < r.value.next <= |m|
  {
    match ReadName(m, at, at)
    case None => None
    case Some(n) =>
      if n.next + 10 > |m| then None
      else
        var data := n.next + 10;
        var end := data + Short(m, n.next + 8);
        if end > |m| then None
        else Some(At(Record(n.got, Short(m, n.next), Short(m, n.next + 2),
                            0x1_0000 * Short(m, n.next + 4) + Short(m, n.next + 6), m[data..end]), end))
  }

  function ReadQuestions(m: seq<byte>, at: nat, count: nat): Option<At<seq<Question>>>
    decreases count
  {
    if count == 0 then Some(At([], at))
    else
      match ReadQuestion(m, at)
      case None => None
      case Some(q) =>
        match ReadQuestions(m, q.next, count - 1)
        case None => None
        case Some(qs) => Some(At([q.got] + qs.got, qs.next))
  }

  function ReadRecords(m: seq<byte>, at: nat, count: nat): Option<At<seq<Record>>>
    decreases count
  {
    if count == 0 then Some(At([], at))
    else
      match ReadRecord(m, at)
      case None => None
      case Some(r) =>
        match ReadRecords(m, r.next, count - 1)
        case None => None
        case Some(rs) => Some(At([r.got] + rs.got, rs.next))
  }

  /** A whole message, with nothing behind its sections. */
  function ReadMessage(m: seq<byte>): Option<Message> {
    if |m| < HEADER_SIZE then None
    else
      var h := ReadHeader(m);
      match ReadQuestions(m, HEADER_SIZE, h.qdcount)
      case None => None
      case Some(qs) =>
        match ReadRecords(m, qs.next, h.ancount)
        case None => None
        case Some(an) =>
          match ReadRecords(m, an.next, h.nscount)
          case None => None
          case Some(ns) =>
            match ReadRecords(m, ns.next, h.arcount)
            case None => None
            case Some(ar) =>
              if ar.next == |m| then Some(Message(h, qs.got, an.got, ns.got, ar.got)) else None
  }

  lemma LabelTakesRoom(m: seq<byte>, at: nat, limit: nat)
    requires at < |m| && 0 < m[at] < 64
    ensures var r := ReadName(m, at, limit); r.Some? ==> r.value.next > at + 1 + m[at]
  {
    assert ReadName(m, at, limit) == ReadLabel(m, at, limit);
  }

  // ----- names without pointers

  /** A name given in full, as section 3.1 has it. */
  function ReadPlainName(m: seq<byte>, at: nat): (r: Option<At<seq<Label>>>)
    ensures r.Some? ==> at < r.value.next <= |m|
    decreases |m| - at
  {
    if at >= |m| then None
    else if m[at] == 0 then Some(At([], at + 1))
    else
      var end := at + 1 + m[at];
      if m[at] >= 64 || end > |m| then None
      else
        match ReadPlainName(m, end)
        case None => None
        case Some(r) => Some(At([m[at + 1..end]] + r.got, r.next))
  }

  /** From `at` on, `t` begins as `m` does. */
  ghost predicate Extends(t: seq<byte>, m: seq<byte>, at: nat) {
    |m| <= |t| && forall k :: at <= k < |m| ==> t[k] == m[k]
  }

  /** A name in full reads the same in every message that has it in the same place. */
  lemma {:induction false} PlainNameReads(m: seq<byte>, t: seq<byte>, at: nat, limit: nat)
    requires Extends(t, m, at) && ReadPlainName(m, at).Some?
    ensures ReadName(t, at, limit) == ReadPlainName(m, at)
    decreases |m| - at
  {
    if m[at] == 0 {
    } else {
      var end := at + 1 + m[at];
      PlainNameReads(m, t, end, limit);
      assert m[at + 1..end] == t[at + 1..end];
      assert ReadLabel(t, at, limit) == ReadPlainName(m, at);
    }
  }
}
