/** main/dns_server.c: the answer that sends every name to the access point. */
module DnsServer {
  import opened Wrappers
  import opened DnsMessage

  const DNS_QUERY_MAX_SIZE: nat := 80
  const ANSWER_SIZE: nat := 16
  const DNS_ANSWER_MAX_SIZE: nat := DNS_QUERY_MAX_SIZE + ANSWER_SIZE

  /** A pointer to offset 12, type A, class IN, TTL 0, four octets of data. */
  const ANSWER_HEAD: seq<byte> := [0xC0, 0x0C, 0, 1, 0, 1, 0, 0, 0, 0, 0, 4]

  type Address = ip: seq<byte> | |ip| == 4 witness [0, 0, 0, 0]

  /** The guard in front of the answering branch. */
  predicate Admitted(length: int) {
    length > 0 && length + ANSWER_SIZE - 1 < DNS_ANSWER_MAX_SIZE
  }

  /** The third argument of the second `memcpy`, as the unsigned 32-bit number that it is converted to. */
  function RestSize(length: nat): nat {
    (length - HEADER_SIZE) % 0x1_0000_0000
  }

  /** The terminator and both sides of the second copy stay inside their buffers, and so does the answer. */
  predicate InBounds(length: nat) {
    && length < DNS_QUERY_MAX_SIZE
    && HEADER_SIZE + RestSize(length) <= DNS_QUERY_MAX_SIZE
    && HEADER_SIZE + RestSize(length) <= DNS_ANSWER_MAX_SIZE
    && length + ANSWER_SIZE <= DNS_ANSWER_MAX_SIZE
  }

  predicate Answerable(length: nat) {
    HEADER_SIZE <= length < DNS_QUERY_MAX_SIZE
  }

  lemma RestSizeWraps(length: nat)
    requires length < 0x1_0000_0000
    ensures RestSize(length) == length - HEADER_SIZE + if length < HEADER_SIZE then 0x1_0000_0000 else 0
  {
    if length < HEADER_SIZE {
      assert length - HEADER_SIZE == -1 * 0x1_0000_0000 + (length - HEADER_SIZE + 0x1_0000_0000);
    }
  }

  /**
   * Of the sizes that the guard admits, those from 12 to 79 are exactly the ones for which nothing is read or written
   * outside a buffer: below 12 the size of the copy wraps around, and at 80 the terminator is written behind the query.
   */
  lemma AnswerableIsExact(length: nat)
    ensures Admitted(length) <==> 1 <= length <= DNS_QUERY_MAX_SIZE
    ensures Admitted(length) ==> (InBounds(length) <==> Answerable(length))
  {
    if length < 0x1_0000_0000 {
      RestSizeWraps(length);
    }
  }

  function Response(m: seq<byte>, ip: Address): (r: seq<byte>)
    requires HEADER_SIZE <= |m|
    ensures |r| == |m| + ANSWER_SIZE
  {
    m[..2] + [0x84, m[3] - m[3] % 16] + m[4..6] + m[4..6] + [0, 0, 0, 0] + m[HEADER_SIZE..] + ANSWER_HEAD + ip
  }

  // ----- what a resolver reads

  lemma ResponseParts(m: seq<byte>, ip: Address)
    requires HEADER_SIZE <= |m|
    ensures var r := Response(m, ip);
            && Extends(r, m, HEADER_SIZE)
            && r[..2] == m[..2] && r[2] == 0x84 && r[3] == m[3] - m[3] % 16
            && r[4..6] == r[6..8] == m[4..6] && r[8..12] == [0, 0, 0, 0]
            && r[|m|..|m| + 12] == ANSWER_HEAD && r[|m| + 12..] == ip
  {
    var r := Response(m, ip);
    var head := m[..2] + [0x84, m[3] - m[3] % 16] + m[4..6] + m[4..6] + [0, 0, 0, 0];
    assert r == head + m[HEADER_SIZE..] + ANSWER_HEAD + ip;
    assert |head| == 12 && r[..12] == head;
    assert r[..2] == head[..2];
    assert r[4..6] == head[4..6];
    assert r[6..8] == head[6..8];
    assert r[8..12] == head[8..12];
  }

  lemma LowFlags(b: byte)
    ensures 0 <= b - b % 16 < 256
    ensures (b - b % 16) / 128 == b / 128 && (b - b % 16) / 16 % 8 == b / 16 % 8 && (b - b % 16) % 16 == 0
  {
    assert b == 16 * (b / 16) + b % 16;
  }

  /** The header a resolver reads: the identifier and counts of its query, one answer for each question. */
  lemma ResponseHeader(m: seq<byte>, ip: Address)
    requires HEADER_SIZE <= |m|
    ensures var q := ReadHeader(m);
            ReadHeader(Response(m, ip)) ==
              Header(q.id, true, 0, true, false, false, q.ra, q.z, 0, q.qdcount, q.qdcount, 0, 0)
  {
    var r := Response(m, ip);
    ResponseParts(m, ip);
    assert r[0] == r[..2][0] && r[1] == r[..2][1] && m[0] == m[..2][0] && m[1] == m[..2][1];
    assert r[4] == r[4..6][0] && r[5] == r[4..6][1] && m[4] == m[4..6][0] && m[5] == m[4..6][1];
    assert r[6] == r[6..8][0] && r[7] == r[6..8][1];
    assert r[8] == r[8..12][0] && r[9] == r[8..12][1] && r[10] == r[8..12][2] && r[11] == r[8..12][3];
    LowFlags(m[3]);
  }

  /** The query is a header that announces one question and a question with its name in full; `end` is behind it. */
  ghost predicate AsksOne(m: seq<byte>, q: Question, end: nat) {
    && HEADER_SIZE <= |m| && ReadHeader(m).qdcount == 1
    && ReadPlainName(m, HEADER_SIZE).Some?
    && end == ReadPlainName(m, HEADER_SIZE).value.next + 4 <= |m|
    && q == Question(ReadPlainName(m, HEADER_SIZE).value.got, Short(m, end - 4), Short(m, end - 2))
  }

  /** The message that the answer should be. */
  function Expected(query: Header, q: Question, ip: Address): Message {
    Message(Header(query.id, true, 0, true, false, false, query.ra, query.z, 0, 1, 1, 0, 0),
            [q], [Record(q.name, 1, 1, 0, ip)], [], [])
  }

  lemma QuestionReads(m: seq<byte>, q: Question, end: nat, ip: Address)
    requires AsksOne(m, q, end)
    ensures var r := Response(m, ip);
            && ReadQuestions(r, HEADER_SIZE, 1) == Some(At([q], end))
            && ReadName(r, HEADER_SIZE, HEADER_SIZE) == Some(At(q.name, end - 4))
  {
    var r := Response(m, ip);
    ResponseParts(m, ip);
    PlainNameReads(m, r, HEADER_SIZE, HEADER_SIZE);
    assert ReadQuestion(r, HEADER_SIZE) == Some(At(q, end));
    assert ReadQuestions(r, end, 0) == Some(At([], end));
    assert [q] + [] == [q];
  }

  // ----- a pointer at the end of a message

  /** At `n` there is a pointer to the name behind the header. */
  ghost predicate PointsToName(r: seq<byte>, n: nat, name: seq<Label>) {
    && HEADER_SIZE <= n && n + 2 <= |r| && r[n] == 0xC0 && r[n + 1] == 0x0C
    && ReadName(r, HEADER_SIZE, HEADER_SIZE).Some? && ReadName(r, HEADER_SIZE, HEADER_SIZE).value.got == name
  }

  lemma PointerTarget(r: seq<byte>, n: nat)
    requires n + 2 <= |r| && r[n] == 0xC0 && r[n + 1] == 0x0C
    ensures Short(r, n) - 0xC000 == HEADER_SIZE
  {
  }

  lemma PointerReads(r: seq<byte>, n: nat, name: seq<Label>, limit: nat)
    requires PointsToName(r, n, name) && limit > HEADER_SIZE
    ensures ReadName(r, n, limit) == Some(At(name, n + 2))
  {
    PointerTarget(r, n);
    hide Short;
    assert r[n] >= 192;
  }

  lemma StrayLabel(r: seq<byte>, n: nat, at: nat, limit: nat)
    requires n + 2 <= |r| && r[n] == 0xC0 && r[n + 1] == 0x0C && at < n
    requires var x := ReadName(r, at, limit); x.Some? && x.value.next == n + 2
    ensures 0 < r[at] < 64 && at + 1 + r[at] <= n
    ensures var x := ReadName(r, at + 1 + r[at], limit);
            x.Some? && x.value.next == n + 2 && |x.value.got| < |ReadName(r, at, limit).value.got|
  {
    hide Short;
    var next := at + 1 + r[at];
    assert ReadName(r, at, limit) == ReadLabel(r, at, limit);
    LabelTakesRoom(r, n + 1, limit);
  }

  /** Whatever lies between the question and the answer becomes part of a name that ends in the answer's pointer. */
  lemma {:induction false} StrayNameIsLonger(r: seq<byte>, n: nat, name: seq<Label>, at: nat, limit: nat)
    requires PointsToName(r, n, name) && HEADER_SIZE < limit && at <= n
    requires var x := ReadName(r, at, limit); x.Some? && x.value.next == n + 2
    ensures |ReadName(r, at, limit).value.got| >= |name| + if at < n then 1 else 0
    decreases n - at
  {
    hide ReadName;
    if at == n {
      PointerReads(r, n, name, limit);
    } else {
      StrayLabel(r, n, at, limit);
      StrayNameIsLonger(r, n, name, at + 1 + r[at], limit);
    }
  }

  // ----- the answer

  lemma AnswerShorts(r: seq<byte>, n: nat)
    requires n + 12 <= |r| && r[n..n + 12] == ANSWER_HEAD
    ensures r[n] == 0xC0 && r[n + 1] == 0x0C
    ensures Short(r, n + 2) == 1 && Short(r, n + 4) == 1 && Short(r, n + 6) == 0 && Short(r, n + 8) == 0
    ensures Short(r, n + 10) == 4
  {
    var a := r[n..n + 12];
    assert r[n] == a[0] && r[n + 1] == a[1] && r[n + 2] == a[2] && r[n + 3] == a[3];
    assert r[n + 4] == a[4] && r[n + 5] == a[5] && r[n + 6] == a[6] && r[n + 7] == a[7];
    assert r[n + 8] == a[8] && r[n + 9] == a[9] && r[n + 10] == a[10] && r[n + 11] == a[11];
  }

  /** A record whose name ends at `n`, of type A, class IN, TTL 0, with these four octets. */
  lemma RecordReads(r: seq<byte>, at: nat, name: seq<Label>, n: nat, ip: Address)
    requires ReadName(r, at, at) == Some(At(name, n)) && n + 14 == |r|
    requires Short(r, n) == 1 && Short(r, n + 2) == 1 && Short(r, n + 4) == 0 && Short(r, n + 6) == 0
    requires Short(r, n + 8) == 4 && r[n + 10..] == ip
    ensures ReadRecord(r, at) == Some(At(Record(name, 1, 1, 0, ip), |r|))
  {
    hide ReadName;
    hide Short;
    assert r[n + 10..n + 14] == ip;
  }

  lemma ResponsePoints(m: seq<byte>, q: Question, end: nat, ip: Address)
    requires AsksOne(m, q, end)
    ensures PointsToName(Response(m, ip), |m|, q.name)
  {
    hide ReadName;
    QuestionReads(m, q, end, ip);
    ResponseParts(m, ip);
    AnswerShorts(Response(m, ip), |m|);
  }

  lemma AnswerReads(m: seq<byte>, q: Question, end: nat, ip: Address)
    requires AsksOne(m, q, end)
    ensures ReadRecord(Response(m, ip), |m|) == Some(At(Record(q.name, 1, 1, 0, ip), |m| + ANSWER_SIZE))
  {
    hide ReadName;
    var r := Response(m, ip);
    ResponsePoints(m, q, end, ip);
    PointerReads(r, |m|, q.name, |m|);
    ResponseParts(m, ip);
    AnswerShorts(r, |m|);
    RecordReads(r, |m|, q.name, |m| + 2, ip);
  }

  lemma OneRecordReads(r: seq<byte>, at: nat, answer: Record, next: nat)
    requires ReadRecord(r, at) == Some(At(answer, next))
    ensures ReadRecords(r, at, 1) == Some(At([answer], next))
  {
    hide ReadRecord;
    assert ReadRecords(r, next, 0) == Some(At([], next));
    assert [answer] + [] == [answer];
  }

  lemma OnlyRecord(r: seq<byte>, at: nat, answer: Record, next: nat)
    requires ReadRecords(r, at, 1) == Some(At([answer], next))
    ensures ReadRecord(r, at) == Some(At(answer, next))
  {
    hide ReadRecord;
    var a := ReadRecord(r, at);
    assert a.Some?;
    assert ReadRecords(r, a.value.next, 0) == Some(At([], a.value.next));
    assert [a.value.got] + [] == [a.value.got];
    assert [a.value.got][0] == [answer][0];
  }

  /** A record is its name, ten octets, and its data. */
  lemma RecordSpan(r: seq<byte>, at: nat, answer: Record, next: nat)
    requires ReadRecord(r, at) == Some(At(answer, next))
    ensures var x := ReadName(r, at, at);
            x.Some? && x.value.got == answer.name && x.value.next + 10 + |answer.rdata| == next
  {
    hide ReadName;
    hide Short;
  }

  // ----- the message

  /** With one question and one answer announced, and nothing else, these are read and nothing is left. */
  lemma MessageParts(r: seq<byte>, h: Header, q: Question, end: nat)
    requires HEADER_SIZE <= |r| && ReadHeader(r) == h
    requires h.qdcount == 1 && h.ancount == 1 && h.nscount == 0 && h.arcount == 0
    requires ReadQuestions(r, HEADER_SIZE, 1) == Some(At([q], end))
    ensures forall answer :: ReadMessage(r) == Some(Message(h, [q], [answer], [], [])) <==>
                               ReadRecords(r, end, 1) == Some(At([answer], |r|))
  {
    hide ReadHeader;
    hide ReadRecord;
    hide ReadQuestions;
    var an := ReadRecords(r, end, 1);
    if an.Some? {
      assert ReadRecords(r, an.value.next, 0) == Some(At([], an.value.next));
    }
  }

  lemma StrayBytesBreak(m: seq<byte>, q: Question, end: nat, ip: Address)
    requires AsksOne(m, q, end) && end < |m|
    ensures ReadRecords(Response(m, ip), end, 1) != Some(At([Record(q.name, 1, 1, 0, ip)], |m| + ANSWER_SIZE))
  {
    hide Response;
    hide ReadName;
    hide ReadRecord;
    hide ReadRecords;
    var r, answer := Response(m, ip), Record(q.name, 1, 1, 0, ip);
    if ReadRecords(r, end, 1) == Some(At([answer], |m| + ANSWER_SIZE)) {
      OnlyRecord(r, end, answer, |m| + ANSWER_SIZE);
      RecordSpan(r, end, answer, |m| + ANSWER_SIZE);
      ResponsePoints(m, q, end, ip);
      StrayNameIsLonger(r, |m|, q.name, end, end);
    }
  }

  /**
   * The answer to a query with one question reads as that question and one address record for its name, exactly when
   * nothing follows the question: the answer is put at the end of the message, not at the end of the question.
   */
  lemma ResponseReadsBack(m: seq<byte>, q: Question, end: nat, ip: Address)
    requires AsksOne(m, q, end)
    ensures ReadMessage(Response(m, ip)) == Some(Expected(ReadHeader(m), q, ip)) <==> end == |m|
  {
    hide Response;
    hide ReadMessage;
    hide ReadRecord;
    hide ReadRecords;
    hide ReadQuestions;
    var r := Response(m, ip);
    ResponseHeader(m, ip);
    QuestionReads(m, q, end, ip);
    MessageParts(r, ReadHeader(r), q, end);
    if end < |m| {
      StrayBytesBreak(m, q, end, ip);
    } else {
      AnswerReads(m, q, |m|, ip);
      OneRecordReads(r, |m|, Record(q.name, 1, 1, 0, ip), |m| + ANSWER_SIZE);
    }
  }

  // ----- the builder

  /** The dots that the log line gets for octets it cannot show. */
  function Legible(b: byte): byte {
    if b < 32 || b > 122 then 46 else b
  }

  /** `memcpy(to + at, from + at, size)` */
  method CopyAcross(to: array<byte>, from: array<byte>, at: nat, size: nat)
    requires to != from && at + size <= to.Length && at + size <= from.Length
    modifies to
    ensures to[..] == old(to[..at]) + from[at..at + size] + old(to[at + size..])
  {
    for i := 0 to size
      invariant forall k :: at <= k < at + i ==> to[k] == from[k]
      invariant forall k :: 0 <= k < at || at + i <= k < to.Length ==> to[k] == old(to[k])
    {
      to[at + i] := from[at + i];
    }
  }

  /** The assignments to the fields of `dns_header_t`: bit-fields begin at the least significant bit. */
  method SetHeader(response: array<byte>)
    requires HEADER_SIZE <= response.Length
    modifies response
    ensures var w := old(response[..]);
            response[..] == w[..2] + [0x84, w[3] - w[3] % 16] + w[4..6] + w[4..6] + [0, 0, 0, 0] + w[12..]
  {
    LowFlags(response[3]);
    response[2] := 0x84;
    response[3] := response[3] - response[3] % 16;
    response[6], response[7] := response[4], response[5];
    response[8], response[9] := 0, 0;
    response[10], response[11] := 0, 0;
  }

  function Bytes(value: nat): seq<byte>
    requires value < 0x1_0000
  {
    [value / 0x100, value % 0x100]
  }

  /** One 16-bit field in network order; `text` is what lies between `start` and it. */
  method PutShort(response: array<byte>, ghost start: nat, ghost text: seq<byte>, at: nat, value: nat)
    requires start <= at && at + 2 <= response.Length && value < 0x1_0000 && response[start..at] == text
    modifies response
    ensures response[..start] == old(response[..start])
    ensures response[start..at + 2] == text + Bytes(value)
  {
    response[at] := value / 0x100;
    response[at + 1] := value % 0x100;
    assert response[start..at + 2] == response[start..at] + Bytes(value);
  }

  lemma AnswerFields(ip: Address)
    ensures Bytes(0xC00C) + Bytes(1) + Bytes(1) + Bytes(0) + Bytes(0) + Bytes(4)
            + Bytes(Join(ip[0], ip[1])) + Bytes(Join(ip[2], ip[3])) == ANSWER_HEAD + ip
  {
  }

  /** The assignments to the fields of `dns_answer_t`. */
  method SetAnswer(response: array<byte>, at: nat, ip: Address)
    requires at + ANSWER_SIZE <= response.Length
    modifies response
    ensures response[..at] == old(response[..at])
    ensures response[at..at + ANSWER_SIZE] == ANSWER_HEAD + ip
  {
    AnswerFields(ip);
    PutShort(response, at, [], at, 0xC00C);
    ghost var text := Bytes(0xC00C);
    PutShort(response, at, text, at + 2, 1);
    text := text + Bytes(1);
    PutShort(response, at, text, at + 4, 1);
    text := text + Bytes(1);
    PutShort(response, at, text, at + 6, 0);
    text := text + Bytes(0);
    PutShort(response, at, text, at + 8, 0);
    text := text + Bytes(0);
    PutShort(response, at, text, at + 10, 4);
    text := text + Bytes(4);
    PutShort(response, at, text, at + 12, Join(ip[0], ip[1]));
    text := text + Bytes(Join(ip[0], ip[1]));
    PutShort(response, at, text, at + 14, Join(ip[2], ip[3]));
  }

  /** The loop that makes the first label and what follows it legible, in place, up to the first zero octet. */
  method MakeLegible(data: array<byte>, from: nat) returns (end: nat)
    requires from <= data.Length && 0 in data[from..]
    modifies data
    ensures from <= end < data.Length && data[end] == 0 && 0 !in old(data[from..end])
    ensures forall k :: from <= k < end ==> ' ' as int <= data[k] <= 'z' as int
    ensures forall k :: 0 <= k < data.Length ==>
              data[k] == if from <= k < end then Legible(old(data[k])) else old(data[k])
  {
    ghost var was := data[..];
    ghost var zero :| from <= zero < data.Length && was[zero] == 0;
    end := from;
    while data[end] != 0
      invariant from <= end <= zero
      invariant forall k :: from <= k < end ==> was[k] != 0
      invariant forall k :: 0 <= k < data.Length ==> data[k] == if from <= k < end then Legible(was[k]) else was[k]
      decreases data.Length - end
    {
      if data[end] < 32 || data[end] > 122 {
        data[end] := 46;
      }
      end := end + 1;
    }
  }

  /** The two copies and the header between them leave everything of the answer but its record. */
  lemma Assembled(m: seq<byte>, ip: Address, copied: seq<byte>, headed: seq<byte>, now: seq<byte>)
    requires HEADER_SIZE <= |m| <= |copied| == |headed|
    requires copied[..12] == m[..12]
    requires headed ==
               copied[..2] + [0x84, copied[3] - copied[3] % 16] + copied[4..6] + copied[4..6] + [0, 0, 0, 0]
               + copied[12..]
    requires now == headed[..12] + m[12..] + headed[|m|..]
    ensures now[..|m|] == Response(m, ip)[..|m|]
  {
    assert copied[3] == copied[..12][3] && m[3] == m[..12][3];
    assert copied[..2] == copied[..12][..2] == m[..12][..2] == m[..2];
    assert copied[4..6] == copied[..12][4..6] == m[..12][4..6] == m[4..6];
    assert headed[..12] == m[..2] + [0x84, m[3] - m[3] % 16] + m[4..6] + m[4..6] + [0, 0, 0, 0];
    assert now[..|m|] == headed[..12] + m[12..];
    assert Response(m, ip)[..|m|] == headed[..12] + m[12..];
  }

  /**
   * The header of the answer, and the rest of the query behind it; `whole` unless the second copy would run out of the
   * query buffer, in which case nothing can be said of what it does.
   */
  method CopyQuery(data: array<byte>, length: nat, response: array<byte>, ghost ip: Address) returns (whole: bool)
    requires length <= data.Length <= response.Length < 0x1_0000_0000 && HEADER_SIZE <= data.Length
    requires data != response
    modifies response
    ensures whole <==> HEADER_SIZE <= length
    ensures whole ==> response[..length] == Response(data[..length], ip)[..length]
  {
    CopyAcross(response, data, 0, HEADER_SIZE);
    ghost var copied := response[..];
    SetHeader(response);
    ghost var headed := response[..];
    RestSizeWraps(length);
    whole := HEADER_SIZE + RestSize(length) <= data.Length;
    if whole {
      CopyAcross(response, data, HEADER_SIZE, RestSize(length));
      Assembled(data[..length], ip, copied, headed, response[..]);
    }
  }

  lemma ResponseEnds(m: seq<byte>, ip: Address)
    requires HEADER_SIZE <= |m|
    ensures Response(m, ip) == Response(m, ip)[..|m|] + (ANSWER_HEAD + ip)
  {
  }

  /**
   * The body of the guard in `dns_server`, for a query in `data` with zeros behind it: `response` becomes the answer;
   * the query itself changes only where the log line wants it legible. `data` is the query buffer and the octet behind
   * it, which a query of 80 octets overwrites. A query without a whole header gets no answer: the size of the second
   * copy wraps around.
   */
  method BuildResponse(data: array<byte>, length: nat, response: array<byte>, ip: Address) returns (answered: bool)
    requires data.Length == DNS_QUERY_MAX_SIZE + 1 && response.Length == DNS_ANSWER_MAX_SIZE && data != response
    requires Admitted(length)
    requires forall k :: length <= k < DNS_QUERY_MAX_SIZE ==> data[k] == 0
    modifies data, response
    ensures answered <==> HEADER_SIZE <= length
    ensures answered ==> response[..length + ANSWER_SIZE] == Response(old(data[..length]), ip)
    ensures answered ==>
              && (forall k :: 0 <= k < length ==> data[k] == old(data[k]) || (data[k] == 46 && 13 <= k))
              && (forall k :: length <= k < DNS_QUERY_MAX_SIZE ==> data[k] == 0)
              && data[DNS_QUERY_MAX_SIZE] == if length == DNS_QUERY_MAX_SIZE then 0 else old(data[DNS_QUERY_MAX_SIZE])
  {
    hide Response;
    data[length] := 0;
    assert data[..length] == old(data[..length]);
    answered := CopyQuery(data, length, response, ip);
    if !answered {
      return;
    }
    ResponseEnds(data[..length], ip);
    var from := HEADER_SIZE + 1;
    assert data[from..][if length < from then 0 else length - from] == 0;
    var end := MakeLegible(data, from);
    assert end <= if length < from then from else length;
    SetAnswer(response, length, ip);
    assert response[..length + ANSWER_SIZE] == response[..length] + response[length..length + ANSWER_SIZE];
  }
}
