/** DNS messages (RFC 1035, section 4.1) as the resolver needs them: one question
    read, its answer written, the addresses of a response read. */
module Wire {
  import opened Text

  type Byte = b: int | 0 <= b < 256

  type Octets4 = s: seq<Byte> | |s| == 4 witness [0, 0, 0, 0]
  type Octets16 = s: seq<Byte> | |s| == 16 witness [0, 0, 0, 0, 0, 0, 0, 0, 0, 0, 0, 0, 0, 0, 0, 0]

  datatype IpAddr = V4(octets4: Octets4) | V6(octets6: Octets16)

  const TYPE_A := 1
  const TYPE_AAAA := 28
  const CLASS_IN := 1

  const RCODE_NOERROR := 0
  const RCODE_FORMERR := 1
  const RCODE_SERVFAIL := 2
  const RCODE_NOTIMP := 4

  const HEADER_LEN := 12

  /** `flags` keeps the opcode and RD of the query; `raw` is its question section. */
  datatype Question = Question(id: nat, name: string, qtype: nat, qclass: nat, flags: nat, raw: seq<Byte>)

  datatype ParseError = Truncated | Malformed(id: nat, rcode: nat)

  function U16At(buf: seq<Byte>, at: nat): (n: Option<nat>)
    ensures n.Some? ==> n.value < 0x1_0000
  {
    if at + 1 < |buf| then Some(buf[at] as int * 256 + buf[at + 1] as int) else None
  }

  function U16Bytes(n: nat): (bs: seq<Byte>)
    requires n < 0x1_0000
    ensures |bs| == 2
  {
    [n / 256, n % 256]
  }

  function U32Bytes(n: nat): (bs: seq<Byte>)
    requires n < 0x1_0000_0000
    ensures |bs| == 4
  {
    U16Bytes(n / 0x1_0000) + U16Bytes(n % 0x1_0000)
  }

  // ---- Text of a label ----

  /** How many bytes a UTF-8 sequence starting with `b` has; 0 for none. */
  function SequenceWidth(b: Byte): (w: nat)
  {
    if b < 0x80 then 1 else if 0xC2 <= b <= 0xDF then 2 else if 0xE0 <= b <= 0xEF then 3
    else if 0xF0 <= b <= 0xF4 then 4 else 0
  }

  predicate Continues(bs: seq<Byte>, i: nat)
  {
    i < |bs| && 0x80 <= bs[i] <= 0xBF
  }

  /** The second byte of a sequence is restricted so that no code point is
      written long, as a surrogate, or past the last one. */
  predicate SecondFits(bs: seq<Byte>)
    requires bs != []
  {
    && Continues(bs, 1)
    && (bs[0] == 0xE0 ==> bs[1] >= 0xA0)
    && (bs[0] == 0xED ==> bs[1] <= 0x9F)
    && (bs[0] == 0xF0 ==> bs[1] >= 0x90)
    && (bs[0] == 0xF4 ==> bs[1] <= 0x8F)
  }

  const REPLACEMENT := '\U{FFFD}'

  /** The six bits a continuation byte carries. */
  function Low6(b: Byte): (n: int)
  {
    b as int - 0x80
  }

  /** `String::from_utf8_lossy`: each broken sequence becomes one replacement
      character and reading goes on at the byte that broke it. */
  function Lossy(bs: seq<Byte>): (s: string)
    decreases |bs|
  {
    if bs == [] then ""
    else
      var w := SequenceWidth(bs[0]);
      if w == 1 then [bs[0] as char] + Lossy(bs[1..])
      else if w == 0 || !SecondFits(bs) then [REPLACEMENT] + Lossy(bs[1..])
      else if w == 2 then [((bs[0] as int - 0xC0) * 64 + Low6(bs[1])) as char] + Lossy(bs[2..])
      else if !Continues(bs, 2) then [REPLACEMENT] + Lossy(bs[2..])
      else if w == 3 then [((bs[0] as int - 0xE0) * 4096 + Low6(bs[1]) * 64 + Low6(bs[2])) as char] + Lossy(bs[3..])
      else if !Continues(bs, 3) then [REPLACEMENT] + Lossy(bs[3..])
      else 
        [((bs[0] as int - 0xF0) * 262144 + Low6(bs[1]) * 4096 + Low6(bs[2]) * 64 + Low6(bs[3])) as char] + Lossy(bs[4..])
  }

  predicate Ascii(bs: seq<Byte>)
  {
    forall i | 0 <= i < |bs| :: bs[i] < 128
  }

  function AsciiText(bs: seq<Byte>): (s: string)
    requires Ascii(bs)
    ensures |s| == |bs|
  {
    seq(|bs|, i requires 0 <= i < |bs| => bs[i] as char)
  }

  lemma {:induction false} LossyOfAscii(bs: seq<Byte>)
    requires Ascii(bs)
    ensures Lossy(bs) == AsciiText(bs)
  {
    if bs != [] {
      LossyOfAscii(bs[1..]);
      assert AsciiText(bs) == [bs[0] as char] + AsciiText(bs[1..]);
    }
  }

  function Texts(labels: seq<seq<Byte>>): (ts: seq<string>)
    ensures |ts| == |labels|
  {
    if labels == [] then [] else [Lossy(labels[0])] + Texts(labels[1..])
  }

  // ---- Reading a question ----

  /** The labels from `at` on, and where the name ends. `None` for anything
      `parse_query` answers with FORMERR: out of bytes, a compression pointer or
      reserved label type, or a name over 255 bytes. */
  function Labels(buf: seq<Byte>, at: nat, nameLen: nat): (r: Option<(seq<seq<Byte>>, nat)>)
    ensures r.Some? ==> at < r.value.1 <= |buf|
    decreases |buf| - at
  {
    if at >= |buf| then None
    else
      var len: int := buf[at];
      if len == 0 then Some(([], at + 1))
      else if len >= 64 || at + 1 + len > |buf| || nameLen + len + 1 > 255 then None
      else match Labels(buf, at + 1 + len, nameLen + len + 1)
        case None => None
        case Some((labels, end)) => Some(([buf[at + 1..at + 1 + len]] + labels, end))
  }

  /** `flags & 0x7900`. */
  function OpcodeAndRd(flags: nat): (f: nat)
  {
    flags / 0x800 % 16 * 0x800 + flags / 0x100 % 2 * 0x100
  }

  function Parsed(buf: seq<Byte>): (r: Result<Question, ParseError>)
  {
    if |buf| < HEADER_LEN then Err(Truncated)
    else
      var id, flags := U16At(buf, 0).value, U16At(buf, 2).value;
      if flags >= 0x8000 then Err(Malformed(id, RCODE_FORMERR))
      else if flags / 0x800 % 16 != 0 then Err(Malformed(id, RCODE_NOTIMP))
      else if U16At(buf, 4) != Some(1) then Err(Malformed(id, RCODE_FORMERR))
      else match Labels(buf, HEADER_LEN, 0)
        case None => Err(Malformed(id, RCODE_FORMERR))
        case Some((labels, end)) =>
          match (U16At(buf, end), U16At(buf, end + 2))
          case (Some(qtype), Some(qclass)) =>
            Ok(Question(id, Join(Texts(labels), "."), qtype, qclass, OpcodeAndRd(flags), buf[HEADER_LEN..end + 4]))
          case _ => Err(Malformed(id, RCODE_FORMERR))
  }

  lemma {:induction false} TextsAdd(a: seq<seq<Byte>>, b: seq<seq<Byte>>)
    ensures Texts(a + b) == Texts(a) + Texts(b)
  {
    if a == [] {
      assert a + b == b;
    } else {
      assert (a + b)[1..] == a[1..] + b;
      TextsAdd(a[1..], b);
    }
  }

  function After(first: seq<seq<Byte>>, more: Option<(seq<seq<Byte>>, nat)>): (all: Option<(seq<seq<Byte>>, nat)>)
  {
    if more.Some? then Some((first + more.value.0, more.value.1)) else None
  }

  lemma AfterNothing(more: Option<(seq<seq<Byte>>, nat)>)
    ensures After([], more) == more
  {
    assert more.Some? ==> [] + more.value.0 == more.value.0;
  }

  lemma AfterAdds(a: seq<seq<Byte>>, b: seq<seq<Byte>>, more: Option<(seq<seq<Byte>>, nat)>)
    ensures After(a, After(b, more)) == After(a + b, more)
  {
    if more.Some? {
      Assoc(a, b, more.value.0);
    }
  }

  /** Reads the labels of the name with a cursor, every read checked: their text
      and where the name ends. */
  method LabelsAt(buf: seq<Byte>, start: nat) returns (r: Option<(seq<string>, nat)>)
    ensures r == match Labels(buf, start, 0) case None => None case Some((labels, end)) => Some((Texts(labels), end))
  {
    var at: nat, nameLen: nat := start, 0;
    var names: seq<string> := [];
    ghost var labels: seq<seq<Byte>> := [];
    AfterNothing(Labels(buf, start, 0));
    while true
      invariant names == Texts(labels)
      invariant Labels(buf, start, 0) == After(labels, Labels(buf, at, nameLen))
      decreases |buf| - at
    {
      if at >= |buf| {
        return None;
      }
      var len: int := buf[at];
      if len == 0 {
        assert labels + [] == labels;
        return Some((names, at + 1));
      }
      at := at + 1;
      if len >= 64 || at + len > |buf| {
        return None;
      }
      nameLen := nameLen + len + 1;
      if nameLen > 255 {
        return None;
      }
      var piece := buf[at..at + len];
      at := at + len;
      TextsAdd(labels, [piece]);
      AfterAdds(labels, [piece], Labels(buf, at, nameLen));
      names := names + [Lossy(piece)];
      labels := labels + [piece];
    }
  }

  method ParseQuery(buf: seq<Byte>) returns (r: Result<Question, ParseError>)
    ensures r == Parsed(buf)
  {
    if |buf| < HEADER_LEN {
      return Err(Truncated);
    }
    var id, flags := U16At(buf, 0).value, U16At(buf, 2).value;
    if flags >= 0x8000 {
      return Err(Malformed(id, RCODE_FORMERR));
    }
    if flags / 0x800 % 16 != 0 {
      return Err(Malformed(id, RCODE_NOTIMP));
    }
    if U16At(buf, 4) != Some(1) {
      return Err(Malformed(id, RCODE_FORMERR));
    }
    var name := LabelsAt(buf, HEADER_LEN);
    if name.None? {
      return Err(Malformed(id, RCODE_FORMERR));
    }
    var (names, at) := name.value;
    var qtype, qclass := U16At(buf, at), U16At(buf, at + 2);
    if qtype.None? || qclass.None? {
      return Err(Malformed(id, RCODE_FORMERR));
    }
    r := Ok(Question(id, Join(names, "."), qtype.value, qclass.value, OpcodeAndRd(flags), buf[HEADER_LEN..at + 4]));
  }

  // ---- Cutting and padding a query ----

  lemma {:induction false} LabelsOfPrefix(buf: seq<Byte>, n: nat, at: nat, nameLen: nat)
    requires n <= |buf| && Labels(buf, at, nameLen).Some?
    ensures Labels(buf[..n], at, nameLen)
            == if n >= Labels(buf, at, nameLen).value.1 then Labels(buf, at, nameLen) else None
    decreases |buf| - at
  {
    var len: int := buf[at];
    if len != 0 {
      LabelsOfPrefix(buf, n, at + 1 + len, nameLen + len + 1);
      if at + 1 + len <= n {
        assert buf[..n][at + 1..at + 1 + len] == buf[at + 1..at + 1 + len];
      }
    }
  }

  /** Where the question of an accepted query ends. */
  function QuestionEnd(buf: seq<Byte>): (end: nat)
    requires Parsed(buf).Ok?
    ensures HEADER_LEN + 4 < end <= |buf|
  {
    Labels(buf, HEADER_LEN, 0).value.1 + 4
  }

  /** Cut anywhere inside its question, an accepted query is answered FORMERR
      under its own id; cut after it, it is the same query. */
  lemma CutQuery(buf: seq<Byte>, n: nat)
    requires Parsed(buf).Ok? && HEADER_LEN <= n <= |buf|
    ensures n < QuestionEnd(buf) ==> Parsed(buf[..n]) == Err(Malformed(Parsed(buf).value.id, RCODE_FORMERR))
    ensures n >= QuestionEnd(buf) ==> Parsed(buf[..n]) == Parsed(buf)
  {
    LabelsOfPrefix(buf, n, HEADER_LEN, 0);
    if n >= QuestionEnd(buf) {
      CutAfter(buf, buf[..n]);
    } else {
      CutInside(buf, n);
    }
  }

  lemma U16OfPrefix(cut: seq<Byte>, buf: seq<Byte>, k: nat)
    requires cut <= buf && k + 2 <= |cut|
    ensures U16At(cut, k) == U16At(buf, k)
  {
  }

  /** Parsing looks at nothing but the header's first fields and the question. */
  lemma ParsedSame(a: seq<Byte>, b: seq<Byte>)
    requires |a| >= HEADER_LEN && Parsed(b).Ok? && Labels(a, HEADER_LEN, 0) == Labels(b, HEADER_LEN, 0)
    requires U16At(a, 0) == U16At(b, 0) && U16At(a, 2) == U16At(b, 2) && U16At(a, 4) == U16At(b, 4)
    requires var end := QuestionEnd(b);
             && U16At(a, end - 4) == U16At(b, end - 4) && U16At(a, end - 2) == U16At(b, end - 2)
             && end <= |a| && a[HEADER_LEN..end] == b[HEADER_LEN..end]
    ensures Parsed(a) == Parsed(b)
  {
    hide Labels, U16At;
  }

  lemma CutAfter(buf: seq<Byte>, cut: seq<Byte>)
    requires Parsed(buf).Ok? && cut <= buf && QuestionEnd(buf) <= |cut|
    requires Labels(cut, HEADER_LEN, 0) == Labels(buf, HEADER_LEN, 0)
    ensures Parsed(cut) == Parsed(buf)
  {
    var end := QuestionEnd(buf);
    U16OfPrefix(cut, buf, 0);
    U16OfPrefix(cut, buf, 2);
    U16OfPrefix(cut, buf, 4);
    U16OfPrefix(cut, buf, end - 4);
    U16OfPrefix(cut, buf, end - 2);
    assert cut[HEADER_LEN..end] == buf[HEADER_LEN..end];
    ParsedSame(cut, buf);
  }

  lemma CutInside(buf: seq<Byte>, n: nat)
    requires Parsed(buf).Ok? && HEADER_LEN <= n < QuestionEnd(buf)
    requires Labels(buf[..n], HEADER_LEN, 0) == if n >= QuestionEnd(buf) - 4 then Labels(buf, HEADER_LEN, 0) else None
    ensures Parsed(buf[..n]) == Err(Malformed(Parsed(buf).value.id, RCODE_FORMERR))
  {
    assert forall k | 0 <= k < n - 1 :: U16At(buf[..n], k) == U16At(buf, k);
    assert forall k | n - 1 <= k :: U16At(buf[..n], k) == None;
  }

  /** Bytes after the question change nothing. */
  lemma PaddedQuery(buf: seq<Byte>, extra: seq<Byte>)
    requires Parsed(buf).Ok?
    ensures Parsed(buf + extra) == Parsed(buf)
  {
    LabelsExtend(buf, extra, HEADER_LEN, 0);
    assert (buf + extra)[..|buf|] == buf;
    CutQuery(buf + extra, |buf|);
  }

  lemma {:induction false} LabelsExtend(buf: seq<Byte>, extra: seq<Byte>, at: nat, nameLen: nat)
    requires Labels(buf, at, nameLen).Some?
    ensures Labels(buf + extra, at, nameLen) == Labels(buf, at, nameLen)
    decreases |buf| - at
  {
    var len: int := buf[at];
    if len != 0 {
      LabelsExtend(buf, extra, at + 1 + len, nameLen + len + 1);
      assert (buf + extra)[at + 1..at + 1 + len] == buf[at + 1..at + 1 + len];
    }
  }

  // ---- Writing an answer ----

  /** What a question read by `parse_query` satisfies: its fields are private, so
      every question is one. */
  predicate FromQuery(q: Question)
  {
    q.id < 0x1_0000 && (q.flags == 0 || q.flags == 0x0100)
  }

  /** The twelve bytes of a response header (4.1.1): QR, the query's opcode and
      RD, AA when authoritative, RA and the code; one question. The bits are
      disjoint, so adding them is or-ing them. */
  function Header(q: Question, rcode: nat, authoritative: bool, answers: nat): (bs: seq<Byte>)
    requires FromQuery(q) && rcode < 16 && answers < 0x1_0000
    ensures |bs| == HEADER_LEN
  {
    var flags := 0x8000 + q.flags + 0x0080 + rcode + if authoritative then 0x0400 else 0;
    U16Bytes(q.id) + U16Bytes(flags) + U16Bytes(1) + U16Bytes(answers) + [0, 0, 0, 0]
  }

  /** The addresses of the family the question asks for. */
  function Matching(qtype: nat, qclass: nat, addresses: seq<IpAddr>): (m: seq<IpAddr>)
    ensures |m| <= |addresses|
  {
    if addresses == [] then []
    else
      var a := addresses[0];
      var wanted := qclass == CLASS_IN && if a.V4? then qtype == TYPE_A else qtype == TYPE_AAAA;
      (if wanted then [a] else []) + Matching(qtype, qclass, addresses[1..])
  }

  /** One record (4.1.3), its name a pointer to the question's. */
  function Record(a: IpAddr, ttl: nat): (bs: seq<Byte>)
    requires ttl < 0x1_0000_0000
    ensures |bs| == if a.V4? then 16 else 28
  {
    var rtype, data: seq<Byte> := if a.V4? then TYPE_A else TYPE_AAAA, if a.V4? then a.octets4 else a.octets6;
    [0xc0, 0x0c] + U16Bytes(rtype) + U16Bytes(CLASS_IN) + U32Bytes(ttl) + U16Bytes(|data|) + data
  }

  /** Records one after another, each as `enc` writes it. */
  function Flat(addresses: seq<IpAddr>, enc: IpAddr -> seq<Byte>): (bs: seq<Byte>)
  {
    if addresses == [] then [] else enc(addresses[0]) + Flat(addresses[1..], enc)
  }

  function Encoder(ttl: nat): (enc: IpAddr -> seq<Byte>)
    requires ttl < 0x1_0000_0000
  {
    a => Record(a, ttl)
  }

  function Records(addresses: seq<IpAddr>, ttl: nat): (bs: seq<Byte>)
    requires ttl < 0x1_0000_0000
  {
    Flat(addresses, Encoder(ttl))
  }

  /** The answer's bytes. The count field is 16 bits wide and keeps the low ones. */
  function Answered(q: Question, addresses: seq<IpAddr>, ttl: nat): (bs: seq<Byte>)
    requires FromQuery(q) && ttl < 0x1_0000_0000
  {
    var m := Matching(q.qtype, q.qclass, addresses);
    Header(q, RCODE_NOERROR, true, |m| % 0x1_0000) + q.raw + Records(m, ttl)
  }

  lemma {:induction false} FlatAdds(a: seq<IpAddr>, b: seq<IpAddr>, enc: IpAddr -> seq<Byte>)
    ensures Flat(a + b, enc) == Flat(a, enc) + Flat(b, enc)
  {
    if a == [] {
      assert a + b == b;
    } else {
      assert (a + b)[1..] == a[1..] + b;
      FlatAdds(a[1..], b, enc);
      Assoc(enc(a[0]), Flat(a[1..], enc), Flat(b, enc));
    }
  }

  lemma RecordsGrow(records: seq<IpAddr>, i: nat, ttl: nat)
    requires i < |records| && ttl < 0x1_0000_0000
    ensures Records(records[..i + 1], ttl) == Records(records[..i], ttl) + Record(records[i], ttl)
  {
    hide Record;
    FlatAdds(records[..i], [records[i]], Encoder(ttl));
    assert records[..i + 1] == records[..i] + [records[i]];
    assert Records([records[i]], ttl) == Record(records[i], ttl);
  }

  method Answer(q: Question, addresses: seq<IpAddr>, ttl: nat) returns (out: seq<Byte>)
    requires FromQuery(q) && ttl < 0x1_0000_0000
    ensures out == Answered(q, addresses, ttl)
  {
    var records := Matching(q.qtype, q.qclass, addresses);
    out := Header(q, RCODE_NOERROR, true, |records| % 0x1_0000);
    out := out + q.raw;
    ghost var head := out;
    for i := 0 to |records|
      invariant out == head + Records(records[..i], ttl)
    {
      RecordsGrow(records, i, ttl);
      Assoc(head, Records(records[..i], ttl), Record(records[i], ttl));
      out := PushRecord(out, records[i], ttl);
    }
    assert records[..|records|] == records;
  }

  method PushRecord(buf: seq<Byte>, address: IpAddr, ttl: nat) returns (out: seq<Byte>)
    requires ttl < 0x1_0000_0000
    ensures out == buf + Record(address, ttl)
  {
    out := buf + [0xc0, 0x0c];
    match address {
      case V4(octets) =>
        out := out + U16Bytes(TYPE_A) + U16Bytes(CLASS_IN) + U32Bytes(ttl) + U16Bytes(4) + octets;
      case V6(octets) =>
        out := out + U16Bytes(TYPE_AAAA) + U16Bytes(CLASS_IN) + U32Bytes(ttl) + U16Bytes(16) + octets;
    }
  }

  function ErrorFor(q: Question, rcode: nat): (bs: seq<Byte>)
    requires FromQuery(q) && rcode < 16
  {
    Header(q, rcode, false, 0) + q.raw
  }

  function ErrorForId(id: nat, rcode: nat): (bs: seq<Byte>)
    requires id < 0x1_0000 && rcode < 16
  {
    U16Bytes(id) + U16Bytes(0x8080 + rcode) + [0, 0, 0, 0, 0, 0, 0, 0]
  }

  // ---- Reading a response ----

  datatype Response = Response(id: nat, rcode: nat, authoritative: bool, addresses: seq<IpAddr>)

  /** Past a name: its closing zero, or the first compression pointer (4.1.4). */
  function SkipName(buf: seq<Byte>, at: nat): (r: Option<nat>)
    ensures r.Some? ==> at < r.value <= |buf|
    decreases |buf| - at
  {
    if at >= |buf| then None
    else if buf[at] == 0 then Some(at + 1)
    else if buf[at] >= 0xc0 then if at + 1 < |buf| then Some(at + 2) else None
    else if at + 1 + buf[at] as int >= |buf| then None
    else SkipName(buf, at + 1 + buf[at] as int)
  }

  function SkipQuestions(buf: seq<Byte>, at: nat, n: nat): (r: Option<nat>)
    decreases n
  {
    if n == 0 then Some(at)
    else match SkipName(buf, at)
      case None => None
      case Some(end) => SkipQuestions(buf, end + 4, n - 1)
  }

  /** The record at `at`: the address it holds, if it is one, and where it ends. */
  function ReadRecord(buf: seq<Byte>, at: nat): (r: Option<(seq<IpAddr>, nat)>)
    ensures r.Some? ==> |r.value.0| <= 1
  {
    match SkipName(buf, at)
    case None => None
    case Some(at) =>
      match (U16At(buf, at), U16At(buf, at + 8))
      case (Some(rtype), Some(rdlen)) =>
        if at + 10 + rdlen > |buf| then None
        else
          var data := buf[at + 10..at + 10 + rdlen];
          Some((if rtype == TYPE_A && rdlen == 4 then [V4(data)]
                else if rtype == TYPE_AAAA && rdlen == 16 then [V6(data)] else [],
                at + 10 + rdlen))
      case _ => None
  }

  function ReadRecords(buf: seq<Byte>, at: nat, n: nat): (r: Option<seq<IpAddr>>)
    decreases n
  {
    if n == 0 then Some([])
    else match ReadRecord(buf, at)
      case None => None
      case Some((a, end)) =>
        match ReadRecords(buf, end, n - 1)
        case None => None
        case Some(more) => Some(a + more)
  }

  function ReadResponse(buf: seq<Byte>): (r: Option<Response>)
  {
    if |buf| < 8 || U16At(buf, 2).value < 0x8000 then None
    else
      var flags := U16At(buf, 2).value;
      match SkipQuestions(buf, HEADER_LEN, U16At(buf, 4).value)
      case None => None
      case Some(at) =>
        match ReadRecords(buf, at, U16At(buf, 6).value)
        case None => None
        case Some(addresses) => Some(Response(U16At(buf, 0).value, flags % 16, flags / 0x0400 % 2 == 1, addresses))
  }

  method ParseResponse(buf: seq<Byte>) returns (r: Option<Response>)
    ensures r == ReadResponse(buf)
  {
    var id, flags := U16At(buf, 0), U16At(buf, 2);
    if id.None? || flags.None? || flags.value < 0x8000 {
      return None;
    }
    var qd, an := U16At(buf, 4), U16At(buf, 6);
    if qd.None? || an.None? {
      return None;
    }
    var at := QuestionsAt(buf, HEADER_LEN, qd.value);
    if at.None? {
      return None;
    }
    var addresses := RecordsAt(buf, at.value, an.value);
    if addresses.None? {
      return None;
    }
    r := Some(Response(id.value, flags.value % 16, flags.value / 0x0400 % 2 == 1, addresses.value));
  }

  method QuestionsAt(buf: seq<Byte>, start: nat, n: nat) returns (r: Option<nat>)
    ensures r == SkipQuestions(buf, start, n)
  {
    var at := start;
    for i := 0 to n
      invariant SkipQuestions(buf, start, n) == SkipQuestions(buf, at, n - i)
    {
      var end := SkipNameAt(buf, at);
      if end.None? {
        return None;
      }
      at := end.value + 4;
    }
    r := Some(at);
  }

  function Behind(first: seq<IpAddr>, more: Option<seq<IpAddr>>): (all: Option<seq<IpAddr>>)
  {
    if more.Some? then Some(first + more.value) else None
  }

  lemma BehindNothing(more: Option<seq<IpAddr>>)
    ensures Behind([], more) == more
  {
    assert more.Some? ==> [] + more.value == more.value;
  }

  lemma BehindAdds(a: seq<IpAddr>, b: seq<IpAddr>, more: Option<seq<IpAddr>>)
    ensures Behind(a, Behind(b, more)) == Behind(a + b, more)
  {
    if more.Some? {
      Assoc(a, b, more.value);
    }
  }

  method RecordsAt(buf: seq<Byte>, start: nat, n: nat) returns (r: Option<seq<IpAddr>>)
    ensures r == ReadRecords(buf, start, n)
  {
    var at := start;
    var addresses: seq<IpAddr> := [];
    BehindNothing(ReadRecords(buf, start, n));
    for i := 0 to n
      invariant ReadRecords(buf, start, n) == Behind(addresses, ReadRecords(buf, at, n - i))
    {
      var read := RecordAt(buf, at);
      if read.None? {
        return None;
      }
      BehindAdds(addresses, read.value.0, ReadRecords(buf, read.value.1, n - i - 1));
      addresses, at := addresses + read.value.0, read.value.1;
    }
    assert addresses + [] == addresses;
    r := Some(addresses);
  }

  method RecordAt(buf: seq<Byte>, start: nat) returns (r: Option<(seq<IpAddr>, nat)>)
    ensures r == ReadRecord(buf, start)
  {
    var end := SkipNameAt(buf, start);
    if end.None? {
      return None;
    }
    var at := end.value;
    var rtype, rdlen := U16At(buf, at), U16At(buf, at + 8);
    if rtype.None? || rdlen.None? || at + 10 + rdlen.value > |buf| {
      return None;
    }
    var data := buf[at + 10..at + 10 + rdlen.value];
    var addresses: seq<IpAddr> := [];
    if rtype.value == TYPE_A && rdlen.value == 4 {
      addresses := [V4(data)];
    } else if rtype.value == TYPE_AAAA && rdlen.value == 16 {
      addresses := [V6(data)];
    }
    r := Some((addresses, at + 10 + rdlen.value));
  }

  method SkipNameAt(buf: seq<Byte>, start: nat) returns (r: Option<nat>)
    ensures r == SkipName(buf, start)
  {
    var at := start;
    while at < |buf|
      invariant SkipName(buf, start) == SkipName(buf, at)
      decreases |buf| - at
    {
      var len: int := buf[at];
      if len == 0 {
        return Some(at + 1);
      }
      if len >= 0xc0 {
        return if at + 1 < |buf| then Some(at + 2) else None;
      }
      at := at + 1 + len;
    }
    r := None;
  }

  // ---- The answer reads back ----

  /** A name read as labels is skipped to the same place, wherever its bytes sit. */
  lemma {:induction false} SkipFollowsLabels(buf: seq<Byte>, at: nat, nameLen: nat, out: seq<Byte>, to: nat)
    requires Labels(buf, at, nameLen).Some?
    requires var end := Labels(buf, at, nameLen).value.1;
             to + (end - at) <= |out| && out[to..to + (end - at)] == buf[at..end]
    ensures SkipName(out, to) == Some(to + (Labels(buf, at, nameLen).value.1 - at))
    decreases |buf| - at
  {
    var end := Labels(buf, at, nameLen).value.1;
    var len: int := buf[at];
    assert out[to..to + (end - at)][0] == buf[at..end][0];
    assert out[to] == buf[at];
    if len != 0 {
      var next := at + 1 + len;
      assert out[to + 1 + len..to + (end - at)] == out[to..to + (end - at)][1 + len..];
      assert buf[next..end] == buf[at..end][1 + len..];
      SkipFollowsLabels(buf, next, nameLen + len + 1, out, to + 1 + len);
    }
  }

  lemma RecordReads(pre: seq<Byte>, a: IpAddr, ttl: nat, rest: seq<Byte>)
    requires ttl < 0x1_0000_0000
    ensures ReadRecord(pre + Record(a, ttl) + rest, |pre|) == Some(([a], |pre| + |Record(a, ttl)|))
  {
    var buf := pre + Record(a, ttl) + rest;
    var at := |pre| + 2;
    assert SkipName(buf, |pre|) == Some(at);
    var rtype := if a.V4? then TYPE_A else TYPE_AAAA;
    var data: seq<Byte> := if a.V4? then a.octets4 else a.octets6;
    assert U16At(buf, at) == Some(rtype);
    assert U16At(buf, at + 8) == Some(|data|);
    assert buf[at + 10..at + 10 + |data|] == data;
  }

  lemma TakeFirst<T>(s: seq<T>, n: nat)
    requires 0 < n <= |s|
    ensures [s[0]] + s[1..][..n - 1] == s[..n]
  {
  }

  lemma OneMore(buf: seq<Byte>, at: nat, a: seq<IpAddr>, end: nat, n: nat, more: seq<IpAddr>)
    requires n > 0 && ReadRecord(buf, at) == Some((a, end)) && ReadRecords(buf, end, n - 1) == Some(more)
    ensures ReadRecords(buf, at, n) == Some(a + more)
  {
  }

  lemma RecordThen(pre: seq<Byte>, record: seq<Byte>, rest: seq<Byte>, a: seq<IpAddr>, n: nat, more: seq<IpAddr>)
    requires n > 0 && ReadRecord(pre + record + rest, |pre|) == Some((a, |pre| + |record|))
    requires ReadRecords(pre + record + rest, |pre + record|, n - 1) == Some(more)
    ensures ReadRecords(pre + (record + rest), |pre|, n) == Some(a + more)
  {
    OneMore(pre + record + rest, |pre|, a, |pre + record|, n, more);
    Assoc(pre, record, rest);
  }

  /** A record written by `enc` reads back wherever it stands. */
  ghost predicate Stands(enc: IpAddr -> seq<Byte>, a: IpAddr, pre: seq<Byte>, rest: seq<Byte>)
  {
    ReadRecord(pre + enc(a) + rest, |pre|) == Some(([a], |pre| + |enc(a)|))
  }

  lemma {:induction false} FlatReads(pre: seq<Byte>, addresses: seq<IpAddr>, enc: IpAddr -> seq<Byte>, n: nat)
    requires n <= |addresses| && forall a, before, after :: Stands(enc, a, before, after)
    ensures ReadRecords(pre + Flat(addresses, enc), |pre|, n) == Some(addresses[..n])
    decreases n
  {
    if n > 0 {
      var more := addresses[1..];
      var record, rest := enc(addresses[0]), Flat(more, enc);
      assert Stands(enc, addresses[0], pre, rest);
      FlatReads(pre + record, more, enc, n - 1);
      RecordThen(pre, record, rest, [addresses[0]], n, more[..n - 1]);
      TakeFirst(addresses, n);
    }
  }

  lemma RecordsRead(pre: seq<Byte>, addresses: seq<IpAddr>, ttl: nat, n: nat)
    requires ttl < 0x1_0000_0000 && n <= |addresses|
    ensures ReadRecords(pre + Records(addresses, ttl), |pre|, n) == Some(addresses[..n])
  {
    forall a, before, after ensures Stands(Encoder(ttl), a, before, after) {
      RecordReads(before, a, ttl, after);
    }
    FlatReads(pre, addresses, Encoder(ttl), n);
  }

  lemma HeaderReads(q: Question, rcode: nat, authoritative: bool, answers: nat, rest: seq<Byte>)
    requires FromQuery(q) && rcode < 16 && answers < 0x1_0000
    ensures var buf := Header(q, rcode, authoritative, answers) + rest;
            && U16At(buf, 0) == Some(q.id) && U16At(buf, 4) == Some(1) && U16At(buf, 6) == Some(answers)
            && var flags := U16At(buf, 2);
               flags.Some? && flags.value >= 0x8000 && flags.value % 16 == rcode
               && (flags.value / 0x0400 % 2 == 1 <==> authoritative)
  {
  }

  /** The question section of an accepted query, behind any header, is skipped whole. */
  lemma QuestionSkips(query: seq<Byte>, head: seq<Byte>, rest: seq<Byte>)
    requires Parsed(query).Ok? && |head| == HEADER_LEN
    ensures SkipQuestions(head + Parsed(query).value.raw + rest, HEADER_LEN, 1)
            == Some(HEADER_LEN + |Parsed(query).value.raw|)
  {
    var raw := Parsed(query).value.raw;
    var out := head + raw + rest;
    var end := Labels(query, HEADER_LEN, 0).value.1;
    assert out[HEADER_LEN..HEADER_LEN + (end - HEADER_LEN)] == raw[..end - HEADER_LEN] == query[HEADER_LEN..end];
    SkipFollowsLabels(query, HEADER_LEN, 0, out, HEADER_LEN);
    assert SkipQuestions(out, end + 4, 0) == Some(end + 4);
  }

  /** For every datagram accepted as a query, the answer reads back as NOERROR,
      authoritative, under the query's id, with the addresses of the asked family
      in order: all of them, unless there are more than the count can say. */
  lemma AnswerReadsBack(query: seq<Byte>, addresses: seq<IpAddr>, ttl: nat)
    requires Parsed(query).Ok? && ttl < 0x1_0000_0000
    ensures var q := Parsed(query).value;
            var m := Matching(q.qtype, q.qclass, addresses);
            FromQuery(q)
            && ReadResponse(Answered(q, addresses, ttl)) == Some(Response(q.id, RCODE_NOERROR, true, m[..|m| % 0x1_0000]))
            && (m[..|m| % 0x1_0000] == m <==> |m| < 0x1_0000)
  {
    var q := Parsed(query).value;
    var m := Matching(q.qtype, q.qclass, addresses);
    var n := |m| % 0x1_0000;
    BodyReads(query, Header(q, RCODE_NOERROR, true, n), m, n, ttl);
    ResponseReads(q, RCODE_NOERROR, true, n, q.raw, Records(m, ttl), m[..n]);
    CountHolds(m);
  }

  lemma CountHolds<T>(m: seq<T>)
    ensures m[..|m| % 0x1_0000] == m <==> |m| < 0x1_0000
  {
    if |m| < 0x1_0000 {
      assert m[..|m|] == m;
    } else {
      assert |m[..|m| % 0x1_0000]| < |m|;
    }
  }

  lemma BodyReads(query: seq<Byte>, head: seq<Byte>, m: seq<IpAddr>, n: nat, ttl: nat)
    requires Parsed(query).Ok? && |head| == HEADER_LEN && ttl < 0x1_0000_0000 && n <= |m|
    ensures var raw := Parsed(query).value.raw;
            && SkipQuestions(head + raw + Records(m, ttl), HEADER_LEN, 1) == Some(HEADER_LEN + |raw|)
            && ReadRecords(head + raw + Records(m, ttl), HEADER_LEN + |raw|, n) == Some(m[..n])
  {
    QuestionSkips(query, head, Records(m, ttl));
    RecordsRead(head + Parsed(query).value.raw, m, ttl, n);
  }

  /** A header, one question it can skip and `n` records it can read make a response. */
  lemma ResponseReads(q: Question, rcode: nat, authoritative: bool, n: nat, raw: seq<Byte>, records: seq<Byte>, addresses: seq<IpAddr>)
    requires FromQuery(q) && rcode < 16 && n < 0x1_0000
    requires var head := Header(q, rcode, authoritative, n);
             && SkipQuestions(head + raw + records, HEADER_LEN, 1) == Some(HEADER_LEN + |raw|)
             && ReadRecords(head + raw + records, HEADER_LEN + |raw|, n) == Some(addresses)
    ensures ReadResponse(Header(q, rcode, authoritative, n) + raw + records)
            == Some(Response(q.id, rcode, authoritative, addresses))
  {
    var head := Header(q, rcode, authoritative, n);
    HeaderReads(q, rcode, authoritative, n, raw + records);
    assert head + raw + records == head + (raw + records);
  }

  lemma ErrorsReadBack(query: seq<Byte>, rcode: nat)
    requires rcode < 16
    ensures Parsed(query).Ok? ==>
              FromQuery(Parsed(query).value)
              && ReadResponse(ErrorFor(Parsed(query).value, rcode)) == Some(Response(Parsed(query).value.id, rcode, false, []))
    ensures Parsed(query).Err? && Parsed(query).error.Malformed? ==>
              var id := Parsed(query).error.id;
              id < 0x1_0000 && ReadResponse(ErrorForId(id, rcode)) == Some(Response(id, rcode, false, []))
  {
    if Parsed(query).Ok? {
      var q := Parsed(query).value;
      var head := Header(q, rcode, false, 0);
      QuestionSkips(query, head, []);
      ResponseReads(q, rcode, false, 0, q.raw, [], []);
      assert head + q.raw + [] == ErrorFor(q, rcode);
    } else if Parsed(query).error.Malformed? {
      var buf := ErrorForId(Parsed(query).error.id, rcode);
      assert U16At(buf, 0) == Some(Parsed(query).error.id) && U16At(buf, 2) == Some(0x8080 + rcode);
      assert U16At(buf, 4) == Some(0) && U16At(buf, 6) == Some(0);
    }
  }

  // ---- Building a query ----

  const DOT: Byte := 0x2E

  /** The labels `build_query` writes for a name: its non-empty pieces between
      dots, each cut to 63 bytes. */
  function Cut(pieces: seq<seq<Byte>>): (labels: seq<seq<Byte>>)
  {
    if pieces == [] then []
    else if pieces[0] == [] then Cut(pieces[1..])
    else [if |pieces[0]| > 63 then pieces[0][..63] else pieces[0]] + Cut(pieces[1..])
  }

  function NameLabels(name: seq<Byte>): (labels: seq<seq<Byte>>)
  {
    Cut(SplitOn(TrimEndChar(name, DOT), DOT))
  }

  function Encode(labels: seq<seq<Byte>>): (bs: seq<Byte>)
    requires forall l | l in labels :: |l| < 64
  {
    if labels == [] then [] else [|labels[0]|] + labels[0] + Encode(labels[1..])
  }

  lemma {:induction false} CutIsShort(pieces: seq<seq<Byte>>)
    requires forall p | p in pieces :: DOT !in p
    ensures forall l | l in Cut(pieces) :: 1 <= |l| < 64 && DOT !in l
  {
    if pieces != [] {
      assert pieces[0] in pieces;
      CutIsShort(pieces[1..]);
    }
  }

  /** The name, as its UTF-8 bytes. */
  function Built(id: nat, name: seq<Byte>, qtype: nat): (bs: seq<Byte>)
    requires id < 0x1_0000 && qtype < 0x1_0000
  {
    CutIsShort(SplitOn(TrimEndChar(name, DOT), DOT));
    U16Bytes(id) + U16Bytes(0x0100) + U16Bytes(1) + [0, 0, 0, 0, 0, 0]
    + Encode(NameLabels(name)) + [0] + U16Bytes(qtype) + U16Bytes(CLASS_IN)
  }

  lemma {:induction false} EncodeAdds(a: seq<seq<Byte>>, l: seq<Byte>)
    requires |l| < 64 && forall l | l in a :: |l| < 64
    ensures Encode(a + [l]) == Encode(a) + [|l|] + l
  {
    if a == [] {
      assert a + [l] == [l] && [l][1..] == [];
    } else {
      assert (a + [l])[1..] == a[1..] + [l];
      EncodeAdds(a[1..], l);
    }
  }

  lemma {:induction false} CutAdds(a: seq<seq<Byte>>, p: seq<Byte>)
    ensures Cut(a + [p]) == Cut(a) + Cut([p])
  {
    if a == [] {
      assert a + [p] == [p];
    } else {
      assert (a + [p])[1..] == a[1..] + [p];
      CutAdds(a[1..], p);
    }
  }

  /** What `build_query` writes for one piece. */
  function Piece(p: seq<Byte>): (bs: seq<Byte>)
  {
    if p == [] then [] else if |p| > 63 then [63] + p[..63] else [|p|] + p
  }

  lemma CutOne(p: seq<Byte>)
    ensures Cut([p]) == if p == [] then [] else [if |p| > 63 then p[..63] else p]
  {
    assert [p][1..] == [];
  }

  lemma CutShortAdds(done: seq<seq<Byte>>, p: seq<Byte>)
    requires forall l | l in Cut(done) :: |l| < 64
    ensures forall l | l in Cut(done + [p]) :: |l| < 64
  {
    CutAdds(done, p);
    CutOne(p);
  }

  lemma EncodeCutAdds(done: seq<seq<Byte>>, p: seq<Byte>)
    requires (forall l | l in Cut(done) :: |l| < 64) && (forall l | l in Cut(done + [p]) :: |l| < 64)
    ensures Encode(Cut(done + [p])) == Encode(Cut(done)) + Piece(p)
  {
    CutAdds(done, p);
    CutOne(p);
    var cut := Cut(done);
    if p == [] {
      assert cut + [] == cut;
    } else {
      EncodeAdds(cut, if |p| > 63 then p[..63] else p);
    }
  }

  method BuildQuery(id: nat, name: seq<Byte>, qtype: nat) returns (out: seq<Byte>)
    requires id < 0x1_0000 && qtype < 0x1_0000
    ensures out == Built(id, name, qtype)
  {
    out := U16Bytes(id) + U16Bytes(0x0100) + U16Bytes(1) + [0, 0, 0, 0, 0, 0];
    ghost var head := out;
    var pieces := SplitOn(TrimEndChar(name, DOT), DOT);
    for i := 0 to |pieces|
      invariant forall l | l in Cut(pieces[..i]) :: |l| < 64
      invariant out == head + Encode(Cut(pieces[..i]))
    {
      assert pieces[..i + 1] == pieces[..i] + [pieces[i]];
      CutShortAdds(pieces[..i], pieces[i]);
      EncodeCutAdds(pieces[..i], pieces[i]);
      Assoc(head, Encode(Cut(pieces[..i])), Piece(pieces[i]));
      out := out + Piece(pieces[i]);
    }
    assert pieces[..|pieces|] == pieces;
    out := out + [0] + U16Bytes(qtype) + U16Bytes(CLASS_IN);
  }

  function WireLength(labels: seq<seq<Byte>>): (n: nat)
  {
    if labels == [] then 0 else |labels[0]| + 1 + WireLength(labels[1..])
  }

  /** Encoded labels, the closing zero and what follows. */
  function EncodedThen(labels: seq<seq<Byte>>, rest: seq<Byte>): (bs: seq<Byte>)
    requires forall l | l in labels :: |l| < 64
  {
    if labels == [] then [0] + rest else [|labels[0]|] + labels[0] + EncodedThen(labels[1..], rest)
  }

  lemma {:induction false} EncodedThenIs(labels: seq<seq<Byte>>, rest: seq<Byte>)
    requires forall l | l in labels :: |l| < 64
    ensures EncodedThen(labels, rest) == Encode(labels) + ([0] + rest)
  {
    if labels != [] {
      EncodedThenIs(labels[1..], rest);
      Assoc([|labels[0]|] + labels[0], Encode(labels[1..]), [0] + rest);
    }
  }

  /** Encoded labels read back while they fit in a name, and not otherwise. */
  lemma {:induction false} LabelsReadBack(pre: seq<Byte>, labels: seq<seq<Byte>>, rest: seq<Byte>, nameLen: nat)
    requires forall l | l in labels :: 1 <= |l| < 64
    ensures Labels(pre + EncodedThen(labels, rest), |pre|, nameLen)
            == if labels == [] || nameLen + WireLength(labels) <= 255
               then Some((labels, |pre| + WireLength(labels) + 1)) else None
    decreases |labels|
  {
    hide Labels;
    if labels == [] {
      LabelsEnd(pre, rest, nameLen);
    } else {
      var l, more := labels[0], labels[1..];
      assert l in labels && [l] + more == labels;
      assert forall m | m in more :: m in labels;
      var tail := EncodedThen(more, rest);
      Assoc(pre, [|l|] + l, tail);
      LabelsReadBack(pre + ([|l|] + l), more, rest, nameLen + |l| + 1);
      LabelsThrough(pre, l, tail, nameLen, more, WireLength(more) + 1);
    }
  }

  lemma LabelsEnd(pre: seq<Byte>, rest: seq<Byte>, nameLen: nat)
    ensures Labels(pre + ([0] + rest), |pre|, nameLen) == Some(([], |pre| + 1))
  {
    assert (pre + ([0] + rest))[|pre|] == 0;
  }

  lemma LabelsThrough(pre: seq<Byte>, l: seq<Byte>, tail: seq<Byte>, nameLen: nat, more: seq<seq<Byte>>, n: nat)
    requires 1 <= |l| < 64
    requires var r := Labels(pre + ([|l|] + l) + tail, |pre + ([|l|] + l)|, nameLen + |l| + 1);
             r == None || r == Some((more, |pre + ([|l|] + l)| + n))
    ensures Labels(pre + ([|l|] + l + tail), |pre|, nameLen)
            == if nameLen + |l| + 1 > 255
                  || Labels(pre + ([|l|] + l) + tail, |pre + ([|l|] + l)|, nameLen + |l| + 1) == None
               then None else Some(([l] + more, |pre| + |l| + 1 + n))
  {
    LabelsStep(pre, l, tail, nameLen);
    Assoc(pre, [|l|] + l, tail);
  }

  lemma LabelsStep(pre: seq<Byte>, l: seq<Byte>, tail: seq<Byte>, nameLen: nat)
    requires 1 <= |l| < 64
    ensures var buf := pre + ([|l|] + l + tail);
            Labels(buf, |pre|, nameLen)
            == if nameLen + |l| + 1 > 255 then None
               else match Labels(buf, |pre| + 1 + |l|, nameLen + |l| + 1)
                 case None => None
                 case Some((labels, end)) => Some(([l] + labels, end))
  {
    var buf := pre + ([|l|] + l + tail);
    assert buf[|pre|] == |l|;
    assert buf[|pre| + 1..|pre| + 1 + |l|] == l;
  }

  /** What `parse_query` makes of `build_query`. */
  lemma BuiltParses(id: nat, name: seq<Byte>, qtype: nat)
    requires id < 0x1_0000 && qtype < 0x1_0000
    ensures var labels, r := NameLabels(name), Parsed(Built(id, name, qtype));
            if WireLength(labels) <= 255
            then r.Ok? && r.value.id == id && r.value.name == Join(Texts(labels), ".")
                 && r.value.qtype == qtype && r.value.qclass == CLASS_IN
            else r == Err(Malformed(id, RCODE_FORMERR))
  {
    CutIsShort(SplitOn(TrimEndChar(name, DOT), DOT));
    BuiltShape(id, name, qtype);
    PlainQueryParses(Built(id, name, qtype), U16Bytes(id) + U16Bytes(0x0100) + U16Bytes(1) + [0, 0, 0, 0, 0, 0], NameLabels(name),
                     U16Bytes(qtype) + U16Bytes(CLASS_IN), id, qtype);
  }

  lemma EncodedNonempty(labels: seq<seq<Byte>>)
    ensures labels == [] ==> WireLength(labels) == 0
  {
  }

  lemma PlainLabels(head: seq<Byte>, labels: seq<seq<Byte>>, tail: seq<Byte>)
    requires |head| == HEADER_LEN && forall l | l in labels :: 1 <= |l| < 64
    ensures Labels(head + EncodedThen(labels, tail), HEADER_LEN, 0)
            == if labels == [] || WireLength(labels) <= 255 then Some((labels, HEADER_LEN + WireLength(labels) + 1)) else None
  {
    LabelsReadBack(head, labels, tail, 0);
  }

  lemma PlainQueryParses(buf: seq<Byte>, head: seq<Byte>, labels: seq<seq<Byte>>, tail: seq<Byte>, id: nat, qtype: nat)
    requires id < 0x1_0000 && qtype < 0x1_0000 && forall l | l in labels :: 1 <= |l| < 64
    requires head == U16Bytes(id) + U16Bytes(0x0100) + U16Bytes(1) + [0, 0, 0, 0, 0, 0]
    requires tail == U16Bytes(qtype) + U16Bytes(CLASS_IN)
    requires buf == head + EncodedThen(labels, tail)
    ensures var r := Parsed(buf);
            if WireLength(labels) <= 255
            then r.Ok? && r.value.id == id && r.value.name == Join(Texts(labels), ".")
                 && r.value.qtype == qtype && r.value.qclass == CLASS_IN
            else r == Err(Malformed(id, RCODE_FORMERR))
  {
    BuiltReads(head, labels, tail, id, qtype);
    EncodedNonempty(labels);
    PlainLabels(head, labels, tail);
    ParsedFrom(buf, id, qtype, labels, HEADER_LEN + WireLength(labels) + 1);
  }

  lemma BuiltShape(id: nat, name: seq<Byte>, qtype: nat)
    requires id < 0x1_0000 && qtype < 0x1_0000
    ensures forall l | l in NameLabels(name) :: |l| < 64
    ensures Built(id, name, qtype)
            == (U16Bytes(id) + U16Bytes(0x0100) + U16Bytes(1) + [0, 0, 0, 0, 0, 0])
               + EncodedThen(NameLabels(name), U16Bytes(qtype) + U16Bytes(CLASS_IN))
  {
    CutIsShort(SplitOn(TrimEndChar(name, DOT), DOT));
    var head := U16Bytes(id) + U16Bytes(0x0100) + U16Bytes(1) + [0, 0, 0, 0, 0, 0];
    var body := Encode(NameLabels(name));
    EncodedThenIs(NameLabels(name), U16Bytes(qtype) + U16Bytes(CLASS_IN));
    Assoc([0], U16Bytes(qtype), U16Bytes(CLASS_IN));
    Assoc(head, body, [0] + (U16Bytes(qtype) + U16Bytes(CLASS_IN)));
    Assoc(head + body, [0] + U16Bytes(qtype), U16Bytes(CLASS_IN));
    Assoc(head + body, [0], U16Bytes(qtype));
  }

  lemma BuiltReads(head: seq<Byte>, labels: seq<seq<Byte>>, tail: seq<Byte>, id: nat, qtype: nat)
    requires id < 0x1_0000 && qtype < 0x1_0000 && forall l | l in labels :: |l| < 64
    requires head == U16Bytes(id) + U16Bytes(0x0100) + U16Bytes(1) + [0, 0, 0, 0, 0, 0]
    requires tail == U16Bytes(qtype) + U16Bytes(CLASS_IN)
    ensures var buf, end := head + EncodedThen(labels, tail), HEADER_LEN + WireLength(labels) + 1;
            && U16At(buf, 0) == Some(id) && U16At(buf, 2) == Some(0x0100) && U16At(buf, 4) == Some(1)
            && U16At(buf, end) == Some(qtype) && U16At(buf, end + 2) == Some(CLASS_IN)
  {
    BuiltHeader(head + EncodedThen(labels, tail), head, id, EncodedThen(labels, tail));
    EncodedThenIs(labels, tail);
    EncodeLength(labels);
    Assoc(Encode(labels), [0], tail);
    Assoc(head, Encode(labels) + [0], tail);
    BuiltTail(head + (Encode(labels) + [0]) + tail, head + (Encode(labels) + [0]), qtype);
  }

  lemma {:induction false} EncodeLength(labels: seq<seq<Byte>>)
    requires forall l | l in labels :: |l| < 64
    ensures |Encode(labels)| == WireLength(labels)
  {
    if labels != [] {
      EncodeLength(labels[1..]);
    }
  }

  lemma BuiltTail(buf: seq<Byte>, pre: seq<Byte>, qtype: nat)
    requires qtype < 0x1_0000 && buf == pre + (U16Bytes(qtype) + U16Bytes(CLASS_IN))
    ensures U16At(buf, |pre|) == Some(qtype) && U16At(buf, |pre| + 2) == Some(CLASS_IN)
  {
  }

  /** `Parsed` when the header says a plain query and the labels are known. */
  lemma ParsedFrom(buf: seq<Byte>, id: nat, qtype: nat, labels: seq<seq<Byte>>, end: nat)
    requires |buf| >= HEADER_LEN && U16At(buf, 0) == Some(id) && U16At(buf, 2) == Some(0x0100) && U16At(buf, 4) == Some(1)
    requires Labels(buf, HEADER_LEN, 0) == None || Labels(buf, HEADER_LEN, 0) == Some((labels, end))
    requires U16At(buf, end) == Some(qtype) && U16At(buf, end + 2) == Some(CLASS_IN)
    ensures var r := Parsed(buf);
            if Labels(buf, HEADER_LEN, 0).Some?
            then r.Ok? && r.value.id == id && r.value.name == Join(Texts(labels), ".")
                 && r.value.qtype == qtype && r.value.qclass == CLASS_IN
            else r == Err(Malformed(id, RCODE_FORMERR))
  {
  }

  lemma BuiltHeader(buf: seq<Byte>, head: seq<Byte>, id: nat, rest: seq<Byte>)
    requires id < 0x1_0000 && head == U16Bytes(id) + U16Bytes(0x0100) + U16Bytes(1) + [0, 0, 0, 0, 0, 0]
    requires buf == head + rest
    ensures |head| == HEADER_LEN && U16At(buf, 0) == Some(id) && U16At(buf, 2) == Some(0x0100) && U16At(buf, 4) == Some(1)
  {
  }

  /** A name `build_query` writes as it stands: nothing, or labels of 1 to 63 bytes. */
  predicate WritableName(name: seq<Byte>)
  {
    name == [] || forall p | p in SplitOn(name, DOT) :: 1 <= |p| < 64
  }

  lemma {:induction false} CutKeeps(pieces: seq<seq<Byte>>)
    requires forall p | p in pieces :: 1 <= |p| < 64
    ensures Cut(pieces) == pieces
  {
    if pieces != [] {
      assert pieces[0] in pieces;
      CutKeeps(pieces[1..]);
    }
  }

  lemma {:induction false} TextsOfAscii(labels: seq<seq<Byte>>)
    requires forall l | l in labels :: Ascii(l)
    ensures Ascii(Join(labels, [DOT])) && Join(Texts(labels), ".") == AsciiText(Join(labels, [DOT]))
  {
    if labels != [] {
      assert labels[0] in labels;
      LossyOfAscii(labels[0]);
      if |labels| > 1 {
        TextsOfAscii(labels[1..]);
        assert Texts(labels)[1..] == Texts(labels[1..]);
        var joined := Join(labels[1..], [DOT]);
        assert AsciiText(labels[0] + [DOT] + joined) == AsciiText(labels[0]) + "." + AsciiText(joined);
      }
    }
  }

  lemma {:induction false} CutOfAscii(pieces: seq<seq<Byte>>)
    requires forall p | p in pieces :: Ascii(p)
    ensures forall l | l in Cut(pieces) :: Ascii(l)
  {
    if pieces != [] {
      assert pieces[0] in pieces;
      CutOfAscii(pieces[1..]);
    }
  }

  lemma {:induction false} SplitOfAscii(s: seq<Byte>)
    requires Ascii(s)
    ensures forall p | p in SplitOn(s, DOT) :: Ascii(p)
    decreases |s|
  {
    var i := Find(s, DOT);
    if i < |s| {
      SplitOfAscii(s[i + 1..]);
    }
  }

  lemma AsciiTextInjective(a: seq<Byte>, b: seq<Byte>)
    requires Ascii(a) && Ascii(b) && AsciiText(a) == AsciiText(b)
    ensures a == b
  {
    forall i | 0 <= i < |a| ensures a[i] == b[i] {
      assert AsciiText(a)[i] == AsciiText(b)[i];
    }
  }

  /** A query built for an ASCII name parses back to that name exactly when its
      labels have 1 to 63 bytes and the whole fits in 255. */
  lemma QueryRoundTrip(id: nat, name: seq<Byte>, qtype: nat)
    requires id < 0x1_0000 && qtype < 0x1_0000 && Ascii(name)
    ensures var r := Parsed(Built(id, name, qtype));
            (r.Ok? && r.value.name == AsciiText(name))
            <==> (WritableName(name) && WireLength(NameLabels(name)) <= 255)
    ensures var r := Parsed(Built(id, name, qtype));
            r.Ok? ==> r.value.id == id && r.value.qtype == qtype && r.value.qclass == CLASS_IN
  {
    BuiltParses(id, name, qtype);
    var labels := NameLabels(name);
    var trimmed := TrimEndChar(name, DOT);
    assert Ascii(trimmed);
    SplitOfAscii(trimmed);
    CutOfAscii(SplitOn(trimmed, DOT));
    TextsOfAscii(labels);
    if WritableName(name) {
      WritableIsKept(name);
    }
    if Join(Texts(labels), ".") == AsciiText(name) {
      AsciiTextInjective(Join(labels, [DOT]), name);
      KeptIsWritable(name);
    }
  }

  lemma WritableIsKept(name: seq<Byte>)
    requires WritableName(name)
    ensures Join(NameLabels(name), [DOT]) == name
  {
    JoinOfSplit(name, DOT);
    if name == [] {
      assert SplitOn(name, DOT) == [name];
      assert Cut([name]) == [];
    } else {
      LastPiece(name);
      CutKeeps(SplitOn(name, DOT));
    }
  }

  /** A name whose last piece is not empty does not end in a dot. */
  lemma LastPiece(name: seq<Byte>)
    requires name != [] && forall p | p in SplitOn(name, DOT) :: |p| >= 1
    ensures TrimEndChar(name, DOT) == name
  {
    if name[|name| - 1] == DOT {
      EndsEmpty(name, DOT);
    }
  }

  lemma KeptIsWritable(name: seq<Byte>)
    requires Join(NameLabels(name), [DOT]) == name
    ensures WritableName(name)
  {
    var labels := NameLabels(name);
    CutIsShort(SplitOn(TrimEndChar(name, DOT), DOT));
    if labels != [] {
      SplitOfJoin(labels, DOT);
    }
  }
}
