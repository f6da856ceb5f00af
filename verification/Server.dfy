/** The resolver's dispatcher: answer from the table, forward everything else. */
module Server {
  import opened Text
  import Hosts
  import opened Wire

  const PROBE_NAME := "health.wsl-zerotrust.invalid"

  datatype Content = NotFound | Unreadable | Readable(text: string)

  /** The hosts file as one refresh finds it. */
  datatype HostsFile = HostsFile(modified: Option<nat>, content: Content)

  /** No file counts as no entries; one that cannot be loaded gives no table. */
  function Load(ip: Hosts.IpText, content: Content): (t: Option<Hosts.Table>)
  {
    match content
    case NotFound => Some(Hosts.EMPTY)
    case Unreadable => None
    case Readable(text) => match Hosts.Parsed(ip, text) case Ok(t) => Some(t) case Err(_) => None
  }

  /** A served table, and the time of the file it was last looked up in. */
  datatype Cache = Cache(table: Hosts.Table, modified: Option<nat>)

  /** Reloads when the file's time changed; a file that fails to load leaves the
      table as it was. */
  function Reloaded(ip: Hosts.IpText, c: Cache, file: HostsFile): (c': Cache)
  {
    if c.modified == file.modified then c
    else match Load(ip, file.content)
      case Some(t) => Cache(t, file.modified)
      case None => Cache(c.table, file.modified)
  }

  /** The reply of the first upstream that gives one. */
  function FirstReply(upstreams: seq<Option<seq<Byte>>>): (r: Option<seq<Byte>>)
  {
    if upstreams == [] then None
    else if upstreams[0].Some? then upstreams[0] else FirstReply(upstreams[1..])
  }

  predicate IsProbe(name: string)
  {
    Lower(name) == Lower(PROBE_NAME)
  }

  /** One datagram in, at most one out. `upstreams` is what each would reply. */
  function Handled(t: Hosts.Table, ttl: nat, query: seq<Byte>, upstreams: seq<Option<seq<Byte>>>): (reply: Option<seq<Byte>>)
    requires ttl < 0x1_0000_0000
  {
    match Parsed(query)
    case Err(Truncated) => None
    case Err(Malformed(id, rcode)) => Some(ErrorForId(id, rcode))
    case Ok(q) =>
      if IsProbe(q.name) then Some(Answered(q, [], 0))
      else match Hosts.Lookup(t, q.name)
        case Some(records) => Some(Answered(q, records, ttl))
        case None =>
          match FirstReply(upstreams)
          case Some(reply) => Some(reply)
          case None => Some(ErrorFor(q, RCODE_SERVFAIL))
  }

  class Resolver {
    const ip: Hosts.IpText
    const ttl: nat
    var overrides: Hosts.Table
    var modified: Option<nat>

    predicate Valid()
    {
      ttl < 0x1_0000_0000
    }

    /** Reloads the table when the file's time changed; a table that fails to
        load is not replaced. */
    method Refresh(file: HostsFile)
      modifies this
      ensures Cache(overrides, modified) == Reloaded(ip, Cache(old(overrides), old(modified)), file)
    {
      if modified == file.modified {
        return;
      }
      modified := file.modified;
      match Load(ip, file.content) {
        case Some(t) => overrides := t;
        case None =>
      }
    }

    method Handle(query: seq<Byte>, file: HostsFile, upstreams: seq<Option<seq<Byte>>>) returns (reply: Option<seq<Byte>>)
      requires Valid()
      modifies this
      ensures reply == Handled(overrides, ttl, query, upstreams)
      // A packet that is not a query, and the probe, do not touch the table.
      ensures Parsed(query).Err? || IsProbe(Parsed(query).value.name) ==>
                overrides == old(overrides) && modified == old(modified)
      ensures Parsed(query).Ok? && !IsProbe(Parsed(query).value.name) ==>
                Cache(overrides, modified) == Reloaded(ip, Cache(old(overrides), old(modified)), file)
    {
      var parsed := ParseQuery(query);
      match parsed {
        case Err(Truncated) => return None;
        case Err(Malformed(id, rcode)) => return Some(ErrorForId(id, rcode));
        case Ok(question) =>
          if IsProbe(question.name) {
            var probe := Answer(question, [], 0);
            return Some(probe);
          }
          Refresh(file);
          match Hosts.Lookup(overrides, question.name) {
            case Some(records) =>
              var answer := Answer(question, records, ttl);
              return Some(answer);
            case None =>
          }
          assert upstreams[0..] == upstreams;
          for i := 0 to |upstreams|
            invariant FirstReply(upstreams) == FirstReply(upstreams[i..])
          {
            assert upstreams[i..][1..] == upstreams[i + 1..];
            if upstreams[i].Some? {
              return upstreams[i];
            }
          }
          reply := Some(ErrorFor(question, RCODE_SERVFAIL));
      }
    }
  }

  // ---- What a running server serves ----

  /** After `bind` on the first file, and a refresh on each of the others in turn. */
  function Served(ip: Hosts.IpText, files: seq<HostsFile>): (c: Cache)
    requires files != [] && Load(ip, files[0].content).Some?
    decreases |files|
  {
    var last := |files| - 1;
    if last == 0 then Cache(Load(ip, files[0].content).value, files[0].modified)
    else Reloaded(ip, Served(ip, files[..last]), files[last])
  }

  /** The files whose time differs from the one before. */
  function Noticed(files: seq<HostsFile>): (noticed: seq<HostsFile>)
    decreases |files|
  {
    var last := |files| - 1;
    if last <= 0 then files
    else if files[last].modified == files[last - 1].modified then Noticed(files[..last])
    else Noticed(files[..last]) + [files[last]]
  }

  /** The table of the last file that loads. */
  function LastLoaded(ip: Hosts.IpText, files: seq<HostsFile>): (t: Option<Hosts.Table>)
    decreases |files|
  {
    var last := |files| - 1;
    if last < 0 then None
    else if Load(ip, files[last].content).Some? then Load(ip, files[last].content)
    else LastLoaded(ip, files[..last])
  }

  lemma LastLoadedOfMore(ip: Hosts.IpText, files: seq<HostsFile>, file: HostsFile)
    ensures LastLoaded(ip, files + [file])
            == if Load(ip, file.content).Some? then Load(ip, file.content) else LastLoaded(ip, files)
  {
    assert (files + [file])[..|files|] == files;
  }

  /** However often the hosts file changed, broke and was mended, the table served is
      that of the last version that loads, among the versions whose time was new. */
  lemma {:induction false} ServesLastNoticed(ip: Hosts.IpText, files: seq<HostsFile>)
    requires files != [] && Load(ip, files[0].content).Some?
    ensures Served(ip, files).modified == files[|files| - 1].modified
    ensures LastLoaded(ip, Noticed(files)) == Some(Served(ip, files).table)
    decreases |files|
  {
    var last := |files| - 1;
    if last > 0 {
      assert files[..last][0] == files[0] && files[..last][last - 1] == files[last - 1];
      ServesLastNoticed(ip, files[..last]);
      LastLoadedOfMore(ip, Noticed(files[..last]), files[last]);
    }
  }

  /** An edit always changes the file's time. */
  predicate TimesTell(files: seq<HostsFile>)
  {
    forall i | 0 < i < |files| && files[i].modified == files[i - 1].modified :: files[i].content == files[i - 1].content
  }

  /** Then nothing is missed: it is the last version that loads. */
  lemma {:induction false} ServesLastLoaded(ip: Hosts.IpText, files: seq<HostsFile>)
    requires files != [] && Load(ip, files[0].content).Some? && TimesTell(files)
    ensures LastLoaded(ip, files) == Some(Served(ip, files).table)
  {
    ServesLastNoticed(ip, files);
    NoticedSuffices(ip, files);
  }

  lemma {:induction false} NoticedSuffices(ip: Hosts.IpText, files: seq<HostsFile>)
    requires TimesTell(files)
    ensures LastLoaded(ip, Noticed(files)) == LastLoaded(ip, files)
    decreases |files|
  {
    var last := |files| - 1;
    if last > 0 {
      var before := files[..last];
      assert before[last - 1] == files[last - 1];
      NoticedSuffices(ip, before);
      LastLoadedOfMore(ip, Noticed(before), files[last]);
      if files[last].modified == files[last - 1].modified {
        assert files[last].content == before[last - 1].content;
      }
    }
  }

  /** An overridden name is answered from the table alone: whatever the upstreams
      say, the reply reads back as the table's addresses of the asked family, and
      as no data for any other type, class or family. */
  lemma OverriddenAnsweredFromTable(t: Hosts.Table, ttl: nat, query: seq<Byte>, upstreams: seq<Option<seq<Byte>>>)
    requires ttl < 0x1_0000_0000 && Parsed(query).Ok? && !IsProbe(Parsed(query).value.name)
    requires Hosts.Lookup(t, Parsed(query).value.name).Some?
    ensures var q := Parsed(query).value;
            var asked := Matching(q.qtype, q.qclass, Hosts.Lookup(t, q.name).value);
            var reply := Handled(t, ttl, query, upstreams);
            && reply.Some? && reply == Handled(t, ttl, query, [])
            && ReadResponse(reply.value).Some? && ReadResponse(reply.value).value.id == q.id
            && ReadResponse(reply.value).value.rcode == RCODE_NOERROR && ReadResponse(reply.value).value.authoritative
            && (ReadResponse(reply.value).value.addresses == asked <==> |asked| < 0x1_0000)
  {
    var q := Parsed(query).value;
    AnswerReadsBack(query, Hosts.Lookup(t, q.name).value, ttl);
  }

  /** `Matching` keeps exactly the addresses of the asked family, in order. */
  lemma {:induction false} MatchingIsFamily(qtype: nat, qclass: nat, addresses: seq<IpAddr>)
    ensures forall a :: a in Matching(qtype, qclass, addresses)
                        <==> a in addresses && qclass == CLASS_IN && qtype == (if a.V4? then TYPE_A else TYPE_AAAA)
    ensures (forall a | a in addresses :: qclass == CLASS_IN && qtype == (if a.V4? then TYPE_A else TYPE_AAAA))
            ==> Matching(qtype, qclass, addresses) == addresses
  {
    if addresses != [] {
      MatchingIsFamily(qtype, qclass, addresses[1..]);
      assert addresses == [addresses[0]] + addresses[1..];
      assert addresses[0] in addresses && forall a | a in addresses[1..] :: a in addresses;
    }
  }

  /** A name that is not overridden, and not the probe, gets the first upstream's
      reply as it came, or SERVFAIL under its own id. */
  lemma OthersForwarded(t: Hosts.Table, ttl: nat, query: seq<Byte>, upstreams: seq<Option<seq<Byte>>>)
    requires ttl < 0x1_0000_0000 && Parsed(query).Ok? && !IsProbe(Parsed(query).value.name)
    requires Hosts.Lookup(t, Parsed(query).value.name).None?
    ensures forall i | 0 <= i < |upstreams| && upstreams[i].Some? && (forall j | 0 <= j < i :: upstreams[j].None?)
              :: Handled(t, ttl, query, upstreams) == upstreams[i]
    ensures (forall i | 0 <= i < |upstreams| :: upstreams[i].None?) ==>
              var reply := Handled(t, ttl, query, upstreams);
              reply.Some? && ReadResponse(reply.value) == Some(Response(Parsed(query).value.id, RCODE_SERVFAIL, false, []))
  {
    forall i | 0 <= i < |upstreams| && upstreams[i].Some? && (forall j | 0 <= j < i :: upstreams[j].None?)
      ensures FirstReply(upstreams) == upstreams[i]
    {
      FirstReplyIs(upstreams, i);
    }
    if forall i | 0 <= i < |upstreams| :: upstreams[i].None? {
      NoReply(upstreams);
      ErrorsReadBack(query, RCODE_SERVFAIL);
    }
  }

  lemma {:induction false} FirstReplyIs(upstreams: seq<Option<seq<Byte>>>, i: nat)
    requires i < |upstreams| && upstreams[i].Some? && forall j | 0 <= j < i :: upstreams[j].None?
    ensures FirstReply(upstreams) == upstreams[i]
    decreases i
  {
    if i > 0 {
      FirstReplyIs(upstreams[1..], i - 1);
    }
  }

  lemma {:induction false} NoReply(upstreams: seq<Option<seq<Byte>>>)
    requires forall i | 0 <= i < |upstreams| :: upstreams[i].None?
    ensures FirstReply(upstreams) == None
  {
    if upstreams != [] {
      NoReply(upstreams[1..]);
    }
  }
}
