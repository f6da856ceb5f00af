/** The tab-separated listing of an interface, written and read back. */
module Dump {
  import opened Text

  /** A peer as the listing gives it, allowed-ips still text. */
  datatype Listed = Listed(key: string, allowed: seq<string>)

  const NONE := "(none)"

  function ParseAllowed(raw: string): (allowed: seq<string>)
  {
    if raw == NONE || raw == "" then [] else SplitList(raw)
  }

  /** One line after the first; short or keyless ones are passed over. */
  function ParsePeer(line: string): (p: Option<Listed>)
  {
    var fields := SplitOn(line, '\t');
    if |fields| < 4 || fields[0] == "" then None else Some(Listed(fields[0], ParseAllowed(fields[3])))
  }

  function ParsePeers(lines: seq<string>): (ps: seq<Listed>)
  {
    if lines == [] then []
    else (match ParsePeer(lines[0]) case Some(p) => [p] case None => []) + ParsePeers(lines[1..])
  }

  /** `parse_wg_dump`: the first line is the interface's own. */
  function ParseDump(dump: string): (ps: seq<Listed>)
  {
    var lines := Lines(dump);
    if lines == [] then [] else ParsePeers(lines[1..])
  }

  // ---- What `wg` writes ----

  /** A peer of the interface, every field as text. */
  datatype Shown = Shown(key: string, preshared: string, endpoint: string, allowed: seq<string>, handshake: string,
                         rx: string, tx: string, keepalive: string)

  function Fields(p: Shown): (fields: seq<string>)
  {
    [p.key, p.preshared, p.endpoint, if p.allowed == [] then NONE else Join(p.allowed, ","), p.handshake, p.rx, p.tx, p.keepalive]
  }

  function PeerLine(p: Shown): (line: string)
  {
    Join(Fields(p), "\t")
  }

  function PeerLines(ps: seq<Shown>): (lines: seq<string>)
    ensures |lines| == |ps| && forall i | 0 <= i < |ps| :: lines[i] == PeerLine(ps[i])
  {
    seq(|ps|, i requires 0 <= i < |ps| => PeerLine(ps[i]))
  }

  function DumpText(own: string, ps: seq<Shown>): (text: string)
  {
    Unlines([own] + PeerLines(ps))
  }

  // ---- It reads back ----

  predicate Field(s: string)
  {
    '\t' !in s && '\n' !in s && '\r' !in s
  }

  predicate Block(s: string)
  {
    Field(s) && s != "" && s != NONE && Trimmed(s) && ',' !in s
  }

  predicate Plain(p: Shown)
  {
    && Field(p.key) && Field(p.preshared) && Field(p.endpoint) && Field(p.handshake) && Field(p.rx) && Field(p.tx)
    && Field(p.keepalive) && p.key != "" && forall a | a in p.allowed :: Block(a)
  }

  lemma {:induction false} TrimAllBlocks(items: seq<string>)
    requires forall a | a in items :: Block(a)
    ensures TrimAll(items) == items
  {
    if items != [] {
      assert Block(items[0]);
      TrimOfTrimmed(items[0]);
      TrimAllBlocks(items[1..]);
    }
  }

  lemma {:induction false} JoinIsField(items: seq<string>)
    requires forall a | a in items :: Block(a)
    ensures Field(Join(items, ","))
  {
    if items != [] {
      assert Block(items[0]);
      JoinIsField(items[1..]);
    }
  }

  /** A list is never mistaken for the word that stands for none. */
  lemma ListIsNotNone(items: seq<string>)
    requires items != [] && forall a | a in items :: Block(a)
    ensures Join(items, ",") != NONE && Join(items, ",") != ""
  {
    assert Block(items[0]);
    if |items| > 1 {
      assert Join(items, ",")[|items[0]|] == ',';
      assert ',' !in NONE;
    }
  }

  lemma AllowedReads(items: seq<string>)
    requires forall a | a in items :: Block(a)
    ensures ParseAllowed(if items == [] then NONE else Join(items, ",")) == items
  {
    if items != [] {
      ListIsNotNone(items);
      SplitOfJoin(items, ',');
      TrimAllBlocks(items);
    }
  }

  lemma FieldsPlain(p: Shown)
    requires Plain(p)
    ensures forall f | f in Fields(p) :: Field(f)
  {
    JoinIsField(p.allowed);
    assert Field(NONE);
  }

  lemma PeerReads(p: Shown)
    requires Plain(p)
    ensures ParsePeer(PeerLine(p)) == Some(Listed(p.key, p.allowed))
  {
    FieldsPlain(p);
    assert forall f | f in Fields(p) :: Field(f);
    SplitOfJoin(Fields(p), '\t');
    AllowedReads(p.allowed);
  }

  lemma {:induction false} JoinPlain(fields: seq<string>)
    requires forall f | f in fields :: Field(f)
    ensures '\n' !in Join(fields, "\t") && '\r' !in Join(fields, "\t")
  {
    if fields != [] {
      assert Field(fields[0]);
      JoinPlain(fields[1..]);
    }
  }

  lemma PeerLinePlain(p: Shown)
    requires Plain(p)
    ensures PlainLine(PeerLine(p))
  {
    FieldsPlain(p);
    JoinPlain(Fields(p));
    var l := PeerLine(p);
    assert l != "" ==> l[|l| - 1] in l;
  }

  function Entries(ps: seq<Shown>): (ls: seq<Listed>)
    ensures |ls| == |ps| && forall i | 0 <= i < |ps| :: ls[i] == Listed(ps[i].key, ps[i].allowed)
  {
    seq(|ps|, i requires 0 <= i < |ps| => Listed(ps[i].key, ps[i].allowed))
  }

  lemma {:induction false} PeersRead(ps: seq<Shown>)
    requires forall p | p in ps :: Plain(p)
    ensures ParsePeers(PeerLines(ps)) == Entries(ps)
  {
    if ps != [] {
      PeerReads(ps[0]);
      assert PeerLines(ps)[1..] == PeerLines(ps[1..]);
      PeersRead(ps[1..]);
      assert Entries(ps) == [Listed(ps[0].key, ps[0].allowed)] + Entries(ps[1..]);
    }
  }

  /** Every peer of the interface is read, in order, with exactly its allowed-ips;
      a peer without any reads back as having none. */
  lemma DumpReadsBack(own: string, ps: seq<Shown>)
    requires PlainLine(own) && forall p | p in ps :: Plain(p)
    ensures ParseDump(DumpText(own, ps)) == Entries(ps)
  {
    var lines := [own] + PeerLines(ps);
    forall l | l in lines ensures PlainLine(l) {
      if l != own {
        var i :| 0 <= i < |ps| && PeerLines(ps)[i] == l;
        PeerLinePlain(ps[i]);
      }
    }
    LinesOfUnlines(lines);
    assert lines[1..] == PeerLines(ps);
    PeersRead(ps);
  }
}
