/** Names answered locally: the table, how it is edited, searched and written. */
module Hosts {
  import opened Text
  import Ordering
  import Wire

  type IpAddr = Wire.IpAddr

  /** The text form of addresses, `Display` and `FromStr` of `IpAddr`. */
  datatype IpText = IpText(show: IpAddr -> string, parse: string -> Option<IpAddr>)
  {
    ghost predicate Faithful() {
      forall a: IpAddr :: parse(show(a)) == Some(a) && show(a) != "" && NoWhitespace(show(a)) && '#' !in show(a)
    }
  }

  datatype NameError = Invalid | TooBroad

  datatype Reason = BadAddress | BadName(error: NameError) | NoNames

  datatype ParseError = ParseError(line: nat, reason: Reason)

  // ---- Names ----

  predicate LabelChar(c: char)
  {
    'a' <= c <= 'z' || 'A' <= c <= 'Z' || '0' <= c <= '9' || c == '-' || c == '_'
  }

  predicate ValidLabel(l: string)
  {
    l != "" && |l| <= 63 && l[0] != '-' && l[|l| - 1] != '-' && forall c | c in l :: LabelChar(c)
  }

  /** Lengths are in characters: a name with any character outside ASCII is
      refused for it, so the count of bytes never decides. */
  predicate ValidHost(host: string)
  {
    host != "" && |host| <= 253 && forall l | l in SplitOn(host, '.') :: ValidLabel(l)
  }

  const WILD := "*."

  /** Lower-case a name, drop trailing dots, refuse what is not a host name. */
  function Normalise(name: string): (r: Result<string, NameError>)
  {
    var lowered := Lower(TrimEndChar(Trim(name), '.'));
    var wild := WILD <= lowered;
    var host := if wild then lowered[2..] else lowered;
    if !ValidHost(host) then Err(Invalid)
    else if wild && '.' !in host then Err(TooBroad)
    else Ok(lowered)
  }

  /** A name as it stands in the table. */
  predicate Normal(n: string)
  {
    Normalise(n) == Ok(n)
  }

  lemma HostChars(host: string, i: nat)
    requires ValidHost(host) && i < |host|
    ensures host[i] == '.' || LabelChar(host[i])
  {
    if host[i] != '.' {
      PiecesCover(host, '.', i);
    }
  }

  lemma HostEnd(host: string)
    requires ValidHost(host)
    ensures host[|host| - 1] != '.'
  {
    if host[|host| - 1] == '.' {
      EndsEmpty(host, '.');
    }
  }

  predicate NameChar(c: char)
  {
    c == '*' || c == '.' || LabelChar(c)
  }

  lemma NameChars(n: string, host: string)
    requires ValidHost(host) && (n == host || n == WILD + host)
    ensures forall i | 0 <= i < |n| :: NameChar(n[i])
    ensures n[|n| - 1] != '.' && (n == host ==> n[0] != '*')
  {
    HostEnd(host);
    HostChars(host, 0);
    forall i | 0 <= i < |n| ensures NameChar(n[i]) {
      if n == host {
        HostChars(host, i);
      } else if i >= 2 {
        HostChars(host, i - 2);
      }
    }
  }

  /** What normalising a valid, lower-case name leaves alone. */
  lemma ValidIsNormal(n: string, host: string)
    requires ValidHost(host) && (n == host || (n == WILD + host && '.' in host)) && Lower(n) == n
    ensures Normal(n)
    ensures NoWhitespace(n) && '#' !in n && n[|n| - 1] != '.'
    ensures n == host ==> !(WILD <= n)
  {
    NameChars(n, host);
    TrimOfTrimmed(n);
    assert n != host ==> n[2..] == host;
  }

  /** Normalising is idempotent. */
  lemma NormaliseTwice(name: string)
    requires Normalise(name).Ok?
    ensures Normal(Normalise(name).value)
    ensures NoWhitespace(Normalise(name).value) && '#' !in Normalise(name).value && Normalise(name).value != ""
  {
    var n := Normalise(name).value;
    var host := if WILD <= n then n[2..] else n;
    LowerTwice(TrimEndChar(Trim(name), '.'));
    assert WILD <= n ==> n == WILD + host;
    ValidIsNormal(n, host);
  }

  lemma NormalText(n: string)
    requires Normal(n)
    ensures NoWhitespace(n) && '#' !in n && n != ""
  {
    NormaliseTwice(n);
  }

  // ---- The table ----

  type Records = seq<IpAddr>

  /** `wildcard` is keyed by the suffix after `*.`. */
  datatype Table = Table(exact: map<string, Records>, wildcard: map<string, Records>)

  const EMPTY := Table(map[], map[])

  function Push(records: Records, a: IpAddr): (rs: Records)
  {
    if a in records then records else records + [a]
  }

  function Get(m: map<string, Records>, k: string): (rs: Records)
  {
    if k in m then m[k] else []
  }

  /** One more address for a normalised name. */
  function Inserted(t: Table, a: IpAddr, name: string): (t': Table)
  {
    match StripPrefix(name, WILD)
    case Some(k) => t.(wildcard := t.wildcard[k := Push(Get(t.wildcard, k), a)])
    case None => t.(exact := t.exact[name := Push(Get(t.exact, name), a)])
  }

  function RemovedNormal(t: Table, name: string): (t': Table)
  {
    match StripPrefix(name, WILD)
    case Some(k) => t.(wildcard := t.wildcard - {k})
    case None => t.(exact := t.exact - {name})
  }

  function Removed(t: Table, name: string): (t': Table)
  {
    match Normalise(name)
    case Ok(n) => RemovedNormal(t, n)
    case Err(_) => t
  }

  function SetTo(t: Table, name: string, a: IpAddr): (r: Result<Table, NameError>)
  {
    match Normalise(name)
    case Ok(n) => Ok(Inserted(RemovedNormal(t, n), a, n))
    case Err(e) => Err(e)
  }

  // ---- Reading the file ----

  function InsertNames(t: Table, a: IpAddr, names: seq<string>): (r: Result<Table, Reason>)
    decreases |names|
  {
    if names == [] then Ok(t)
    else match Normalise(names[0])
      case Err(e) => Err(BadName(e))
      case Ok(n) => InsertNames(Inserted(t, a, n), a, names[1..])
  }

  function ParseLine(ip: IpText, t: Table, raw: string): (r: Result<Table, Reason>)
  {
    var line := Trim(Before(raw, '#'));
    var fields := Words(line);
    if line == "" || fields == [] then Ok(t)
    else match ip.parse(fields[0])
      case None => Err(BadAddress)
      case Some(a) =>
        if |fields| == 1 then Err(NoNames) else InsertNames(t, a, fields[1..])
  }

  function ParseLines(ip: IpText, t: Table, lines: seq<string>, lineNo: nat): (r: Result<Table, ParseError>)
    decreases |lines|
  {
    if lines == [] then Ok(t)
    else match ParseLine(ip, t, lines[0])
      case Err(reason) => Err(ParseError(lineNo, reason))
      case Ok(t') => ParseLines(ip, t', lines[1..], lineNo + 1)
  }

  /** The table, or the first line that cannot be read and why. */
  function Parsed(ip: IpText, text: string): (r: Result<Table, ParseError>)
  {
    ParseLines(ip, EMPTY, Lines(text), 1)
  }

  // ---- What every reachable table satisfies ----

  predicate Distinct(rs: Records)
  {
    forall i, j | 0 <= i < j < |rs| :: rs[i] != rs[j]
  }

  predicate GoodRecords(rs: Records)
  {
    rs != [] && Distinct(rs)
  }

  predicate WellFormed(t: Table)
  {
    ExactWell(t.exact) && WildWell(t.wildcard)
  }

  predicate ExactWell(m: map<string, Records>)
  {
    forall k | k in m :: Normal(k) && !(WILD <= k) && GoodRecords(m[k])
  }

  predicate WildWell(m: map<string, Records>)
  {
    forall k | k in m :: Normal(WILD + k) && GoodRecords(m[k])
  }

  lemma PushGood(rs: Records, a: IpAddr)
    requires Distinct(rs)
    ensures GoodRecords(Push(rs, a))
  {
  }

  lemma InsertedExact(t: Table, a: IpAddr, n: string)
    requires WellFormed(t) && Normal(n) && !(WILD <= n)
    ensures WellFormed(Table(t.exact[n := Push(Get(t.exact, n), a)], t.wildcard))
  {
    PushGood(Get(t.exact, n), a);
  }

  lemma InsertedWild(t: Table, a: IpAddr, k: string)
    requires WellFormed(t) && Normal(WILD + k)
    ensures WellFormed(Table(t.exact, t.wildcard[k := Push(Get(t.wildcard, k), a)]))
  {
    PushGood(Get(t.wildcard, k), a);
    WildAdds(t.wildcard, k, Push(Get(t.wildcard, k), a));
  }

  lemma WildAdds(m: map<string, Records>, k: string, rs: Records)
    requires WildWell(m) && Normal(WILD + k) && GoodRecords(rs)
    ensures WildWell(m[k := rs])
  {
  }

  lemma InsertedWellFormed(t: Table, a: IpAddr, n: string)
    requires WellFormed(t) && Normal(n)
    ensures WellFormed(Inserted(t, a, n))
  {
    if WILD <= n {
      assert n == WILD + n[2..];
      InsertedWild(t, a, n[2..]);
    } else {
      InsertedExact(t, a, n);
    }
  }

  lemma {:induction false} InsertNamesWellFormed(t: Table, a: IpAddr, names: seq<string>)
    requires WellFormed(t)
    ensures InsertNames(t, a, names).Ok? ==> WellFormed(InsertNames(t, a, names).value)
    decreases |names|
  {
    if names != [] && Normalise(names[0]).Ok? {
      var n := Normalise(names[0]).value;
      NormaliseTwice(names[0]);
      InsertedWellFormed(t, a, n);
      InsertNamesWellFormed(Inserted(t, a, n), a, names[1..]);
    }
  }

  lemma {:induction false} ParseLinesWellFormed(ip: IpText, t: Table, lines: seq<string>, lineNo: nat)
    requires WellFormed(t)
    ensures ParseLines(ip, t, lines, lineNo).Ok? ==> WellFormed(ParseLines(ip, t, lines, lineNo).value)
    decreases |lines|
  {
    if lines != [] && ParseLine(ip, t, lines[0]).Ok? {
      ParseLineWellFormed(ip, t, lines[0]);
      ParseLinesWellFormed(ip, ParseLine(ip, t, lines[0]).value, lines[1..], lineNo + 1);
    }
  }

  lemma ParseLineWellFormed(ip: IpText, t: Table, raw: string)
    requires WellFormed(t)
    ensures ParseLine(ip, t, raw).Ok? ==> WellFormed(ParseLine(ip, t, raw).value)
  {
    var fields := Words(Trim(Before(raw, '#')));
    if fields != [] && ip.parse(fields[0]).Some? {
      InsertNamesWellFormed(t, ip.parse(fields[0]).value, fields[1..]);
    }
  }

  /** What can be done to a table; a failed one leaves it as it was. */
  datatype Edit = Load(text: string) | Set(name: string, address: IpAddr) | Remove(name: string)

  function Applied(ip: IpText, t: Table, e: Edit): (t': Table)
  {
    match e
    case Load(text) => (match Parsed(ip, text) case Ok(t') => t' case Err(_) => t)
    case Set(name, a) => (match SetTo(t, name, a) case Ok(t') => t' case Err(_) => t)
    case Remove(name) => Removed(t, name)
  }

  function Reached(ip: IpText, edits: seq<Edit>): (t: Table)
  {
    if edits == [] then EMPTY
    else Applied(ip, Reached(ip, edits[..|edits| - 1]), edits[|edits| - 1])
  }

  lemma {:induction false} ReachedWellFormed(ip: IpText, edits: seq<Edit>)
    ensures WellFormed(Reached(ip, edits))
    decreases |edits|
  {
    if edits != [] {
      var before, last := edits[..|edits| - 1], edits[|edits| - 1];
      ReachedWellFormed(ip, before);
      var t := Reached(ip, before);
      match last
      case Load(text) => ParseLinesWellFormed(ip, EMPTY, Lines(text), 1);
      case Set(name, a) =>
        if Normalise(name).Ok? {
          NormaliseTwice(name);
          InsertedWellFormed(RemovedNormal(t, Normalise(name).value), a, Normalise(name).value);
        }
      case Remove(name) =>
    }
  }

  // ---- Writing the file ----

  datatype Entry = Entry(address: IpAddr, name: string)

  function NameEntries(rs: Records, name: string): (es: seq<Entry>)
    ensures |es| == |rs|
  {
    if rs == [] then [] else [Entry(rs[0], name)] + NameEntries(rs[1..], name)
  }

  function KeyEntries(m: map<string, Records>, keys: seq<string>, prefix: string): (es: seq<Entry>)
    requires forall k | k in keys :: k in m
  {
    if keys == [] then [] else NameEntries(m[keys[0]], prefix + keys[0]) + KeyEntries(m, keys[1..], prefix)
  }

  function InOrder(m: map<string, Records>): (keys: seq<string>)
    ensures Ordering.Ascending(keys) && forall k :: k in keys <==> k in m
  {
    var keys := Ordering.Sorted(m.Keys);
    assert forall k :: k in keys <==> k in Ordering.Elements(keys);
    keys
  }

  /** Every entry, one per address and name, in a stable order. */
  function Entries(t: Table): (es: seq<Entry>)
  {
    KeyEntries(t.exact, InOrder(t.exact), "") + KeyEntries(t.wildcard, InOrder(t.wildcard), WILD)
  }

  // In pieces: the verifier reads short literals character by character.
  const HEADER1 := "# Managed by WSL Zero Trust. "
  const HEADER2 := "One address, then the names "
  const HEADER3 := "it answers for."
  const HEADER := HEADER1 + HEADER2 + HEADER3

  lemma HeaderStart()
    ensures '\n' !in HEADER1 && HEADER1[0] == '#'
  {
  }

  lemma HeaderMiddle()
    ensures '\n' !in HEADER2
  {
  }

  lemma HeaderEnd()
    ensures '\n' !in HEADER3 && HEADER3[|HEADER3| - 1] == '.'
  {
  }

  lemma HeaderIsComment()
    ensures PlainLine(HEADER) && HEADER[0] == '#'
  {
    HeaderStart();
    HeaderMiddle();
    HeaderEnd();
  }

  function EntryLine(ip: IpText, e: Entry): (l: string)
  {
    ip.show(e.address) + ("\t" + e.name)
  }

  function EntryLines(ip: IpText, es: seq<Entry>): (ls: seq<string>)
    ensures |ls| == |es|
  {
    if es == [] then [] else [EntryLine(ip, es[0])] + EntryLines(ip, es[1..])
  }

  function Render(ip: IpText, t: Table): (text: string)
  {
    HEADER + "\n" + Unlines(EntryLines(ip, Entries(t)))
  }

  // ---- The text reads back ----

  /** The line of a word without `#` and a name: nothing is cut from it. */
  lemma LineText(a: string, n: string)
    requires a != "" && NoWhitespace(a) && '#' !in a && n != "" && NoWhitespace(n) && '#' !in n
    ensures PlainLine(a + ("\t" + n)) && Trim(Before(a + ("\t" + n), '#')) == a + ("\t" + n)
  {
    var line := a + ("\t" + n);
    assert line[|line| - 1] == n[|n| - 1] && n[|n| - 1] in n;
    assert line[0] == a[0] && a[0] in a;
    forall c | c in line ensures c != '#' && c != '\n' {
      assert c in a || c == '\t' || c in n;
    }
    BeforeIsAll(line, '#');
    TrimOfTrimmed(line);
  }

  /** An entry of a well-formed table, as a line. */
  lemma LineReads(ip: IpText, t: Table, e: Entry)
    requires ip.Faithful() && Normal(e.name)
    ensures PlainLine(EntryLine(ip, e))
    ensures ParseLine(ip, t, EntryLine(ip, e)) == Ok(Inserted(t, e.address, e.name))
  {
    hide Inserted, InsertNames, Normal, NoWhitespace, PlainLine, Trim, Before, Words;
    var a, n := ip.show(e.address), e.name;
    NormalText(n);
    LineText(a, n);
    TwoWords(a, n);
    assert ip.parse(a) == Some(e.address);
    InsertOne(t, e.address, n);
    assert [a, n][1..] == [n];
  }

  lemma InsertOne(t: Table, a: IpAddr, n: string)
    requires Normal(n)
    ensures InsertNames(t, a, [n]) == Ok(Inserted(t, a, n))
  {
    assert [n][1..] == [];
  }

  lemma TwoWords(a: string, n: string)
    requires a != "" && NoWhitespace(a) && n != "" && NoWhitespace(n)
    ensures Words(a + ("\t" + n)) == [a, n]
  {
    WordsHead(a, "\t" + n);
    assert ("\t" + n)[1..] == n;
    WordsHead(n, "");
    assert n + "" == n;
  }

  function InsertAll(t: Table, es: seq<Entry>): (t': Table)
    decreases |es|
  {
    if es == [] then t else InsertAll(Inserted(t, es[0].address, es[0].name), es[1..])
  }

  lemma {:induction false} LinesRead(ip: IpText, t: Table, es: seq<Entry>, lineNo: nat)
    requires ip.Faithful() && forall e | e in es :: Normal(e.name)
    ensures forall l | l in EntryLines(ip, es) :: PlainLine(l)
    ensures ParseLines(ip, t, EntryLines(ip, es), lineNo) == Ok(InsertAll(t, es))
    decreases |es|
  {
    if es != [] {
      assert es[0] in es;
      LineReads(ip, t, es[0]);
      LinesRead(ip, Inserted(t, es[0].address, es[0].name), es[1..], lineNo + 1);
      assert EntryLines(ip, es)[1..] == EntryLines(ip, es[1..]);
    }
  }

  lemma {:induction false} InsertAllAdds(t: Table, a: seq<Entry>, b: seq<Entry>)
    ensures InsertAll(t, a + b) == InsertAll(InsertAll(t, a), b)
    decreases |a|
  {
    if a == [] {
      assert a + b == b;
    } else {
      assert (a + b)[1..] == a[1..] + b;
      InsertAllAdds(Inserted(t, a[0].address, a[0].name), a[1..], b);
    }
  }

  lemma NewIsLast(done: Records, rs: Records)
    requires Distinct(done + rs) && rs != []
    ensures rs[0] !in done
  {
    forall i | 0 <= i < |done| ensures done[i] != rs[0] {
      assert (done + rs)[i] != (done + rs)[|done|];
    }
  }

  /** The next address goes after the ones the name has. */
  lemma InsertedNext(t: Table, done: Records, a: IpAddr, name: string)
    requires a !in done
    requires match StripPrefix(name, WILD)
             case Some(k) => Get(t.wildcard, k) == done
             case None => Get(t.exact, name) == done
    ensures var t' := Inserted(t, a, name);
            match StripPrefix(name, WILD)
            case Some(k) => t' == t.(wildcard := t.wildcard[k := done + [a]]) && Get(t'.wildcard, k) == done + [a]
            case None => t' == t.(exact := t.exact[name := done + [a]]) && Get(t'.exact, name) == done + [a]
  {
    hide StripPrefix;
  }

  /** Inserting a name's addresses one by one appends them in order. */
  lemma {:induction false} NameRebuilt(t: Table, done: Records, rs: Records, name: string)
    requires Distinct(done + rs) && rs != []
    requires match StripPrefix(name, WILD)
             case Some(k) => Get(t.wildcard, k) == done
             case None => Get(t.exact, name) == done
    ensures InsertAll(t, NameEntries(rs, name))
            == match StripPrefix(name, WILD)
               case Some(k) => t.(wildcard := t.wildcard[k := done + rs])
               case None => t.(exact := t.exact[name := done + rs])
    decreases |rs|
  {
    hide Inserted, Get, StripPrefix, Distinct, Push;
    NewIsLast(done, rs);
    InsertedNext(t, done, rs[0], name);
    var t' := Inserted(t, rs[0], name);
    if |rs| == 1 {
      assert NameEntries(rs[1..], name) == [];
      assert rs == [rs[0]];
    } else {
      assert done + [rs[0]] + rs[1..] == done + rs;
      NameRebuilt(t', done + [rs[0]], rs[1..], name);
    }
  }

  /** The part of a map under some of its keys. */
  function Part(m: map<string, Records>, keys: seq<string>): (p: map<string, Records>)
    requires forall k | k in keys :: k in m
  {
    map k | k in keys :: m[k]
  }

  lemma PartGrows(base: map<string, Records>, m: map<string, Records>, keys: seq<string>)
    requires keys != [] && forall k | k in keys :: k in m
    ensures base[keys[0] := m[keys[0]]] + Part(m, keys[1..]) == base + Part(m, keys)
  {
    assert forall k :: k in keys <==> k == keys[0] || k in keys[1..];
  }

  lemma {:induction false} ExactRebuilt(t: Table, m: map<string, Records>, keys: seq<string>)
    requires Ordering.Ascending(keys) && forall k | k in keys :: k in m
    requires forall k | k in keys :: k !in t.exact && !(WILD <= k) && GoodRecords(m[k])
    ensures InsertAll(t, KeyEntries(m, keys, "")) == Table(t.exact + Part(m, keys), t.wildcard)
    decreases |keys|
  {
    if keys == [] {
      assert t.exact + Part(m, keys) == t.exact;
    } else {
      var k, more := keys[0], keys[1..];
      Ordering.AscendingDistinct(keys);
      assert "" + k == k;
      assert [] + m[k] == m[k];
      NameRebuilt(t, [], m[k], k);
      InsertAllAdds(t, NameEntries(m[k], k), KeyEntries(m, more, ""));
      ExactRebuilt(Table(t.exact[k := m[k]], t.wildcard), m, more);
      PartGrows(t.exact, m, keys);
    }
  }

  lemma {:induction false} WildRebuilt(t: Table, m: map<string, Records>, keys: seq<string>)
    requires Ordering.Ascending(keys) && forall k | k in keys :: k in m
    requires forall k | k in keys :: k !in t.wildcard && GoodRecords(m[k])
    ensures InsertAll(t, KeyEntries(m, keys, WILD)) == Table(t.exact, t.wildcard + Part(m, keys))
    decreases |keys|
  {
    if keys == [] {
      assert t.wildcard + Part(m, keys) == t.wildcard;
    } else {
      var k, more := keys[0], keys[1..];
      Ordering.AscendingDistinct(keys);
      WildStripped(k);
      assert [] + m[k] == m[k];
      NameRebuilt(t, [], m[k], WILD + k);
      InsertAllAdds(t, NameEntries(m[k], WILD + k), KeyEntries(m, more, WILD));
      WildRebuilt(Table(t.exact, t.wildcard[k := m[k]]), m, more);
      PartGrows(t.wildcard, m, keys);
    }
  }

  lemma WildStripped(k: string)
    ensures StripPrefix(WILD + k, WILD) == Some(k)
  {
  }

  lemma {:induction false} EntryNames(m: map<string, Records>, keys: seq<string>, prefix: string)
    requires forall k | k in keys :: k in m && Normal(prefix + k)
    ensures forall e | e in KeyEntries(m, keys, prefix) :: Normal(e.name)
    decreases |keys|
  {
    if keys != [] {
      NameEntriesNamed(m[keys[0]], prefix + keys[0]);
      EntryNames(m, keys[1..], prefix);
    }
  }

  lemma {:induction false} NameEntriesNamed(rs: Records, name: string)
    ensures forall e | e in NameEntries(rs, name) :: e.name == name
  {
    if rs != [] {
      NameEntriesNamed(rs[1..], name);
    }
  }

  lemma EntriesNormal(t: Table)
    requires WellFormed(t)
    ensures forall e | e in Entries(t) :: Normal(e.name)
  {
    hide Normal, KeyEntries, Ordering.Ascending;
    var ek, wk := InOrder(t.exact), InOrder(t.wildcard);
    forall k | k in ek ensures Normal("" + k) {
      assert "" + k == k;
    }
    EntryNames(t.exact, ek, "");
    EntryNames(t.wildcard, wk, WILD);
  }

  lemma EntriesRebuild(t: Table)
    requires WellFormed(t)
    ensures InsertAll(EMPTY, Entries(t)) == t
  {
    var ek, wk := InOrder(t.exact), InOrder(t.wildcard);
    InsertAllAdds(EMPTY, KeyEntries(t.exact, ek, ""), KeyEntries(t.wildcard, wk, WILD));
    ExactRebuilt(EMPTY, t.exact, ek);
    WholePart(t.exact, ek);
    WildRebuilt(Table(t.exact, map[]), t.wildcard, wk);
    WholePart(t.wildcard, wk);
  }

  lemma WholePart(m: map<string, Records>, keys: seq<string>)
    requires forall k :: k in keys <==> k in m
    ensures map[] + Part(m, keys) == m
  {
  }

  lemma HeaderSkipped(ip: IpText, t: Table)
    ensures PlainLine(HEADER)
    ensures ParseLine(ip, t, HEADER) == Ok(t)
  {
    HeaderIsComment();
    FindIs(HEADER, '#', 0);
    assert Before(HEADER, '#') == "";
  }

  lemma RenderReadsBack(ip: IpText, t: Table)
    requires ip.Faithful() && WellFormed(t)
    ensures Parsed(ip, Render(ip, t)) == Ok(t)
  {
    var es := Entries(t);
    EntriesRebuild(t);
    EntriesNormal(t);
    HeaderSkipped(ip, EMPTY);
    LinesRead(ip, EMPTY, es, 2);
    LinesHead(HEADER, Unlines(EntryLines(ip, es)));
    LinesOfUnlines(EntryLines(ip, es));
  }

  /** Every table that parsing, setting and removing can reach is written so that
      it reads back the same, order of addresses included. */
  lemma TableRoundTrip(ip: IpText, edits: seq<Edit>)
    requires ip.Faithful()
    ensures Parsed(ip, Render(ip, Reached(ip, edits))) == Ok(Reached(ip, edits))
  {
    ReachedWellFormed(ip, edits);
    RenderReadsBack(ip, Reached(ip, edits));
  }

  // ---- Lookup ----

  function Folded(name: string): (n: string)
  {
    Lower(TrimEndChar(name, '.'))
  }

  /** Whether `*.k` covers `n`: `n` is something, a dot, and `k`. */
  predicate Covers(k: string, n: string)
  {
    |k| < |n| && n[|n| - |k| - 1] == '.' && n[|n| - |k|..] == k
  }

  function WalkUp(wildcard: map<string, Records>, rest: string): (r: Option<Records>)
    decreases |rest|
  {
    var i := Find(rest, '.');
    if i == |rest| then None
    else if rest[i + 1..] in wildcard then Some(wildcard[rest[i + 1..]])
    else WalkUp(wildcard, rest[i + 1..])
  }

  function Lookup(t: Table, name: string): (r: Option<Records>)
  {
    var n := Folded(name);
    if n in t.exact then Some(t.exact[n]) else WalkUp(t.wildcard, n)
  }

  /** The wildcard that answers, found by looking at every key: a covering one
      with no longer covering one. */
  predicate Longest(wildcard: map<string, Records>, n: string, k: string)
  {
    k in wildcard && Covers(k, n) && forall o | o in wildcard && Covers(o, n) :: |o| <= |k|
  }

  lemma CoversTail(k: string, rest: string, i: nat)
    requires i < |rest| && |k| < |rest| - i - 1
    ensures Covers(k, rest) <==> Covers(k, rest[i + 1..])
  {
    var parent := rest[i + 1..];
    assert parent[|parent| - |k|..] == rest[|rest| - |k|..];
    assert parent[|parent| - |k| - 1] == rest[|rest| - |k| - 1];
  }

  /** The dot before a covering suffix is the first one, or after it. */
  lemma CoversAfter(k: string, rest: string, i: nat)
    requires i <= |rest| && forall j | 0 <= j < i :: rest[j] != '.'
    ensures Covers(k, rest) ==> |k| + i < |rest|
  {
    if Covers(k, rest) {
      assert rest[|rest| - |k| - 1] == '.';
    }
  }

  lemma CoversSplit(k: string, rest: string, i: nat)
    requires i < |rest| && rest[i] == '.' && |k| + i < |rest|
    ensures Covers(k, rest) <==> k == rest[i + 1..] || Covers(k, rest[i + 1..])
  {
    if |k| < |rest| - i - 1 {
      CoversTail(k, rest, i);
    } else {
      assert |rest| - |k| == i + 1;
    }
  }

  lemma CoversStep(k: string, rest: string)
    ensures var i := Find(rest, '.');
            Covers(k, rest) <==> i < |rest| && (k == rest[i + 1..] || Covers(k, rest[i + 1..]))
  {
    hide Covers;
    var i := Find(rest, '.');
    CoversAfter(k, rest, i);
    if |k| + i < |rest| {
      CoversSplit(k, rest, i);
    } else if i < |rest| {
      TooLong(k, rest[i + 1..]);
    }
  }

  lemma TooLong(k: string, parent: string)
    requires |k| > |parent|
    ensures k != parent && !Covers(k, parent)
  {
  }

  lemma {:induction false} WalkFindsLongest(wildcard: map<string, Records>, rest: string)
    ensures WalkUp(wildcard, rest).None? ==> forall k | k in wildcard :: !Covers(k, rest)
    ensures WalkUp(wildcard, rest).Some? ==>
              exists k :: Longest(wildcard, rest, k) && WalkUp(wildcard, rest) == Some(wildcard[k])
    decreases |rest|
  {
    var i := Find(rest, '.');
    forall k ensures Covers(k, rest) <==> i < |rest| && (k == rest[i + 1..] || Covers(k, rest[i + 1..])) {
      CoversStep(k, rest);
    }
    if i < |rest| {
      var parent := rest[i + 1..];
      if parent in wildcard {
        assert Longest(wildcard, rest, parent);
      } else {
        WalkFindsLongest(wildcard, parent);
        if WalkUp(wildcard, parent).Some? {
          var k :| Longest(wildcard, parent, k) && WalkUp(wildcard, parent) == Some(wildcard[k]);
          assert Longest(wildcard, rest, k);
        }
      }
    }
  }

  /** Lookup is its specification: the exact entry, else the longest covering
      wildcard, else nothing. */
  lemma LookupIsSpecification(t: Table, name: string)
    ensures var n := Folded(name);
            if n in t.exact then Lookup(t, name) == Some(t.exact[n])
            else if exists k :: k in t.wildcard && Covers(k, n)
            then exists k :: Longest(t.wildcard, n, k) && Lookup(t, name) == Some(t.wildcard[k])
            else Lookup(t, name) == None
  {
    WalkFindsLongest(t.wildcard, Folded(name));
  }

  /** The domains the operating system routes here. */
  function RoutedDomains(t: Table): (ds: seq<string>)
    ensures Ordering.Ascending(ds) && forall d :: d in ds <==> d in t.exact || d in t.wildcard
  {
    var ds := Ordering.Sorted(t.exact.Keys + t.wildcard.Keys);
    assert forall d :: d in ds <==> d in Ordering.Elements(ds);
    ds
  }

  /** Every name the table answers is a routed domain or under one. */
  lemma RoutingCoversLookup(t: Table, name: string)
    requires Lookup(t, name).Some?
    ensures exists d | d in RoutedDomains(t) :: Folded(name) == d || Covers(d, Folded(name))
  {
    var n := Folded(name);
    if n in t.exact {
      assert n in RoutedDomains(t);
    } else {
      WalkFindsLongest(t.wildcard, n);
      var k :| Longest(t.wildcard, n, k);
      assert k in RoutedDomains(t) && Covers(k, n);
    }
  }

  /** A wildcard's suffix is itself a normal name: routing it is allowed. */
  lemma RoutedIsNormal(t: Table, d: string)
    requires WellFormed(t) && d in RoutedDomains(t)
    ensures Normal(d) && d[0] != '*'
  {
    if d in t.exact {
      ExactHost(d);
    } else {
      WildHost(d);
    }
  }

  lemma RoutedDomainsNormal(t: Table)
    requires WellFormed(t)
    ensures forall d | d in RoutedDomains(t) :: Normal(d) && d[0] != '*'
  {
    forall d | d in RoutedDomains(t) ensures Normal(d) && d[0] != '*' {
      RoutedIsNormal(t, d);
    }
  }

  lemma ExactHost(d: string)
    requires Normal(d) && !(WILD <= d)
    ensures ValidHost(d) && d[0] != '*'
  {
    HostChars(d, 0);
    assert SplitOn(d, '.')[0] in SplitOn(d, '.');
  }

  lemma LowerTail(d: string)
    requires Lower(WILD + d) == WILD + d
    ensures Lower(d) == d
  {
    forall i | 0 <= i < |d| ensures Lower(d)[i] == d[i] {
      assert (WILD + d)[i + 2] == d[i];
      assert Lower(WILD + d)[i + 2] == LowerChar((WILD + d)[i + 2]);
    }
  }

  lemma WildParts(d: string)
    requires Normal(WILD + d)
    ensures ValidHost(d) && Lower(WILD + d) == WILD + d
  {
    hide ValidHost, Trim, TrimEndChar, Lower;
    assert (WILD + d)[2..] == d;
    LowerTwice(TrimEndChar(Trim(WILD + d), '.'));
  }

  lemma WildHost(d: string)
    requires Normal(WILD + d)
    ensures Normal(d) && d[0] != '*'
  {
    hide Normal, Lower;
    WildParts(d);
    LowerTail(d);
    ValidIsNormal(d, d);
    HostChars(d, 0);
  }

  // ---- The table as it is edited ----

  class Overrides {
    var exact: map<string, Records>
    var wildcard: map<string, Records>

    function Value(): (t: Table)
      reads this
    {
      Table(exact, wildcard)
    }

    constructor ()
      ensures Value() == EMPTY
    {
      exact, wildcard := map[], map[];
    }

    static method Parse(ip: IpText, text: string) returns (r: Result<Overrides, ParseError>)
      ensures r.Ok? ==> fresh(r.value) && Parsed(ip, text) == Ok(r.value.Value())
      ensures r.Err? ==> Parsed(ip, text) == Err(r.error)
    {
      var table := new Overrides();
      var lines := Lines(text);
      for index := 0 to |lines|
        invariant fresh(table)
        invariant Parsed(ip, text) == ParseLines(ip, table.Value(), lines[index..], index + 1)
      {
        assert lines[index..][1..] == lines[index + 1..];
        var reason := table.AddLine(ip, lines[index]);
        if reason.Some? {
          return Err(ParseError(index + 1, reason.value));
        }
      }
      r := Ok(table);
    }

    /** One line of the file; a reason when it is refused. */
    method AddLine(ip: IpText, raw: string) returns (refused: Option<Reason>)
      modifies this
      ensures refused.Some? ==> ParseLine(ip, old(Value()), raw) == Err(refused.value)
      ensures refused.None? ==> ParseLine(ip, old(Value()), raw) == Ok(Value())
    {
      var line := Trim(Before(raw, '#'));
      var fields := Words(line);
      if line == "" || fields == [] {
        return None;
      }
      var address := ip.parse(fields[0]);
      if address.None? {
        return Some(BadAddress);
      }
      if |fields| == 1 {
        return Some(NoNames);
      }
      var names := fields[1..];
      ghost var before := Value();
      for i := 0 to |names|
        invariant InsertNames(before, address.value, names) == InsertNames(Value(), address.value, names[i..])
      {
        assert names[i..][1..] == names[i + 1..];
        match Normalise(names[i]) {
          case Err(e) => return Some(BadName(e));
          case Ok(n) => Insert(address.value, n);
        }
      }
      refused := None;
    }

    method Insert(address: IpAddr, name: string)
      modifies this
      ensures Value() == Inserted(old(Value()), address, name)
    {
      match StripPrefix(name, WILD) {
        case Some(suffix) =>
          if suffix !in wildcard {
            wildcard := wildcard[suffix := []];
          }
          if address !in wildcard[suffix] {
            wildcard := wildcard[suffix := wildcard[suffix] + [address]];
          }
          assert wildcard == old(wildcard)[suffix := Push(Get(old(wildcard), suffix), address)];
        case None =>
          if name !in exact {
            exact := exact[name := []];
          }
          if address !in exact[name] {
            exact := exact[name := exact[name] + [address]];
          }
          assert exact == old(exact)[name := Push(Get(old(exact), name), address)];
      }
    }

    method Find(name: string) returns (r: Option<Records>)
      ensures r == Lookup(Value(), name)
    {
      var n := Folded(name);
      if n in exact {
        return Some(exact[n]);
      }
      var rest := n;
      var dot := Text.Find(rest, '.');
      while dot < |rest|
        invariant dot == Text.Find(rest, '.')
        invariant WalkUp(wildcard, n) == WalkUp(wildcard, rest)
        decreases |rest|
      {
        var parent := rest[dot + 1..];
        if parent in wildcard {
          return Some(wildcard[parent]);
        }
        rest := parent;
        dot := Text.Find(rest, '.');
      }
      r := None;
    }

    method Set(name: string, address: IpAddr) returns (r: Result<(), NameError>)
      modifies this
      ensures match SetTo(old(Value()), name, address)
              case Ok(t) => r.Ok? && Value() == t
              case Err(e) => r == Err(e) && Value() == old(Value())
    {
      match Normalise(name) {
        case Err(e) => return Err(e);
        case Ok(n) =>
          NormaliseTwice(name);
          var had := Remove(n);
          Insert(address, n);
          r := Ok(());
      }
    }

    method Remove(name: string) returns (had: bool)
      modifies this
      ensures Value() == Removed(old(Value()), name)
      ensures had <==> Value() != old(Value())
    {
      match Normalise(name) {
        case Err(_) => return false;
        case Ok(n) =>
          match StripPrefix(n, WILD) {
            case Some(suffix) =>
              had := suffix in wildcard;
              wildcard := wildcard - {suffix};
              assert had || wildcard == old(wildcard);
            case None =>
              had := n in exact;
              exact := exact - {n};
              assert had || exact == old(exact);
          }
      }
    }
  }
}
