/** Keeping `/etc/resolver` in step with the table: one marked file per domain,
    and nobody else's file touched. The directory is a map from file names to
    what they hold. */
module Resolver {
  import opened Text
  import Ordering
  import Hosts

  // In pieces: the verifier reads short literals character by character.
  const MARKER1 := "# Managed by WSL Zero Trust "
  const MARKER2 := "(`wsl dns`). Do not edit; "
  const MARKER3 := "`wsl dns apply` rewrites it."
  const MARKER := MARKER1 + MARKER2 + MARKER3

  lemma MarkerPieces()
    ensures '\n' !in MARKER1 && '\n' !in MARKER3 && MARKER3[|MARKER3| - 1] == '.'
  {
  }

  lemma MarkerMiddle()
    ensures '\n' !in MARKER2
  {
  }

  lemma MarkerIsLine()
    ensures PlainLine(MARKER)
  {
    MarkerPieces();
    MarkerMiddle();
  }

  /** The file for one domain; `address` is the resolver's, as text. */
  function Render(address: string, port: nat): (body: string)
  {
    MARKER + "\n" + ("nameserver " + address + "\nport " + Decimal(port) + "\n")
  }

  predicate IsOurs(text: string)
  {
    Lines(text) != [] && Lines(text)[0] == MARKER
  }

  lemma RenderIsOurs(address: string, port: nat)
    ensures IsOurs(Render(address, port))
  {
    MarkerIsLine();
    LinesHead(MARKER, "nameserver " + address + "\nport " + Decimal(port) + "\n");
  }

  /** A file as `read_to_string` finds it: bytes that are no UTF-8 are no text. */
  datatype Content = Text(text: string) | Unreadable

  type Files = map<string, Content>

  predicate Ours(c: Content)
  {
    c.Text? && IsOurs(c.text)
  }

  /** Someone else's, as far as a sync can tell. */
  predicate Foreign(c: Content)
  {
    c.Text? && !IsOurs(c.text)
  }

  datatype SyncError = BadDomain(error: Hosts.NameError) | WildcardDomain

  datatype SyncReport = SyncReport(written: seq<string>, removed: seq<string>, skipped: seq<string>)

  /** The domains asked for, every one checked again. */
  function Normalised(domains: seq<string>): (r: Result<set<string>, Hosts.NameError>)
    decreases |domains|
  {
    if domains == [] then Ok({})
    else match Hosts.Normalise(domains[0])
      case Err(e) => Err(e)
      case Ok(d) =>
        match Normalised(domains[1..])
        case Err(e) => Err(e)
        case Ok(ds) => Ok({d} + ds)
  }

  function Wanted(domains: seq<string>): (r: Result<set<string>, SyncError>)
  {
    match Normalised(domains)
    case Err(e) => Err(BadDomain(e))
    case Ok(ds) => if exists d | d in ds :: d != "" && d[0] == '*' then Err(WildcardDomain) else Ok(ds)
  }

  /** Wanted domains whose file someone else owns. */
  function Skipped(files: Files, wanted: set<string>): (s: set<string>)
  {
    set d | d in wanted && d in files && Foreign(files[d])
  }

  function Stale(files: Files, wanted: set<string>): (s: set<string>)
  {
    set n | n in files && n !in wanted && Ours(files[n])
  }

  function ToWrite(files: Files, wanted: set<string>, body: string): (s: set<string>)
  {
    set d | d in wanted - Skipped(files, wanted) && !(d in files && files[d] == Text(body))
  }

  /** The directory a successful sync leaves. */
  function Synced(files: Files, wanted: set<string>, body: string): (files': Files)
  {
    map n | n in files.Keys + (wanted - Skipped(files, wanted)) && n !in Stale(files, wanted)
      :: if n in wanted - Skipped(files, wanted) then Text(body) else files[n]
  }

  function Report(files: Files, wanted: set<string>, body: string): (r: SyncReport)
  {
    SyncReport(Ordering.Sorted(ToWrite(files, wanted, body)), Ordering.Sorted(Stale(files, wanted)),
               Ordering.Sorted(Skipped(files, wanted)))
  }

  /** The domains whose file carries the mark. */
  function Routed(files: Files): (ds: seq<string>)
  {
    Ordering.Sorted(set n | n in files && Ours(files[n]))
  }

  class Directory {
    var files: Files

    method Sync(domains: seq<string>, address: string, port: nat) returns (r: Result<SyncReport, SyncError>)
      modifies this
      ensures match Wanted(domains)
              case Err(e) => r == Err(e) && files == old(files)
              case Ok(wanted) =>
                && files == Synced(old(files), wanted, Render(address, port))
                && r == Ok(Report(old(files), wanted, Render(address, port)))
    {
      var checked := CheckNames(domains);
      if checked.Err? {
        return Err(BadDomain(checked.error));
      }
      var names := checked.value;
      if exists d | d in names :: d != "" && d[0] == '*' {
        return Err(WildcardDomain);
      }
      var body := Render(address, port);
      RenderIsOurs(address, port);
      LoopsSync(files, names, body);
      var written, skipped := WriteFiles(names, body);
      var removed := RemoveStale(names);
      r := Ok(SyncReport(written, removed, skipped));
    }

    static method CheckNames(domains: seq<string>) returns (r: Result<set<string>, Hosts.NameError>)
      ensures r == Normalised(domains)
    {
      var names: set<string> := {};
      assert domains[0..] == domains;
      assert forall ds: set<string> :: names + ds == ds;
      for i := 0 to |domains|
        invariant Normalised(domains) == (match Normalised(domains[i..])
                                          case Err(e) => Err(e)
                                          case Ok(ds) => Ok(names + ds))
      {
        assert domains[i..][1..] == domains[i + 1..];
        match Hosts.Normalise(domains[i]) {
          case Err(e) => return Err(e);
          case Ok(d) =>
            assert forall ds: set<string> :: names + ({d} + ds) == names + {d} + ds;
            names := names + {d};
        }
      }
      assert names + {} == names;
      r := Ok(names);
    }

    method WriteFiles(wanted: set<string>, body: string) returns (written: seq<string>, skipped: seq<string>)
      modifies this
      ensures files == WithFiles(old(files), wanted, body)
      ensures written == Ordering.Sorted(ToWrite(old(files), wanted, body))
      ensures skipped == Ordering.Sorted(Skipped(old(files), wanted))
    {
      var order := Ordering.Sorted(wanted);
      written, skipped := [], [];
      ghost var done: set<string> := {};
      assert files == WithFiles(files, done, body);
      for i := 0 to |order|
        invariant done == Ordering.Elements(order[..i])
        invariant files == WithFiles(old(files), done, body)
        invariant Ordering.Elements(written) == ToWrite(old(files), done, body) && Below(written, order, i)
        invariant Ordering.Elements(skipped) == Skipped(old(files), done) && Below(skipped, order, i)
      {
        var domain := order[i];
        NextDone(order, i);
        SkippedGrows(old(files), done, domain);
        ToWriteGrows(old(files), done, domain, body);
        WithFilesGrows(old(files), done, domain, body);
        BelowGrows(written, order, i);
        BelowGrows(skipped, order, i);
        done := done + {domain};
        if domain in files && Foreign(files[domain]) {
          skipped := skipped + [domain];
          continue;
        }
        if domain in files && files[domain] == Text(body) {
          continue;
        }
        files := files[domain := Text(body)];
        written := written + [domain];
      }
      assert order[..|order|] == order;
      Ordering.SortedUnique(written, Ordering.Sorted(ToWrite(old(files), wanted, body)));
      Ordering.SortedUnique(skipped, Ordering.Sorted(Skipped(old(files), wanted)));
    }

    method RemoveStale(wanted: set<string>) returns (removed: seq<string>)
      modifies this
      ensures files == old(files) - Stale(old(files), wanted)
      ensures removed == Ordering.Sorted(Stale(old(files), wanted))
    {
      var listing, gone := files.Keys, {};
      while listing != {}
        invariant listing <= old(files).Keys
        invariant gone == Stale(old(files), wanted) - listing
        invariant files == old(files) - gone
        decreases listing
      {
        var name :| name in listing;
        if name !in wanted && Ours(files[name]) {
          files := files - {name};
          gone := gone + {name};
        }
        listing := listing - {name};
      }
      assert gone == Stale(old(files), wanted);
      removed := Ordering.Sorted(gone);
    }
  }

  /** Something in ascending order, all of it before the `i`th of `order`. */
  ghost predicate Below(ss: seq<string>, order: seq<string>, i: nat)
    requires i <= |order|
  {
    Ordering.Ascending(ss) && forall k | 0 <= k < |ss| :: ss[k] in order[..i]
  }

  /** The directory after the first loop of a sync. */
  function WithFiles(files: Files, wanted: set<string>, body: string): (files': Files)
  {
    map n | n in files.Keys + (wanted - Skipped(files, wanted))
      :: if n in wanted - Skipped(files, wanted) then Text(body) else files[n]
  }

  lemma NextDone(order: seq<string>, i: nat)
    requires i < |order| && Ordering.Ascending(order)
    ensures order[i] !in Ordering.Elements(order[..i])
    ensures Ordering.Elements(order[..i + 1]) == Ordering.Elements(order[..i]) + {order[i]}
  {
    Ordering.AscendingDistinct(order);
    assert order[..i + 1] == order[..i] + [order[i]];
  }

  lemma BelowGrows(ss: seq<string>, order: seq<string>, i: nat)
    requires i < |order| && Ordering.Ascending(order) && Below(ss, order, i)
    ensures Below(ss, order, i + 1) && Below(ss + [order[i]], order, i + 1)
    ensures Ordering.Elements(ss + [order[i]]) == Ordering.Elements(ss) + {order[i]}
  {
    assert order[..i + 1] == order[..i] + [order[i]];
    forall k | 0 <= k < |ss| ensures Ordering.Less(ss[k], order[i]) {
      var j :| 0 <= j < i && order[j] == ss[k];
    }
  }

  lemma SkippedGrows(files: Files, done: set<string>, domain: string)
    ensures Skipped(files, done + {domain})
            == Skipped(files, done) + (if domain in files && Foreign(files[domain]) then {domain} else {})
  {
  }

  lemma ToWriteGrows(files: Files, done: set<string>, domain: string, body: string)
    ensures var skip, current := domain in files && Foreign(files[domain]), domain in files && files[domain] == Text(body);
            ToWrite(files, done + {domain}, body) == ToWrite(files, done, body) + (if skip || current then {} else {domain})
  {
  }

  lemma WithFilesGrows(files: Files, done: set<string>, domain: string, body: string)
    requires domain !in done
    ensures var now := WithFiles(files, done, body);
            var skip, current := domain in files && Foreign(files[domain]), domain in files && files[domain] == Text(body);
            && (domain in now <==> domain in files) && (domain in files ==> now[domain] == files[domain])
            && WithFiles(files, done + {domain}, body) == if skip || current then now else now[domain := Text(body)]
  {
    SkippedGrows(files, done, domain);
    var skip := domain in files && Foreign(files[domain]);
    assert done + {domain} - Skipped(files, done + {domain})
        == (done - Skipped(files, done)) + if skip then {} else {domain};
  }

  lemma LoopsSync(files: Files, wanted: set<string>, body: string)
    requires IsOurs(body)
    ensures var after := WithFiles(files, wanted, body);
            && Stale(after, wanted) == Stale(files, wanted)
            && after - Stale(after, wanted) == Synced(files, wanted, body)
  {
  }

  // ---- What a sync promises ----

  /** The routed domains afterwards are the wanted ones, but for those someone
      else's file stands in for. Of the files without the mark, exactly those a
      wanted domain names and that are no text are lost. */
  lemma SyncRoutesWanted(files: Files, wanted: set<string>, address: string, port: nat)
    ensures var files' := Synced(files, wanted, Render(address, port));
            && Routed(files') == Ordering.Sorted(wanted - Skipped(files, wanted))
            && forall n | n in files && !Ours(files[n]) ::
                 (n in files' && files'[n] == files[n]) <==> !(n in wanted && files[n].Unreadable?)
  {
    RenderIsOurs(address, port);
    var files' := Synced(files, wanted, Render(address, port));
    assert (set n | n in files' && Ours(files'[n])) == wanted - Skipped(files, wanted);
  }

  /** A second sync finds nothing to do. */
  lemma SyncAgain(files: Files, wanted: set<string>, address: string, port: nat)
    ensures var body := Render(address, port);
            var files' := Synced(files, wanted, body);
            && Synced(files', wanted, body) == files'
            && Report(files', wanted, body) == SyncReport([], [], Ordering.Sorted(Skipped(files, wanted)))
  {
    RenderIsOurs(address, port);
    NothingLeft(files, wanted, Render(address, port));
  }

  lemma NothingLeft(files: Files, wanted: set<string>, body: string)
    requires IsOurs(body)
    ensures var files' := Synced(files, wanted, body);
            && Synced(files', wanted, body) == files'
            && Report(files', wanted, body) == SyncReport([], [], Ordering.Sorted(Skipped(files, wanted)))
  {
    var files' := Synced(files, wanted, body);
    assert Skipped(files', wanted) == Skipped(files, wanted);
    assert Stale(files', wanted) == {};
    assert ToWrite(files', wanted, body) == {};
  }

  lemma {:induction false} NormalisedNormal(domains: seq<string>)
    requires forall d | d in domains :: Hosts.Normal(d)
    ensures Normalised(domains) == Ok(Ordering.Elements(domains))
  {
    if domains == [] {
      assert Ordering.Elements(domains) == {};
    } else {
      assert domains[0] in domains;
      NormalisedNormal(domains[1..]);
      assert Ordering.Elements(domains) == {domains[0]} + Ordering.Elements(domains[1..]);
    }
  }

  /** On the routed domains of any table editing can reach, the name checks pass
      and the sync is for exactly those domains. */
  lemma SyncOfTable(ip: Hosts.IpText, edits: seq<Hosts.Edit>)
    ensures var ds := Hosts.RoutedDomains(Hosts.Reached(ip, edits));
            Wanted(ds) == Ok(Ordering.Elements(ds))
  {
    var t := Hosts.Reached(ip, edits);
    Hosts.ReachedWellFormed(ip, edits);
    Hosts.RoutedDomainsNormal(t);
    NormalisedNormal(Hosts.RoutedDomains(t));
  }
}
