/** WireGuard configuration text: the checks an imported profile passes before
    `wg-quick` may read it as root, and the text written for a session. */
module Profile {
  import opened Text

  /** What the library decides about keys. */
  datatype KeyText = KeyText(isKey: string -> bool, publicOf: string -> Option<string>)

  datatype PeerSummary = PeerSummary(publicKey: string, endpoint: Option<string>, allowed: seq<string>, keepalive: Option<string>)

  datatype DirectProfile = DirectProfile(name: string, endpoint: string, address: seq<string>, dns: seq<string>,
                                         allowed: seq<string>, publicKey: Option<string>, mtu: Option<string>,
                                         listenPort: Option<string>, peers: seq<PeerSummary>)

  datatype Problem = NoPublicKey | NoAllowedIps | UnknownSection | NotASetting | Hook | OutsideSection | UnknownKey | BadKey

  datatype Error = At(line: nat, problem: Problem) | InterfaceCount(n: nat) | NoPeer | NoPrivateKey | NoAddress | NoEndpoint

  datatype Section = Outside | Interface | InPeer

  /** What `validate` has read so far. */
  datatype Reader = Reader(section: Section, interfaces: nat, privateKey: bool, hasKey: bool, hasAllowed: bool,
                           profile: DirectProfile)
  {
    predicate Valid() {
      section == InPeer ==> profile.peers != []
    }
  }

  const BOM := '\U{FEFF}'

  function Normalised(text: string): (s: string)
  {
    var body := if text != "" && text[0] == BOM then text[1..] else text;
    var out := Unlines(Lines(body));
    if out == "" then "\n" else out
  }

  predicate IsHook(key: string)
  {
    key == "preup" || key == "postup" || key == "predown" || key == "postdown"
  }

  predicate IsInterfaceKey(key: string)
  {
    key == "privatekey" || key == "address" || key == "dns" || key == "mtu" || key == "listenport" || key == "table"
    || key == "fwmark" || key == "saveconfig"
  }

  predicate IsPeerKey(key: string)
  {
    key == "publickey" || key == "presharedkey" || key == "allowedips" || key == "endpoint" || key == "persistentkeepalive"
  }

  // ---- One line ----

  datatype Line = Blank | Header(name: string) | Setting(key: string, value: string) | Neither

  function Classify(raw: string): (l: Line)
  {
    var line := Trim(Before(raw, '#'));
    if line == "" then Blank
    else if line[0] == '[' then Header(Lower(line))
    else
      var i := Find(line, '=');
      if i == |line| then Neither else Setting(Lower(Trim(line[..i])), Trim(line[i + 1..]))
  }

  const NO_PEER := PeerSummary("", None, [], None)

  /** A peer may end only with a public key and allowed addresses. */
  function Closing(r: Reader, n: nat): (e: Option<Error>)
  {
    if r.section != InPeer then None
    else if !r.hasKey then Some(At(n, NoPublicKey))
    else if !r.hasAllowed then Some(At(n, NoAllowedIps))
    else None
  }

  function OnHeader(r: Reader, name: string, n: nat): (r': Result<Reader, Error>)
    requires r.Valid()
    ensures r'.Ok? ==> r'.value.Valid()
  {
    if Closing(r, n).Some? then Err(Closing(r, n).value)
    else if name == "[interface]" then Ok(r.(section := Interface, interfaces := r.interfaces + 1))
    else if name == "[peer]" then
      Ok(r.(section := InPeer, hasKey := false, hasAllowed := false, profile := r.profile.(peers := r.profile.peers + [NO_PEER])))
    else Err(At(n, UnknownSection))
  }

  function OnInterface(keys: KeyText, r: Reader, key: string, value: string, n: nat): (r': Result<Reader, Error>)
    requires r.Valid()
    ensures r'.Ok? ==> r'.value.Valid()
  {
    var p := r.profile;
    if !IsInterfaceKey(key) then Err(At(n, UnknownKey))
    else if key == "privatekey" then
      if !keys.isKey(value) then Err(At(n, BadKey)) else Ok(r.(privateKey := true, profile := p.(publicKey := keys.publicOf(value))))
    else if key == "address" then Ok(r.(profile := p.(address := p.address + SplitList(value))))
    else if key == "dns" then Ok(r.(profile := p.(dns := p.dns + SplitList(value))))
    else if key == "mtu" then Ok(r.(profile := p.(mtu := Some(value))))
    else if key == "listenport" then Ok(r.(profile := p.(listenPort := Some(value))))
    else Ok(r)
  }

  /** The last peer changed. */
  function WithLast(p: DirectProfile, peer: PeerSummary): (p': DirectProfile)
    requires p.peers != []
  {
    p.(peers := p.peers[|p.peers| - 1 := peer])
  }

  function OnPeer(keys: KeyText, r: Reader, key: string, value: string, n: nat): (r': Result<Reader, Error>)
    requires r.Valid() && r.section == InPeer
    ensures r'.Ok? ==> r'.value.Valid()
  {
    var p := r.profile;
    var peer := p.peers[|p.peers| - 1];
    if !IsPeerKey(key) then Err(At(n, UnknownKey))
    else if key == "publickey" then
      if !keys.isKey(value) then Err(At(n, BadKey)) else Ok(r.(hasKey := true, profile := WithLast(p, peer.(publicKey := value))))
    else if key == "presharedkey" then
      if !keys.isKey(value) then Err(At(n, BadKey)) else Ok(r)
    else if key == "allowedips" then
      Ok(r.(hasAllowed := true,
            profile := WithLast(p.(allowed := p.allowed + SplitList(value)), peer.(allowed := peer.allowed + SplitList(value)))))
    else if key == "endpoint" then
      Ok(r.(profile := WithLast(p.(endpoint := if p.endpoint == "" then value else p.endpoint), peer.(endpoint := Some(value)))))
    else Ok(r.(profile := WithLast(p, peer.(keepalive := Some(value)))))
  }

  function OnLine(keys: KeyText, r: Reader, raw: string, n: nat): (r': Result<Reader, Error>)
    requires r.Valid()
    ensures r'.Ok? ==> r'.value.Valid()
  {
    match Classify(raw)
    case Blank => Ok(r)
    case Header(name) => OnHeader(r, name, n)
    case Neither => Err(At(n, NotASetting))
    case Setting(key, value) =>
      if IsHook(key) then Err(At(n, Hook))
      else if r.section == Outside then Err(At(n, OutsideSection))
      else if r.section == Interface then OnInterface(keys, r, key, value, n)
      else OnPeer(keys, r, key, value, n)
  }

  // ---- The whole text ----

  function ReadFrom(keys: KeyText, r: Reader, lines: seq<string>, i: nat): (r': Result<Reader, Error>)
    requires r.Valid() && i <= |lines|
    ensures r'.Ok? ==> r'.value.Valid()
    decreases |lines| - i
  {
    if i == |lines| then Ok(r)
    else
      match OnLine(keys, r, lines[i], i + 1)
      case Err(e) => Err(e)
      case Ok(next) => ReadFrom(keys, next, lines, i + 1)
  }

  function Start(name: string): (r: Reader)
  {
    Reader(Outside, 0, false, true, true, DirectProfile(name, "", [], [], [], None, None, None, []))
  }

  function Finish(r: Reader, lines: nat): (p: Result<DirectProfile, Error>)
  {
    if Closing(r, lines + 1).Some? then Err(Closing(r, lines + 1).value)
    else if r.interfaces != 1 then Err(InterfaceCount(r.interfaces))
    else if r.profile.peers == [] then Err(NoPeer)
    else if !r.privateKey then Err(NoPrivateKey)
    else if r.profile.address == [] then Err(NoAddress)
    else if r.profile.endpoint == "" then Err(NoEndpoint)
    else Ok(r.profile)
  }

  function Validated(keys: KeyText, text: string, name: string): (p: Result<DirectProfile, Error>)
  {
    var lines := Lines(Normalised(text));
    match ReadFrom(keys, Start(name), lines, 0)
    case Err(e) => Err(e)
    case Ok(r) => Finish(r, |lines|)
  }

  /** A setting under `[Interface]`. */
  method ReadInterface(keys: KeyText, ghost r: Reader, start: DirectProfile, key: string, value: string, n: nat)
    returns (e: Option<Error>, profile: DirectProfile, isPrivate: bool)
    requires r.Valid() && r.profile == start
    ensures OnInterface(keys, r, key, value, n)
            == if e.Some? then Err(e.value) else Ok(r.(profile := profile, privateKey := r.privateKey || isPrivate))
  {
    e, profile, isPrivate := None, start, false;
    if !IsInterfaceKey(key) {
      e := Some(At(n, UnknownKey));
    } else if key == "privatekey" {
      if !keys.isKey(value) {
        e := Some(At(n, BadKey));
      }
      isPrivate := true;
      profile := profile.(publicKey := keys.publicOf(value));
    } else if key == "address" {
      profile := profile.(address := profile.address + SplitList(value));
    } else if key == "dns" {
      profile := profile.(dns := profile.dns + SplitList(value));
    } else if key == "mtu" {
      profile := profile.(mtu := Some(value));
    } else if key == "listenport" {
      profile := profile.(listenPort := Some(value));
    }
  }

  /** A setting under `[Peer]`, for the last peer entered. */
  method ReadPeer(keys: KeyText, ghost r: Reader, start: DirectProfile, key: string, value: string, n: nat)
    returns (e: Option<Error>, profile: DirectProfile, isKey: bool, isAllowed: bool)
    requires r.Valid() && r.section == InPeer && r.profile == start
    ensures e.None? ==> profile.peers != []
    ensures OnPeer(keys, r, key, value, n)
            == if e.Some? then Err(e.value)
               else Ok(r.(profile := profile, hasKey := r.hasKey || isKey, hasAllowed := r.hasAllowed || isAllowed))
  {
    e, profile, isKey, isAllowed := None, start, false, false;
    var peer := profile.peers[|profile.peers| - 1];
    if !IsPeerKey(key) {
      e := Some(At(n, UnknownKey));
    } else if key == "publickey" {
      if !keys.isKey(value) {
        e := Some(At(n, BadKey));
      }
      isKey := true;
      profile := WithLast(profile, peer.(publicKey := value));
    } else if key == "presharedkey" {
      if !keys.isKey(value) {
        e := Some(At(n, BadKey));
      }
    } else if key == "allowedips" {
      isAllowed := true;
      profile := WithLast(profile, peer.(allowed := peer.allowed + SplitList(value)));
      profile := profile.(allowed := profile.allowed + SplitList(value));
    } else if key == "endpoint" {
      profile := WithLast(profile, peer.(endpoint := Some(value)));
      if profile.endpoint == "" {
        profile := profile.(endpoint := value);
      }
    } else {
      profile := WithLast(profile, peer.(keepalive := Some(value)));
    }
  }

  /** A section heading: the section it opens. */
  method ReadHeader(ghost r: Reader, section: Section, hasKey: bool, hasAllowed: bool, title: string, n: nat)
    returns (e: Option<Error>, entered: Section)
    requires r.Valid() && r.section == section && r.hasKey == hasKey && r.hasAllowed == hasAllowed
    ensures entered != Outside
    ensures OnHeader(r, title, n)
            == if e.Some? then Err(e.value)
               else if entered == Interface then Ok(r.(section := Interface, interfaces := r.interfaces + 1))
               else Ok(r.(section := InPeer, hasKey := false, hasAllowed := false,
                          profile := r.profile.(peers := r.profile.peers + [NO_PEER])))
  {
    e, entered := None, Interface;
    if section == InPeer && !hasKey {
      e := Some(At(n, NoPublicKey));
    } else if section == InPeer && !hasAllowed {
      e := Some(At(n, NoAllowedIps));
    } else if title == "[peer]" {
      entered := InPeer;
    } else if title != "[interface]" {
      e := Some(At(n, UnknownSection));
    }
  }

  /** What the whole text must have shown. */
  method Conclude(section: Section, interfaces: nat, privateKey: bool, hasKey: bool, hasAllowed: bool,
                  profile: DirectProfile, lines: nat)
    returns (result: Result<DirectProfile, Error>)
    ensures result == Finish(Reader(section, interfaces, privateKey, hasKey, hasAllowed, profile), lines)
  {
    if section == InPeer {
      if !hasKey { return Err(At(lines + 1, NoPublicKey)); }
      if !hasAllowed { return Err(At(lines + 1, NoAllowedIps)); }
    }
    if interfaces != 1 { return Err(InterfaceCount(interfaces)); }
    if profile.peers == [] { return Err(NoPeer); }
    if !privateKey { return Err(NoPrivateKey); }
    if profile.address == [] { return Err(NoAddress); }
    if profile.endpoint == "" { return Err(NoEndpoint); }
    result := Ok(profile);
  }

  /** One line of the text. */
  method ReadLine(keys: KeyText, r: Reader, raw: string, n: nat) returns (result: Result<Reader, Error>)
    requires r.Valid()
    ensures result == OnLine(keys, r, raw, n)
  {
    match Classify(raw) {
      case Blank => return Ok(r);
      case Neither => return Err(At(n, NotASetting));
      case Header(title) =>
        var e, entered := ReadHeader(r, r.section, r.hasKey, r.hasAllowed, title, n);
        if e.Some? { return Err(e.value); }
        if entered == Interface {
          return Ok(r.(section := Interface, interfaces := r.interfaces + 1));
        }
        return Ok(r.(section := InPeer, hasKey := false, hasAllowed := false,
                     profile := r.profile.(peers := r.profile.peers + [NO_PEER])));
      case Setting(key, value) =>
        if IsHook(key) { return Err(At(n, Hook)); }
        if r.section == Outside { return Err(At(n, OutsideSection)); }
        if r.section == Interface {
          var e, profile, isPrivate := ReadInterface(keys, r, r.profile, key, value, n);
          if e.Some? { return Err(e.value); }
          return Ok(r.(profile := profile, privateKey := r.privateKey || isPrivate));
        }
        var e, profile, isKey, isAllowed := ReadPeer(keys, r, r.profile, key, value, n);
        if e.Some? { return Err(e.value); }
        return Ok(r.(profile := profile, hasKey := r.hasKey || isKey, hasAllowed := r.hasAllowed || isAllowed));
    }
  }

  /** Reads the text line by line, keeping the section it is in, what the last
      peer has shown, and the profile so far. */
  method Validate(keys: KeyText, text: string, name: string) returns (result: Result<DirectProfile, Error>)
    ensures result == Validated(keys, text, name)
  {
    var lines := Lines(Normalised(text));
    var r := Start(name);
    for i := 0 to |lines|
      invariant r.Valid() && ReadFrom(keys, Start(name), lines, 0) == ReadFrom(keys, r, lines, i)
    {
      var next := ReadLine(keys, r, lines[i], i + 1);
      if next.Err? {
        return Err(next.error);
      }
      r := next.value;
    }
    result := Conclude(r.section, r.interfaces, r.privateKey, r.hasKey, r.hasAllowed, r.profile, |lines|);
  }

  // ---- What an accepted text cannot hold ----

  /** Whether `line` sets a hook, as a reader that drops comments and ignores case
      and blanks around the key would see it, with or without a value. */
  ghost predicate SetsHook(line: string)
  {
    exists a, w, b, rest ::
      && Before(line, '#') == a + w + b + rest && AllBlank(a) && AllBlank(b) && IsHook(Lower(w))
      && (rest == "" || rest[0] == '=')
  }

  predicate AllBlank(s: string)
  {
    forall c | c in s :: IsWhitespace(c)
  }

  lemma {:induction false} TrimStartBlank(a: string, s: string)
    requires AllBlank(a)
    ensures TrimStart(a + s) == TrimStart(s)
  {
    if a == "" {
      assert a + s == s;
    } else {
      assert (a + s)[0] in a;
      assert (a + s)[1..] == a[1..] + s;
      TrimStartBlank(a[1..], s);
    }
  }

  lemma {:induction false} TrimEndBlank(s: string, b: string)
    requires AllBlank(b)
    ensures TrimEnd(s + b) == TrimEnd(s)
  {
    if b == "" {
      assert s + b == s;
    } else {
      var n := |b| - 1;
      assert (s + b)[|s + b| - 1] == b[n] && b[n] in b;
      assert (s + b)[..|s + b| - 1] == s + b[..n];
      TrimEndBlank(s, b[..n]);
    }
  }

  lemma TrimPadded(a: string, w: string, b: string)
    requires AllBlank(a) && AllBlank(b) && Trimmed(w) && w != ""
    ensures Trim(a + w + b) == w
  {
    Assoc(a, w, b);
    TrimStartBlank(a, w + b);
    assert (w + b)[0] == w[0];
    TrimEndBlank(w, b);
  }

  /** Hook words have no blanks, brackets or equals signs in them. */
  lemma HookWord(w: string)
    requires IsHook(Lower(w))
    ensures |w| >= 5 && forall c | c in w :: 'a' <= LowerChar(c) <= 'z' && !IsWhitespace(c) && c != '=' && c != '['
  {
    forall c | c in w ensures 'a' <= LowerChar(c) <= 'z' {
      var i :| 0 <= i < |w| && w[i] == c;
      assert Lower(w)[i] == LowerChar(c);
    }
  }

  lemma {:induction false} TrimEndKeeps(p: string, q: string)
    requires p != "" && !IsWhitespace(p[|p| - 1])
    ensures p <= TrimEnd(p + q)
    decreases |q|
  {
    if q == "" {
      assert p + q == p;
    } else {
      var n := |q| - 1;
      assert (p + q)[..|p + q| - 1] == p + q[..n];
      TrimEndKeeps(p, q[..n]);
    }
  }

  lemma FindAfter(t: string, p: string, c: char)
    requires p + [c] <= t && c !in p
    ensures Find(t, c) == |p|
  {
    assert t[..|p|] == p;
    assert t[|p|] == (p + [c])[|p|];
    FindIs(t, c, |p|);
  }

  lemma BareHook(line: string, a: string, w: string, b: string)
    requires Before(line, '#') == a + w + b && AllBlank(a) && AllBlank(b) && IsHook(Lower(w))
    ensures Classify(line).Neither?
  {
    HookWord(w);
    assert w[0] in w && w[|w| - 1] in w;
    TrimPadded(a, w, b);
    FindIs(w, '=', |w|);
  }

  lemma KeptStart(a: string, p: string, y: string)
    requires AllBlank(a) && p != "" && !IsWhitespace(p[0]) && !IsWhitespace(p[|p| - 1])
    ensures p <= Trim(a + p + y)
  {
    Assoc(a, p, y);
    TrimStartBlank(a, p + y);
    assert (p + y)[0] == p[0];
    TrimEndKeeps(p, y);
  }

  lemma KeyBefore(t: string, w: string, b: string)
    requires w + b + "=" <= t && AllBlank(b) && w != "" && forall c | c in w :: !IsWhitespace(c) && c != '='
    ensures Find(t, '=') == |w + b| < |t| && Trim(t[..|w + b|]) == w && t[0] == w[0]
  {
    var p := w + b + "=";
    FindAfter(t, w + b, '=');
    assert t[..|w + b|] == p[..|w + b|] == w + b;
    assert w[0] in w && w[|w| - 1] in w;
    assert "" + w + b == w + b;
    TrimPadded("", w, b);
    assert t[0] == p[0] == w[0];
  }

  lemma HookWithValue(line: string, a: string, w: string, b: string, y: string)
    requires Before(line, '#') == a + (w + b + "=") + y && AllBlank(a) && AllBlank(b) && IsHook(Lower(w))
    ensures Classify(line).Setting? && IsHook(Classify(line).key)
  {
    HookWord(w);
    var p := w + b + "=";
    assert w[0] in w && p[0] == w[0];
    KeptStart(a, p, y);
    KeyBefore(Trim(Before(line, '#')), w, b);
  }

  lemma HookIsSeen(line: string, a: string, w: string, b: string, rest: string)
    requires Before(line, '#') == a + w + b + rest && AllBlank(a) && AllBlank(b) && IsHook(Lower(w))
    requires rest == "" || rest[0] == '='
    ensures Classify(line).Neither? || (Classify(line).Setting? && IsHook(Classify(line).key))
  {
    if rest == "" {
      assert a + w + b + rest == a + w + b;
      BareHook(line, a, w, b);
    } else {
      assert rest == "=" + rest[1..];
      assert a + w + b + rest == a + (w + b + "=") + rest[1..];
      HookWithValue(line, a, w, b, rest[1..]);
    }
  }

  lemma {:induction false} AcceptedLines(keys: KeyText, r: Reader, lines: seq<string>, i: nat, k: nat)
    requires r.Valid() && i <= k < |lines| && ReadFrom(keys, r, lines, i).Ok?
    ensures !Classify(lines[k]).Neither? && (Classify(lines[k]).Setting? ==> !IsHook(Classify(lines[k]).key))
    decreases |lines| - i
  {
    if i < k {
      AcceptedLines(keys, OnLine(keys, r, lines[i], i + 1).value, lines, i + 1, k);
    }
  }

  /** An accepted text sets no hook on any line of the file that is stored, in
      any letter case, however it is padded. */
  lemma HooksRefused(keys: KeyText, text: string, name: string, line: string)
    requires Validated(keys, text, name).Ok? && line in Lines(Normalised(text))
    ensures !SetsHook(line)
  {
    var lines := Lines(Normalised(text));
    var k :| 0 <= k < |lines| && lines[k] == line;
    AcceptedLines(keys, Start(name), lines, 0, k);
    if SetsHook(line) {
      var a, w, b, rest :| Before(line, '#') == a + w + b + rest && AllBlank(a) && AllBlank(b) && IsHook(Lower(w))
                           && (rest == "" || rest[0] == '=');
      HookIsSeen(line, a, w, b, rest);
    }
  }

  // ---- What every accepted text gives ----

  function AllAllowed(peers: seq<PeerSummary>): (items: seq<string>)
  {
    if peers == [] then [] else AllAllowed(peers[..|peers| - 1]) + peers[|peers| - 1].allowed
  }

  /** What reading keeps: the profile's allowed addresses are its peers' in order,
      and every peer has a public key, except the last while it still waits for one. */
  predicate Sound(keys: KeyText, r: Reader)
  {
    && r.Valid()
    && r.profile.allowed == AllAllowed(r.profile.peers)
    && (!r.hasKey ==> r.section == InPeer)
    && forall i | 0 <= i < |r.profile.peers| - (if r.hasKey then 0 else 1) :: keys.isKey(r.profile.peers[i].publicKey)
  }

  lemma LastAllowed(peers: seq<PeerSummary>, peer: PeerSummary, items: seq<string>)
    requires peers != [] && peer.allowed == peers[|peers| - 1].allowed + items
    ensures AllAllowed(peers[|peers| - 1 := peer]) == AllAllowed(peers) + items
  {
    var n := |peers| - 1;
    assert peers[n := peer][..n] == peers[..n];
    Assoc(AllAllowed(peers[..n]), peers[n].allowed, items);
  }

  lemma PeerKeepsSound(keys: KeyText, r: Reader, key: string, value: string, n: nat)
    requires Sound(keys, r) && r.section == InPeer && OnPeer(keys, r, key, value, n).Ok?
    ensures Sound(keys, OnPeer(keys, r, key, value, n).value)
  {
    hide SplitList;
    var r' := OnPeer(keys, r, key, value, n).value;
    var last := |r.profile.peers| - 1;
    var peer := r'.profile.peers[last];
    assert r'.profile.peers == r.profile.peers[last := peer];
    if key == "allowedips" {
      LastAllowed(r.profile.peers, peer, SplitList(value));
    } else {
      assert peer.allowed == r.profile.peers[last].allowed + [];
      LastAllowed(r.profile.peers, peer, []);
    }
  }

  lemma HeaderKeepsSound(keys: KeyText, r: Reader, name: string, n: nat)
    requires Sound(keys, r) && OnHeader(r, name, n).Ok?
    ensures Sound(keys, OnHeader(r, name, n).value)
  {
    var peers := r.profile.peers;
    assert (peers + [NO_PEER])[..|peers|] == peers;
    assert AllAllowed(peers + [NO_PEER]) == AllAllowed(peers) + [];
  }

  lemma InterfaceKeepsSound(keys: KeyText, r: Reader, key: string, value: string, n: nat)
    requires Sound(keys, r) && r.section == Interface && OnInterface(keys, r, key, value, n).Ok?
    ensures Sound(keys, OnInterface(keys, r, key, value, n).value)
  {
    var r' := OnInterface(keys, r, key, value, n).value;
    assert r'.profile.peers == r.profile.peers && r'.profile.allowed == r.profile.allowed && r'.hasKey == r.hasKey;
  }

  lemma LineKeepsSound(keys: KeyText, r: Reader, raw: string, n: nat)
    requires Sound(keys, r) && OnLine(keys, r, raw, n).Ok?
    ensures Sound(keys, OnLine(keys, r, raw, n).value)
  {
    match Classify(raw)
    case Header(name) => HeaderKeepsSound(keys, r, name, n);
    case Setting(key, value) =>
      if r.section == InPeer {
        PeerKeepsSound(keys, r, key, value, n);
      } else {
        InterfaceKeepsSound(keys, r, key, value, n);
      }
    case _ =>
  }

  lemma {:induction false} ReadKeepsSound(keys: KeyText, r: Reader, lines: seq<string>, i: nat)
    requires Sound(keys, r) && i <= |lines| && ReadFrom(keys, r, lines, i).Ok?
    ensures Sound(keys, ReadFrom(keys, r, lines, i).value)
    decreases |lines| - i
  {
    if i < |lines| {
      LineKeepsSound(keys, r, lines[i], i + 1);
      ReadKeepsSound(keys, OnLine(keys, r, lines[i], i + 1).value, lines, i + 1);
    }
  }

  /** The profile of any accepted text lists its peers' allowed addresses in
      order, and every one of its peers has a key that decodes. */
  lemma AcceptedIsSound(keys: KeyText, text: string, name: string)
    requires Validated(keys, text, name).Ok?
    ensures var p := Validated(keys, text, name).value;
            && p.allowed == AllAllowed(p.peers) && p.peers != [] && p.address != [] && p.endpoint != ""
            && forall peer | peer in p.peers :: keys.isKey(peer.publicKey)
  {
    var lines := Lines(Normalised(text));
    ReadKeepsSound(keys, Start(name), lines, 0);
  }

  // ---- The text written for a session ----

  /** The tunnel's part of a session, as the control plane sent it. */
  datatype SessionConfig = SessionConfig(address: string, dns: seq<string>, peerKey: string, endpoint: string,
                                         allowed: seq<string>, keepalive: nat)

  function Put(key: string, value: string): (l: string)
  {
    key + " = " + value
  }

  /** `render_wg_config`; an empty DNS list has no line. */
  function Rendered(wg: SessionConfig, privateKey: string): (text: string)
  {
    var head := "[Interface]" + "\n" + Put("PrivateKey", Trim(privateKey)) + "\n" + Put("Address", wg.address) + "\n";
    var dns := if wg.dns == [] then head else head + Put("DNS", Join(wg.dns, ", ")) + "\n";
    dns + "" + "\n" + "[Peer]" + "\n" + Put("PublicKey", wg.peerKey) + "\n" + Put("Endpoint", wg.endpoint) + "\n"
    + Put("AllowedIPs", Join(wg.allowed, ", ")) + "\n" + Put("PersistentKeepalive", Decimal(wg.keepalive)) + "\n"
  }

  function HeadLines(wg: SessionConfig, privateKey: string): (ls: seq<string>)
  {
    ["[Interface]", Put("PrivateKey", Trim(privateKey)), Put("Address", wg.address)]
    + if wg.dns == [] then [] else [Put("DNS", Join(wg.dns, ", "))]
  }

  function PeerLines(wg: SessionConfig): (ls: seq<string>)
  {
    ["", "[Peer]", Put("PublicKey", wg.peerKey), Put("Endpoint", wg.endpoint), Put("AllowedIPs", Join(wg.allowed, ", ")),
     Put("PersistentKeepalive", Decimal(wg.keepalive))]
  }

  lemma HeadText(wg: SessionConfig, privateKey: string)
    ensures Unlines(HeadLines(wg, privateKey))
            == var head := "[Interface]" + "\n" + Put("PrivateKey", Trim(privateKey)) + "\n" + Put("Address", wg.address) + "\n";
               if wg.dns == [] then head else head + Put("DNS", Join(wg.dns, ", ")) + "\n"
  {
    var a, b, c := "[Interface]", Put("PrivateKey", Trim(privateKey)), Put("Address", wg.address);
    UnlinesPush([], a);
    assert [] + [a] == [a];
    assert "" + a == a;
    UnlinesPush([a], b);
    UnlinesPush([a, b], c);
    if wg.dns != [] {
      UnlinesPush([a, b, c], Put("DNS", Join(wg.dns, ", ")));
    } else {
      assert HeadLines(wg, privateKey) == [a, b, c];
    }
  }

  lemma TailText(ls: seq<string>, wg: SessionConfig)
    ensures Unlines(ls + PeerLines(wg))
            == Unlines(ls) + "" + "\n" + "[Peer]" + "\n" + Put("PublicKey", wg.peerKey) + "\n" + Put("Endpoint", wg.endpoint) + "\n"
               + Put("AllowedIPs", Join(wg.allowed, ", ")) + "\n" + Put("PersistentKeepalive", Decimal(wg.keepalive)) + "\n"
  {
    var p := PeerLines(wg);
    UnlinesPush(ls, p[0]);
    UnlinesPush(ls + [p[0]], p[1]);
    UnlinesPush(ls + [p[0]] + [p[1]], p[2]);
    UnlinesPush(ls + [p[0]] + [p[1]] + [p[2]], p[3]);
    UnlinesPush(ls + [p[0]] + [p[1]] + [p[2]] + [p[3]], p[4]);
    UnlinesPush(ls + [p[0]] + [p[1]] + [p[2]] + [p[3]] + [p[4]], p[5]);
    assert ls + p == ls + [p[0]] + [p[1]] + [p[2]] + [p[3]] + [p[4]] + [p[5]];
  }

  lemma RenderedIsLines(wg: SessionConfig, privateKey: string)
    ensures Rendered(wg, privateKey) == Unlines(HeadLines(wg, privateKey) + PeerLines(wg))
  {
    HeadText(wg, privateKey);
    TailText(HeadLines(wg, privateKey), wg);
  }

  // ---- It reads back ----

  /** A value that a line of the text can carry. */
  predicate Field(s: string)
  {
    s != "" && Trimmed(s) && '#' !in s && '\n' !in s
  }

  /** A value that a list can carry. */
  predicate Item(s: string)
  {
    Field(s) && ',' !in s
  }

  /** The name of a setting, before the equals sign. */
  predicate SettingName(k: string)
  {
    k != "" && k[0] != '[' && forall c | c in k :: !IsWhitespace(c) && c != '=' && c != '#' && c != '\n'
  }

  lemma TrimSetting(k: string, v: string)
    requires SettingName(k) && Trimmed(v)
    ensures Trim(k + " = " + v) == k + " =" + if v == "" then "" else " " + v
  {
    var s := k + " = " + v;
    assert s[0] == k[0] && k[0] in k;
    assert TrimStart(s) == s;
    if v == "" {
      assert s == (k + " =") + " ";
      TrimEndBlank(k + " =", " ");
    } else {
      assert s[|s| - 1] == v[|v| - 1];
      Assoc(k, " = ", v);
      assert " = " + v == " =" + (" " + v);
      Assoc(k, " =", " " + v);
    }
  }

  lemma AfterEquals(k: string, end: string, t: string)
    requires t == k + " =" + end
    ensures k + " " + "=" <= t && t[|k + " "| + 1..] == end
  {
    assert k + " " + "=" == k + " =";
  }

  lemma TrimValue(v: string)
    requires Trimmed(v)
    ensures Trim(if v == "" then "" else " " + v) == v
  {
    if v == "" {
      assert Trim("") == "";
    } else {
      TrimOfPadded(v);
    }
  }

  lemma NoComment(k: string, v: string)
    requires SettingName(k) && '#' !in v
    ensures Before(k + " = " + v, '#') == k + " = " + v
  {
    BeforeIsAll(k + " = " + v, '#');
  }

  lemma SettingReads(k: string, v: string)
    requires SettingName(k) && Trimmed(v) && '#' !in v
    ensures Classify(Put(k, v)) == Setting(Lower(k), v)
  {
    NoComment(k, v);
    TrimSetting(k, v);
    var t := Trim(k + " = " + v);
    AfterEquals(k, if v == "" then "" else " " + v, t);
    KeyBefore(t, k, " ");
    TrimValue(v);
  }

  lemma SettingLine(k: string, v: string)
    requires SettingName(k) && Trimmed(v) && '\n' !in v
    ensures PlainLine(Put(k, v))
  {
    var s := k + " = " + v;
    assert v != "" ==> s[|s| - 1] == v[|v| - 1];
  }

  /** The items of a list after the first, as they stand between commas. */
  function Spaced(items: seq<string>): (parts: seq<string>)
    ensures |parts| == |items| && forall i | 0 <= i < |items| :: parts[i] == " " + items[i]
  {
    seq(|items|, i requires 0 <= i < |items| => " " + items[i])
  }

  lemma {:induction false} JoinSpaced(items: seq<string>)
    requires items != []
    ensures Join(items, ", ") == Join([items[0]] + Spaced(items[1..]), ",")
    ensures Join(Spaced(items), ",") == " " + Join(items, ", ")
  {
    var rest := items[1..];
    if rest == [] {
      assert [items[0]] + Spaced(rest) == [items[0]];
    } else {
      JoinSpaced(rest);
      JoinCons(items[0], Spaced(rest), ",");
      assert Spaced(items) == [" " + items[0]] + Spaced(rest);
      JoinCons(" " + items[0], Spaced(rest), ",");
      var more := Join(rest, ", ");
      assert ", " == "," + " ";
      Assoc(items[0], ",", " " + more);
      Assoc(",", " ", more);
      Assoc(items[0], ", ", more);
      Assoc(" ", items[0], ", " + more);
      Assoc(" " + items[0], ",", " " + more);
    }
  }

  lemma {:induction false} TrimAllSpaced(items: seq<string>)
    requires forall x | x in items :: Item(x)
    ensures TrimAll(Spaced(items)) == items
  {
    if items != [] {
      assert Item(items[0]);
      TrimOfPadded(items[0]);
      assert Spaced(items)[1..] == Spaced(items[1..]);
      TrimAllSpaced(items[1..]);
    }
  }

  lemma NoList()
    ensures SplitList("") == []
  {
    var parts := SplitOn("", ',');
    assert Find("", ',') == 0 && parts == [""];
    assert Trim("") == "";
    assert parts[1..] == [];
  }

  lemma PartsTrim(items: seq<string>)
    requires items != [] && forall x | x in items :: Item(x)
    ensures var parts := [items[0]] + Spaced(items[1..]);
            TrimAll(parts) == items && forall p | p in parts :: ',' !in p
  {
    var parts := [items[0]] + Spaced(items[1..]);
    assert Item(items[0]);
    TrimAllSpaced(items[1..]);
    TrimOfTrimmed(items[0]);
    assert parts[1..] == Spaced(items[1..]);
    assert items == [items[0]] + items[1..];
    forall p | p in parts ensures ',' !in p {
      var i :| 0 <= i < |parts| && parts[i] == p;
      assert Item(items[i]);
    }
  }

  /** A list written with commas reads back. */
  lemma ListReads(items: seq<string>)
    requires forall x | x in items :: Item(x)
    ensures SplitList(Join(items, ", ")) == items
  {
    if items == [] {
      NoList();
    } else {
      JoinSpaced(items);
      var parts := [items[0]] + Spaced(items[1..]);
      PartsTrim(items);
      SplitOfJoin(parts, ',');
    }
  }

  lemma {:induction false} JoinIsField(items: seq<string>)
    requires items != [] && forall x | x in items :: Item(x)
    ensures Field(Join(items, ", "))
  {
    assert Item(items[0]);
    if |items| > 1 {
      JoinIsField(items[1..]);
      var s := Join(items, ", ");
      var more := Join(items[1..], ", ");
      assert s[0] == items[0][0] && s[|s| - 1] == more[|more| - 1];
    }
  }

  lemma JoinIsValue(items: seq<string>)
    requires forall x | x in items :: Item(x)
    ensures Trimmed(Join(items, ", ")) && '#' !in Join(items, ", ") && '\n' !in Join(items, ", ")
  {
    if items != [] {
      JoinIsField(items);
    }
  }

  lemma DecimalIsField(n: nat)
    ensures Field(Decimal(n))
  {
    var s := Decimal(n);
    assert s[0] in s && s[|s| - 1] in s;
  }

  /** A session whose values the text can carry, with keys that decode. */
  predicate Carried(keys: KeyText, wg: SessionConfig, privateKey: string)
  {
    && Field(wg.address) && ',' !in wg.address && Field(wg.endpoint) && Field(wg.peerKey) && Field(Trim(privateKey))
    && (forall x | x in wg.dns :: Item(x)) && (forall x | x in wg.allowed :: Item(x))
    && keys.isKey(Trim(privateKey)) && keys.isKey(wg.peerKey)
  }

  lemma NamePrivateKey()
    ensures SettingName("PrivateKey") && Lower("PrivateKey") == "privatekey"
  {
  }

  lemma NameAddress()
    ensures SettingName("Address") && Lower("Address") == "address"
  {
  }

  lemma NameDns()
    ensures SettingName("DNS") && Lower("DNS") == "dns"
  {
  }

  lemma NamePublicKey()
    ensures SettingName("PublicKey") && Lower("PublicKey") == "publickey"
  {
  }

  lemma NameEndpoint()
    ensures SettingName("Endpoint") && Lower("Endpoint") == "endpoint"
  {
  }

  lemma NameAllowedIps()
    ensures SettingName("AllowedIPs") && Lower("AllowedIPs") == "allowedips"
  {
  }

  lemma NamePersistentKeepalive()
    ensures SettingName("PersistentKeepalive") && Lower("PersistentKeepalive") == "persistentkeepalive"
  {
    assert "PersistentKeepalive" == "Persistent" + "Keepalive";
    assert "persistentkeepalive" == "persistent" + "keepalive";
    NameParts();
    LowerAdds("Persistent", "Keepalive");
  }

  lemma NameParts()
    ensures SettingName("Persistent") && SettingName("Keepalive")
    ensures Lower("Persistent") == "persistent" && Lower("Keepalive") == "keepalive"
  {
  }

  lemma LowerAdds(a: string, b: string)
    ensures Lower(a + b) == Lower(a) + Lower(b)
  {
  }

  lemma HeadPlain(keys: KeyText, wg: SessionConfig, privateKey: string)
    requires Carried(keys, wg, privateKey)
    ensures forall l | l in HeadLines(wg, privateKey) :: PlainLine(l)
  {
    NamePrivateKey();
    SettingLine("PrivateKey", Trim(privateKey));
    NameAddress();
    SettingLine("Address", wg.address);
    JoinIsValue(wg.dns);
    NameDns();
    SettingLine("DNS", Join(wg.dns, ", "));
    assert PlainLine("[Interface]");
  }

  lemma PeerPlain(keys: KeyText, wg: SessionConfig, privateKey: string)
    requires Carried(keys, wg, privateKey)
    ensures forall l | l in PeerLines(wg) :: PlainLine(l)
  {
    NamePublicKey();
    SettingLine("PublicKey", wg.peerKey);
    NameEndpoint();
    SettingLine("Endpoint", wg.endpoint);
    JoinIsValue(wg.allowed);
    NameAllowedIps();
    SettingLine("AllowedIPs", Join(wg.allowed, ", "));
    DecimalIsField(wg.keepalive);
    NamePersistentKeepalive();
    SettingLine("PersistentKeepalive", Decimal(wg.keepalive));
    assert PlainLine("[Peer]");
  }

  lemma RenderedLinesRead(keys: KeyText, wg: SessionConfig, privateKey: string)
    requires Carried(keys, wg, privateKey)
    ensures Lines(Normalised(Rendered(wg, privateKey))) == HeadLines(wg, privateKey) + PeerLines(wg)
  {
    var ls := HeadLines(wg, privateKey) + PeerLines(wg);
    var text := Rendered(wg, privateKey);
    RenderedIsLines(wg, privateKey);
    HeadPlain(keys, wg, privateKey);
    PeerPlain(keys, wg, privateKey);
    LinesOfUnlines(ls);
    assert text[0] == '[' by {
      assert text == ls[0] + "\n" + Unlines(ls[1..]);
    }
  }

  // ---- What each line does ----

  lemma Step(keys: KeyText, r: Reader, lines: seq<string>, i: nat, r': Reader)
    requires r.Valid() && i < |lines| && OnLine(keys, r, lines[i], i + 1) == Ok(r')
    ensures ReadFrom(keys, r, lines, i) == ReadFrom(keys, r', lines, i + 1)
  {
  }

  /** A setting line of the text does what its key and value say. */
  lemma SettingStep(keys: KeyText, r: Reader, lines: seq<string>, i: nat, k: string, v: string, r': Reader)
    requires r.Valid() && r.section != Outside && i < |lines| && lines[i] == Put(k, v)
    requires SettingName(k) && Trimmed(v) && '#' !in v && !IsHook(Lower(k))
    requires r.section == Interface ==> OnInterface(keys, r, Lower(k), v, i + 1) == Ok(r')
    requires r.section == InPeer ==> OnPeer(keys, r, Lower(k), v, i + 1) == Ok(r')
    ensures ReadFrom(keys, r, lines, i) == ReadFrom(keys, r', lines, i + 1)
  {
    SettingReads(k, v);
    Step(keys, r, lines, i, r');
  }

  lemma HeaderStep(keys: KeyText, r: Reader, lines: seq<string>, i: nat, name: string, r': Reader)
    requires r.Valid() && i < |lines| && lines[i] == name
    requires name != "" && name[0] == '[' && Trimmed(name) && '#' !in name && OnHeader(r, Lower(name), i + 1) == Ok(r')
    ensures ReadFrom(keys, r, lines, i) == ReadFrom(keys, r', lines, i + 1)
  {
    HeaderReads(name);
    Step(keys, r, lines, i, r');
  }

  lemma InterfaceName()
    ensures var n := "[Interface]"; n[0] == '[' && Trimmed(n) && '#' !in n && Lower(n) == "[interface]"
  {
  }

  lemma PeerName()
    ensures var n := "[Peer]"; n[0] == '[' && Trimmed(n) && '#' !in n && Lower(n) == "[peer]"
  {
  }

  lemma HeaderReads(name: string)
    requires name != "" && name[0] == '[' && Trimmed(name) && '#' !in name
    ensures Classify(name) == Header(Lower(name))
  {
    BeforeIsAll(name, '#');
    TrimOfTrimmed(name);
  }

  lemma KeyReads(keys: KeyText, r: Reader, v: string, lines: seq<string>, i: nat)
    requires r.section == Interface && Field(v) && keys.isKey(v)
    requires i < |lines| && lines[i] == Put("PrivateKey", v)
    ensures ReadFrom(keys, r, lines, i)
            == ReadFrom(keys, r.(privateKey := true, profile := r.profile.(publicKey := keys.publicOf(v))), lines, i + 1)
  {
    NamePrivateKey();
    SettingStep(keys, r, lines, i, "PrivateKey", v, r.(privateKey := true, profile := r.profile.(publicKey := keys.publicOf(v))));
  }

  lemma AddressReads(keys: KeyText, r: Reader, v: string, lines: seq<string>, i: nat)
    requires r.section == Interface && r.profile.address == [] && Item(v)
    requires i < |lines| && lines[i] == Put("Address", v)
    ensures ReadFrom(keys, r, lines, i) == ReadFrom(keys, r.(profile := r.profile.(address := [v])), lines, i + 1)
  {
    NameAddress();
    OneItem(v);
    assert [] + [v] == [v];
    SettingStep(keys, r, lines, i, "Address", v, r.(profile := r.profile.(address := [v])));
  }

  lemma HeadReads(keys: KeyText, wg: SessionConfig, privateKey: string, name: string, lines: seq<string>, i: nat)
    requires Carried(keys, wg, privateKey) && i + 3 <= |lines|
    requires lines[i] == "[Interface]" && lines[i + 1] == Put("PrivateKey", Trim(privateKey))
    requires lines[i + 2] == Put("Address", wg.address)
    ensures ReadFrom(keys, Start(name), lines, i) == ReadFrom(keys, AfterAddress(keys, wg, privateKey, name), lines, i + 3)
  {
    var key := Trim(privateKey);
    InterfaceName();
    var r1 := Start(name).(section := Interface, interfaces := 1);
    HeaderStep(keys, Start(name), lines, i, "[Interface]", r1);
    KeyReads(keys, r1, key, lines, i + 1);
    AddressReads(keys, r1.(privateKey := true, profile := r1.profile.(publicKey := keys.publicOf(key))), wg.address, lines, i + 2);
  }

  lemma OneItem(v: string)
    requires Item(v)
    ensures SplitList(v) == [v]
  {
    ListReads([v]);
    assert Join([v], ", ") == v;
  }

  function AfterAddress(keys: KeyText, wg: SessionConfig, privateKey: string, name: string): (r: Reader)
  {
    Reader(Interface, 1, true, true, true,
           DirectProfile(name, "", [wg.address], [], [], keys.publicOf(Trim(privateKey)), None, None, []))
  }

  lemma DnsReads(keys: KeyText, r: Reader, items: seq<string>, lines: seq<string>, i: nat)
    requires r.section == Interface && r.profile.dns == [] && forall x | x in items :: Item(x)
    requires i < |lines| && lines[i] == Put("DNS", Join(items, ", "))
    ensures ReadFrom(keys, r, lines, i) == ReadFrom(keys, r.(profile := r.profile.(dns := items)), lines, i + 1)
  {
    JoinIsValue(items);
    NameDns();
    ListReads(items);
    assert [] + items == items;
    SettingStep(keys, r, lines, i, "DNS", Join(items, ", "), r.(profile := r.profile.(dns := items)));
  }

  function SessionPeer(wg: SessionConfig): (p: PeerSummary)
  {
    PeerSummary(wg.peerKey, Some(wg.endpoint), wg.allowed, Some(Decimal(wg.keepalive)))
  }

  lemma BlankReads()
    ensures Classify("") == Blank
  {
    assert Before("", '#') == "" && Trim("") == "";
  }

  lemma OpenReads(keys: KeyText, r: Reader, lines: seq<string>, i: nat)
    requires r.section == Interface && r.profile.peers == []
    requires i + 2 <= |lines| && lines[i] == "" && lines[i + 1] == "[Peer]"
    ensures ReadFrom(keys, r, lines, i)
            == ReadFrom(keys, r.(section := InPeer, hasKey := false, hasAllowed := false, profile := r.profile.(peers := [NO_PEER])),
                        lines, i + 2)
  {
    hide ReadFrom;
    BlankReads();
    Step(keys, r, lines, i, r);
    PeerName();
    assert [] + [NO_PEER] == [NO_PEER];
    var r' := r.(section := InPeer, hasKey := false, hasAllowed := false, profile := r.profile.(peers := [NO_PEER]));
    HeaderStep(keys, r, lines, i + 1, "[Peer]", r');
  }

  lemma PeerKeyReads(keys: KeyText, r: Reader, peer: PeerSummary, v: string, lines: seq<string>, i: nat)
    requires r.section == InPeer && r.profile.peers == [peer] && Field(v) && keys.isKey(v)
    requires i < |lines| && lines[i] == Put("PublicKey", v)
    ensures ReadFrom(keys, r, lines, i)
            == ReadFrom(keys, r.(hasKey := true, profile := r.profile.(peers := [peer.(publicKey := v)])), lines, i + 1)
  {
    NamePublicKey();
    assert [peer][0 := peer.(publicKey := v)] == [peer.(publicKey := v)];
    SettingStep(keys, r, lines, i, "PublicKey", v, r.(hasKey := true, profile := r.profile.(peers := [peer.(publicKey := v)])));
  }

  lemma EndpointReads(keys: KeyText, r: Reader, peer: PeerSummary, v: string, lines: seq<string>, i: nat)
    requires r.section == InPeer && r.profile.peers == [peer] && Field(v) && r.profile.endpoint == ""
    requires i < |lines| && lines[i] == Put("Endpoint", v)
    ensures ReadFrom(keys, r, lines, i)
            == ReadFrom(keys, r.(profile := r.profile.(endpoint := v, peers := [peer.(endpoint := Some(v))])), lines, i + 1)
  {
    NameEndpoint();
    assert [peer][0 := peer.(endpoint := Some(v))] == [peer.(endpoint := Some(v))];
    SettingStep(keys, r, lines, i, "Endpoint", v, r.(profile := r.profile.(endpoint := v, peers := [peer.(endpoint := Some(v))])));
  }

  lemma AllowedReads(keys: KeyText, r: Reader, peer: PeerSummary, items: seq<string>, lines: seq<string>, i: nat)
    requires r.section == InPeer && r.profile.peers == [peer] && r.profile.allowed == [] && peer.allowed == []
    requires forall x | x in items :: Item(x)
    requires i < |lines| && lines[i] == Put("AllowedIPs", Join(items, ", "))
    ensures ReadFrom(keys, r, lines, i)
            == ReadFrom(keys, r.(hasAllowed := true, profile := r.profile.(allowed := items, peers := [peer.(allowed := items)])),
                        lines, i + 1)
  {
    JoinIsValue(items);
    NameAllowedIps();
    ListReads(items);
    assert [peer][0 := peer.(allowed := items)] == [peer.(allowed := items)];
    assert [] + items == items;
    var r' := r.(hasAllowed := true, profile := r.profile.(allowed := items, peers := [peer.(allowed := items)]));
    SettingStep(keys, r, lines, i, "AllowedIPs", Join(items, ", "), r');
  }

  lemma KeepaliveReads(keys: KeyText, r: Reader, peer: PeerSummary, v: string, lines: seq<string>, i: nat)
    requires r.section == InPeer && r.profile.peers == [peer] && Field(v)
    requires i < |lines| && lines[i] == Put("PersistentKeepalive", v)
    ensures ReadFrom(keys, r, lines, i)
            == ReadFrom(keys, r.(profile := r.profile.(peers := [peer.(keepalive := Some(v))])), lines, i + 1)
  {
    NamePersistentKeepalive();
    assert [peer][0 := peer.(keepalive := Some(v))] == [peer.(keepalive := Some(v))];
    SettingStep(keys, r, lines, i, "PersistentKeepalive", v, r.(profile := r.profile.(peers := [peer.(keepalive := Some(v))])));
  }

  /** The peer section, up to its endpoint. */
  lemma PeerOpens(keys: KeyText, wg: SessionConfig, r: Reader, lines: seq<string>, i: nat)
    requires Field(wg.peerKey) && Field(wg.endpoint) && keys.isKey(wg.peerKey) && i + 4 <= |lines|
    requires lines[i] == "" && lines[i + 1] == "[Peer]" && lines[i + 2] == Put("PublicKey", wg.peerKey)
    requires lines[i + 3] == Put("Endpoint", wg.endpoint)
    requires r.section == Interface && r.profile.peers == [] && r.profile.endpoint == ""
    ensures ReadFrom(keys, r, lines, i)
            == ReadFrom(keys, r.(section := InPeer, hasKey := true, hasAllowed := false,
                                 profile := r.profile.(endpoint := wg.endpoint,
                                                       peers := [NO_PEER.(publicKey := wg.peerKey, endpoint := Some(wg.endpoint))])),
                        lines, i + 4)
  {
    OpenReads(keys, r, lines, i);
    var r1 := r.(section := InPeer, hasKey := false, hasAllowed := false, profile := r.profile.(peers := [NO_PEER]));
    PeerKeyReads(keys, r1, NO_PEER, wg.peerKey, lines, i + 2);
    var p2 := NO_PEER.(publicKey := wg.peerKey);
    EndpointReads(keys, r1.(hasKey := true, profile := r.profile.(peers := [p2])), p2, wg.endpoint, lines, i + 3);
  }

  lemma PeerCloses(keys: KeyText, wg: SessionConfig, r: Reader, peer: PeerSummary, lines: seq<string>, i: nat)
    requires (forall x | x in wg.allowed :: Item(x)) && i + 2 == |lines|
    requires lines[i] == Put("AllowedIPs", Join(wg.allowed, ", "))
    requires lines[i + 1] == Put("PersistentKeepalive", Decimal(wg.keepalive))
    requires r.section == InPeer && r.profile.peers == [peer] && r.profile.allowed == [] && peer.allowed == []
    ensures ReadFrom(keys, r, lines, i)
            == Ok(r.(hasAllowed := true,
                     profile := r.profile.(allowed := wg.allowed,
                                           peers := [peer.(allowed := wg.allowed, keepalive := Some(Decimal(wg.keepalive)))])))
  {
    AllowedReads(keys, r, peer, wg.allowed, lines, i);
    var p := peer.(allowed := wg.allowed);
    DecimalIsField(wg.keepalive);
    var r1 := r.(hasAllowed := true, profile := r.profile.(allowed := wg.allowed, peers := [p]));
    KeepaliveReads(keys, r1, p, Decimal(wg.keepalive), lines, i + 1);
  }

  lemma PeerReads(keys: KeyText, wg: SessionConfig, privateKey: string, r: Reader, lines: seq<string>, i: nat)
    requires Carried(keys, wg, privateKey) && i + 6 == |lines| && lines[i..] == PeerLines(wg)
    requires r.section == Interface && r.profile.peers == [] && r.profile.endpoint == "" && r.profile.allowed == []
    ensures ReadFrom(keys, r, lines, i)
            == Ok(r.(section := InPeer, hasKey := true, hasAllowed := true,
                     profile := r.profile.(endpoint := wg.endpoint, allowed := wg.allowed, peers := [SessionPeer(wg)])))
  {
    assert forall k | 0 <= k < 6 :: lines[i + k] == lines[i..][k];
    PeerOpens(keys, wg, r, lines, i);
    var peer := NO_PEER.(publicKey := wg.peerKey, endpoint := Some(wg.endpoint));
    PeerCloses(keys, wg, r.(section := InPeer, hasKey := true, hasAllowed := false,
                            profile := r.profile.(endpoint := wg.endpoint, peers := [peer])), peer, lines, i + 4);
  }

  function AfterHead(keys: KeyText, wg: SessionConfig, privateKey: string, name: string): (r: Reader)
  {
    var r := AfterAddress(keys, wg, privateKey, name);
    r.(profile := r.profile.(dns := wg.dns))
  }

  lemma HeadAt(wg: SessionConfig, privateKey: string, lines: seq<string>, i: nat)
    requires HeadLines(wg, privateKey) <= lines && i == 0
    ensures i + 3 <= |lines| && lines[i] == "[Interface]" && lines[i + 1] == Put("PrivateKey", Trim(privateKey))
    ensures lines[i + 2] == Put("Address", wg.address)
    ensures |HeadLines(wg, privateKey)| == i + if wg.dns == [] then 3 else 4
    ensures wg.dns != [] ==> i + 4 <= |lines| && lines[i + 3] == Put("DNS", Join(wg.dns, ", "))
  {
    var head := HeadLines(wg, privateKey);
    assert forall k | 0 <= k < |head| :: lines[k] == head[k];
  }

  lemma AllHeadReads(keys: KeyText, wg: SessionConfig, privateKey: string, name: string, lines: seq<string>, i: nat)
    requires Carried(keys, wg, privateKey) && HeadLines(wg, privateKey) <= lines && i == 0
    ensures ReadFrom(keys, Start(name), lines, i)
            == ReadFrom(keys, AfterHead(keys, wg, privateKey, name), lines, |HeadLines(wg, privateKey)|)
  {
    HeadAt(wg, privateKey, lines, i);
    HeadReads(keys, wg, privateKey, name, lines, i);
    var r := AfterAddress(keys, wg, privateKey, name);
    if wg.dns == [] {
      assert AfterHead(keys, wg, privateKey, name) == r;
    } else {
      DnsReads(keys, r, wg.dns, lines, i + 3);
    }
  }

  /** The text written for a session passes the checks of an imported profile and
      reads back to the session's own values. */
  lemma SessionReadsBack(keys: KeyText, wg: SessionConfig, privateKey: string, name: string)
    requires Carried(keys, wg, privateKey)
    ensures Validated(keys, Rendered(wg, privateKey), name)
            == Ok(DirectProfile(name, wg.endpoint, [wg.address], wg.dns, wg.allowed, keys.publicOf(Trim(privateKey)),
                                None, None, [SessionPeer(wg)]))
  {
    var lines := HeadLines(wg, privateKey) + PeerLines(wg);
    RenderedLinesRead(keys, wg, privateKey);
    AllHeadReads(keys, wg, privateKey, name, lines, 0);
    var head := HeadLines(wg, privateKey);
    assert lines[|head|..] == PeerLines(wg);
    PeerReads(keys, wg, privateKey, AfterHead(keys, wg, privateKey, name), lines, |head|);
  }
}
