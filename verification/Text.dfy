/** The string operations of Rust's standard library that the parsers and
    printers use, on sequences of characters. */
module Text {

  datatype Option<+T> = None | Some(value: T)

  datatype Result<+T, +E> = Ok(value: T) | Err(error: E)

  lemma Assoc<T>(a: seq<T>, b: seq<T>, c: seq<T>)
    ensures a + (b + c) == a + b + c
  {
  }

  /** The first index of `c`, or the length when there is none. */
  function Find<T(==)>(s: seq<T>, c: T): (i: nat)
    ensures i <= |s|
    ensures c !in s[..i] && forall k | 0 <= k < i :: s[k] != c
    ensures i < |s| ==> s[i] == c
  {
    if s == [] then 0 else if s[0] == c then 0 else
      var i := 1 + Find(s[1..], c);
      assert s[..i] == [s[0]] + s[1..][..i - 1];
      i
  }

  lemma FindIs<T>(s: seq<T>, c: T, i: nat)
    requires i <= |s| && c !in s[..i] && (i < |s| ==> s[i] == c)
    ensures Find(s, c) == i
  {
    forall k | 0 <= k < i ensures s[k] != c {
      assert s[k] == s[..i][k];
    }
  }

  // ---- Lines ----

  function StripCr(line: string): (l: string)
  {
    if line != "" && line[|line| - 1] == '\r' then line[..|line| - 1] else line
  }

  /** `str::lines`: split after every line feed, drop it and one carriage return
      before it; nothing follows the last line feed. */
  function Lines(s: string): (ls: seq<string>)
  {
    if s == "" then []
    else
      var i := Find(s, '\n');
      if i == |s| then [s] else [StripCr(s[..i])] + Lines(s[i + 1..])
  }

  /** A line that `Lines` gives back as it was written. */
  predicate PlainLine(l: string)
  {
    '\n' !in l && StripCr(l) == l
  }

  lemma LinesHead(l: string, rest: string)
    requires PlainLine(l)
    ensures Lines(l + "\n" + rest) == [l] + Lines(rest)
  {
    var s := l + "\n" + rest;
    assert s[..|l|] == l && s[|l|] == '\n' && s[|l| + 1..] == rest;
    FindIs(s, '\n', |l|);
  }

  /** Every line written with its line feed. */
  function Unlines(ls: seq<string>): (s: string)
  {
    if ls == [] then "" else ls[0] + "\n" + Unlines(ls[1..])
  }

  lemma {:induction false} LinesOfUnlines(ls: seq<string>)
    requires forall l | l in ls :: PlainLine(l)
    ensures Lines(Unlines(ls)) == ls
  {
    if ls != [] {
      LinesHead(ls[0], Unlines(ls[1..]));
      LinesOfUnlines(ls[1..]);
    }
  }

  lemma {:induction false} UnlinesAdds(a: seq<string>, b: seq<string>)
    ensures Unlines(a + b) == Unlines(a) + Unlines(b)
  {
    if a == [] {
      assert a + b == b;
    } else {
      assert (a + b)[1..] == a[1..] + b;
      UnlinesAdds(a[1..], b);
      assert a[0] + "\n" + (Unlines(a[1..]) + Unlines(b)) == (a[0] + "\n" + Unlines(a[1..])) + Unlines(b);
    }
  }

  lemma UnlinesPush(ls: seq<string>, l: string)
    ensures Unlines(ls + [l]) == Unlines(ls) + l + "\n"
  {
    UnlinesAdds(ls, [l]);
    assert Unlines([l]) == l + "\n";
    Assoc(Unlines(ls), l, "\n");
  }

  // ---- White space ----

  /** `char::is_whitespace`: Unicode White_Space. */
  predicate IsWhitespace(c: char)
  {
    '\t' <= c <= '\U{0D}' || c == ' ' || c == '\U{85}' || c == '\U{A0}' || c == '\U{1680}'
    || '\U{2000}' <= c <= '\U{200A}' || c == '\U{2028}' || c == '\U{2029}' || c == '\U{202F}'
    || c == '\U{205F}' || c == '\U{3000}'
  }

  predicate NoWhitespace(s: string)
  {
    forall c | c in s :: !IsWhitespace(c)
  }

  function TrimStart(s: string): (t: string)
    ensures |t| <= |s|
    ensures t != "" ==> !IsWhitespace(t[0])
  {
    if s != "" && IsWhitespace(s[0]) then TrimStart(s[1..]) else s
  }

  function TrimEnd(s: string): (t: string)
    ensures t <= s
    ensures t != "" ==> !IsWhitespace(t[|t| - 1])
  {
    if s != "" && IsWhitespace(s[|s| - 1]) then TrimEnd(s[..|s| - 1]) else s
  }

  function Trim(s: string): (t: string)
    ensures t != "" ==> !IsWhitespace(t[0]) && !IsWhitespace(t[|t| - 1])
  {
    TrimEnd(TrimStart(s))
  }

  /** What `Trim` returns unchanged. */
  predicate Trimmed(s: string)
  {
    s != "" ==> !IsWhitespace(s[0]) && !IsWhitespace(s[|s| - 1])
  }

  lemma TrimOfTrimmed(s: string)
    requires Trimmed(s)
    ensures Trim(s) == s
  {
  }

  lemma TrimOfPadded(s: string)
    requires Trimmed(s)
    ensures Trim(" " + s) == s
  {
    assert (" " + s)[1..] == s;
    assert TrimStart(" " + s) == TrimStart(s) == s;
  }

  /** `str::split_whitespace`. */
  function Words(s: string): (ws: seq<string>)
    decreases |s|
  {
    if s == "" then []
    else if IsWhitespace(s[0]) then Words(s[1..])
    else
      var n := WordLength(s);
      [s[..n]] + Words(s[n..])
  }

  function WordLength(s: string): (n: nat)
    ensures n <= |s| && NoWhitespace(s[..n]) && forall k | 0 <= k < n :: !IsWhitespace(s[k])
    ensures n < |s| ==> IsWhitespace(s[n])
    ensures s != "" && !IsWhitespace(s[0]) ==> n > 0
  {
    if s == "" || IsWhitespace(s[0]) then 0
    else
      var n := 1 + WordLength(s[1..]);
      assert s[..n] == [s[0]] + s[1..][..n - 1];
      n
  }

  lemma WordLengthIs(s: string, n: nat)
    requires n <= |s| && NoWhitespace(s[..n]) && (n < |s| ==> IsWhitespace(s[n]))
    ensures WordLength(s) == n
  {
    forall k | 0 <= k < n ensures !IsWhitespace(s[k]) {
      assert s[k] == s[..n][k];
    }
  }

  lemma WordsHead(w: string, rest: string)
    requires w != "" && NoWhitespace(w) && (rest != "" ==> IsWhitespace(rest[0]))
    ensures Words(w + rest) == [w] + Words(rest)
  {
    var s := w + rest;
    assert s[0] in w;
    assert s[..|w|] == w && s[|w|..] == rest;
    WordLengthIs(s, |w|);
  }

  // ---- Splitting and joining ----

  /** `str::split` at a character: one piece more than there are separators. */
  function SplitOn<T(==)>(s: seq<T>, c: T): (parts: seq<seq<T>>)
    ensures |parts| > 0
    ensures forall p | p in parts :: c !in p
    decreases |s|
  {
    var i := Find(s, c);
    if i == |s| then assert s[..i] == s; [s] else [s[..i]] + SplitOn(s[i + 1..], c)
  }

  /** `[String]::join`. */
  function Join<T>(parts: seq<seq<T>>, sep: seq<T>): (s: seq<T>)
  {
    if |parts| == 0 then [] else if |parts| == 1 then parts[0] else parts[0] + sep + Join(parts[1..], sep)
  }

  lemma {:induction false} SplitOfJoin<T>(parts: seq<seq<T>>, c: T)
    requires |parts| > 0 && forall p | p in parts :: c !in p
    ensures SplitOn(Join(parts, [c]), c) == parts
  {
    var s := Join(parts, [c]);
    var p := parts[0];
    assert p in parts;
    if |parts| == 1 {
      assert s[..|s|] == s;
      FindIs(s, c, |s|);
    } else {
      var rest := Join(parts[1..], [c]);
      assert s[..|p|] == p && s[|p|] == c && s[|p| + 1..] == rest;
      FindIs(s, c, |p|);
      SplitOfJoin(parts[1..], c);
    }
  }

  lemma JoinCons<T>(p: seq<T>, parts: seq<seq<T>>, sep: seq<T>)
    requires |parts| > 0
    ensures Join([p] + parts, sep) == p + sep + Join(parts, sep)
  {
    assert ([p] + parts)[1..] == parts;
  }

  lemma {:induction false} JoinOfSplit<T>(s: seq<T>, c: T)
    ensures Join(SplitOn(s, c), [c]) == s
    decreases |s|
  {
    hide Find, SplitOn, Join;
    var i := Find(s, c);
    SplitAt(s, c, i);
    if i < |s| {
      var rest := s[i + 1..];
      JoinOfSplit(rest, c);
      SplitNonempty(rest, c);
      JoinCons(s[..i], SplitOn(rest, c), [c]);
      CutAndJoined(s, c, i);
    } else {
      JoinOne(s, [c]);
    }
  }

  lemma SplitAt<T>(s: seq<T>, c: T, i: nat)
    requires i == Find(s, c)
    ensures SplitOn(s, c) == if i < |s| then [s[..i]] + SplitOn(s[i + 1..], c) else [s]
  {
    hide Find;
  }

  lemma SplitNonempty<T>(s: seq<T>, c: T)
    ensures |SplitOn(s, c)| > 0
  {
  }

  lemma JoinOne<T>(s: seq<T>, sep: seq<T>)
    ensures Join([s], sep) == s
  {
  }

  lemma CutAndJoined<T>(s: seq<T>, c: T, i: nat)
    requires i < |s| && s[i] == c
    ensures s[..i] + [c] + s[i + 1..] == s
  {
  }

  /** Text that ends in a separator has an empty last piece. */
  lemma {:induction false} EndsEmpty<T>(s: seq<T>, c: T)
    requires s != [] && s[|s| - 1] == c
    ensures [] in SplitOn(s, c)
    decreases |s|
  {
    var i := Find(s, c);
    assert i < |s|;
    var rest := s[i + 1..];
    assert SplitOn(s, c)[1..] == SplitOn(rest, c);
    if rest == [] {
      assert SplitOn(rest, c)[0] == [];
    } else {
      EndsEmpty(rest, c);
    }
    assert [] in SplitOn(s, c)[1..];
  }

  /** Every character of a text is a separator or in one of its pieces. */
  lemma {:induction false} PiecesCover<T>(s: seq<T>, c: T, i: nat)
    requires i < |s| && s[i] != c
    ensures exists p | p in SplitOn(s, c) :: s[i] in p
    decreases |s|
  {
    var j := Find(s, c);
    if j == |s| {
      assert s[i] in SplitOn(s, c)[0];
    } else if i < j {
      assert s[i] == s[..j][i];
      assert SplitOn(s, c)[0] == s[..j];
      assert s[i] in SplitOn(s, c)[0];
    } else {
      assert s[i] == s[j + 1..][i - j - 1];
      PiecesCover(s[j + 1..], c, i - j - 1);
      var p :| p in SplitOn(s[j + 1..], c) && s[i] in p;
      assert SplitOn(s, c)[1..] == SplitOn(s[j + 1..], c);
      assert p in SplitOn(s, c)[1..];
    }
  }

  function TrimAll(parts: seq<string>): (r: seq<string>)
  {
    if parts == [] then []
    else (if Trim(parts[0]) == "" then [] else [Trim(parts[0])]) + TrimAll(parts[1..])
  }

  /** The items of a comma-separated list, trimmed, empty ones dropped. */
  function SplitList(value: string): (items: seq<string>)
  {
    TrimAll(SplitOn(value, ','))
  }

  /** `str::strip_prefix`. */
  function StripPrefix(s: string, prefix: string): (r: Option<string>)
  {
    if prefix <= s then Some(s[|prefix|..]) else None
  }

  /** `s.split(c).next()`: everything before the first `c`. */
  function Before(s: string, c: char): (r: string)
    ensures c !in r && r <= s
  {
    s[..Find(s, c)]
  }

  lemma BeforeIsAll(s: string, c: char)
    requires c !in s
    ensures Before(s, c) == s
  {
    assert s[..|s|] == s;
    FindIs(s, c, |s|);
  }

  /** `trim_end_matches(c)`. */
  function TrimEndChar<T(==)>(s: seq<T>, c: T): (t: seq<T>)
    ensures t <= s
    ensures t != [] ==> t[|t| - 1] != c
  {
    if s != [] && s[|s| - 1] == c then TrimEndChar(s[..|s| - 1], c) else s
  }

  // ---- ASCII case ----

  function LowerChar(c: char): (d: char)
  {
    if 'A' <= c <= 'Z' then c - 'A' + 'a' else c
  }

  /** `to_ascii_lowercase`. */
  function Lower(s: string): (t: string)
    ensures |t| == |s|
    ensures forall i | 0 <= i < |s| :: t[i] == LowerChar(s[i])
  {
    seq(|s|, i requires 0 <= i < |s| => LowerChar(s[i]))
  }

  lemma LowerTwice(s: string)
    ensures Lower(Lower(s)) == Lower(s)
  {
  }

  // ---- Decimal numbers ----

  function Digit(d: nat): (c: char)
    requires d < 10
  {
    '0' + d as char
  }

  /** The decimal digits of `n`, as `to_string` prints them. */
  function Decimal(n: nat): (s: string)
    ensures s != "" && forall c | c in s :: '0' <= c <= '9'
  {
    if n < 10 then [Digit(n)] else Decimal(n / 10) + [Digit(n % 10)]
  }

  function ReadDecimal(s: string): (n: Option<nat>)
  {
    if s == "" then None
    else if !('0' <= s[|s| - 1] <= '9') then None
    else
      var d := (s[|s| - 1] - '0') as nat;
      if |s| == 1 then Some(d)
      else match ReadDecimal(s[..|s| - 1])
        case None => None
        case Some(n) => Some(10 * n + d)
  }

  lemma {:induction false} ReadOfDecimal(n: nat)
    ensures ReadDecimal(Decimal(n)) == Some(n)
  {
    if n >= 10 {
      ReadOfDecimal(n / 10);
      var s := Decimal(n);
      assert s[..|s| - 1] == Decimal(n / 10);
    }
  }
}
