/**
 * The sign-in message and what of it is signed. Strings are sequences of
 * bytes, one character a byte.
 */
module Siwe {
  import opened Wrappers
  import Text

  // ----- Splitting, as Go's strings package does it -----

  predicate StartsWith(s: string, p: string) {
    |p| <= |s| && s[..|p|] == p
  }

  predicate EndsWith(s: string, p: string) {
    |p| <= |s| && s[|s| - |p|..] == p
  }

  predicate Occurs(s: string, sep: string, i: nat) {
    i + |sep| <= |s| && s[i..i + |sep|] == sep
  }

  /** Where sep first occurs. */
  function Index(s: string, sep: string): (r: Option<nat>)
    ensures r.Some? ==> r.value + |sep| <= |s| && s[r.value..r.value + |sep|] == sep
  {
    if StartsWith(s, sep) then Some(0)
    else if s == "" then None
    else match Index(s[1..], sep)
      case None => None
      case Some(i) => Some(i + 1)
  }

  function Split(s: string, sep: string): (parts: seq<string>)
    requires sep != ""
    ensures |parts| > 0
    decreases |s|
  {
    match Index(s, sep)
    case None => [s]
    case Some(i) => [s[..i]] + Split(s[i + |sep|..], sep)
  }

  function Join(parts: seq<string>, sep: string): string
    requires |parts| > 0
  {
    if |parts| == 1 then parts[0] else parts[0] + sep + Join(parts[1..], sep)
  }

  function TrimSuffix(s: string, p: string): string {
    if EndsWith(s, p) then s[..|s| - |p|] else s
  }

  lemma {:induction false} IndexIsFirst(s: string, sep: string, j: nat)
    requires j + |sep| <= |s| && s[j..j + |sep|] == sep
    ensures Index(s, sep).Some? && Index(s, sep).value <= j
    decreases j
  {
    if j > 0 && !StartsWith(s, sep) {
      assert s[1..][j - 1..j - 1 + |sep|] == sep;
      IndexIsFirst(s[1..], sep, j - 1);
    }
  }

  lemma CutAt(s: string, sep: string, i: nat)
    requires i + |sep| <= |s| && s[i..i + |sep|] == sep
    ensures s == s[..i] + sep + s[i + |sep|..]
  {
    assert s == s[..i] + s[i..i + |sep|] + s[i + |sep|..];
  }

  lemma JoinCons(first: string, rest: seq<string>, sep: string)
    requires |rest| > 0
    ensures Join([first] + rest, sep) == first + sep + Join(rest, sep)
  {
    assert ([first] + rest)[1..] == rest;
  }

  /** Joining undoes splitting. */
  lemma {:induction false} JoinSplit(s: string, sep: string)
    requires sep != ""
    ensures Join(Split(s, sep), sep) == s
    decreases |s|
  {
    match Index(s, sep)
    case None =>
    case Some(i) =>
      var rest := s[i + |sep|..];
      JoinSplit(rest, sep);
      JoinCons(s[..i], Split(rest, sep), sep);
      CutAt(s, sep, i);
  }

  lemma {:induction false} NoIndex(s: string, c: char)
    requires c !in s
    ensures Index(s, [c]) == None
  {
    if s != "" {
      assert s[..1][0] == s[0] != c;
      NoIndex(s[1..], c);
    }
  }

  lemma {:induction false} IndexAfter(s: string, c: char, rest: string)
    requires c !in s
    ensures Index(s + [c] + rest, [c]) == Some(|s|)
  {
    var t := s + [c] + rest;
    if s != "" {
      assert t[..1][0] == s[0] != c;
      IndexAfter(s[1..], c, rest);
      assert t[1..] == s[1..] + [c] + rest;
    }
  }

  lemma CutJoined(first: string, c: char, rest: string)
    ensures (first + [c] + rest)[..|first|] == first && (first + [c] + rest)[|first| + 1..] == rest
  {
  }

  lemma SplitCons(first: string, c: char, rest: string)
    requires c !in first
    ensures Split(first + [c] + rest, [c]) == [first] + Split(rest, [c])
  {
    IndexAfter(first, c, rest);
    CutJoined(first, c, rest);
  }

  /** Splitting undoes joining, for parts that do not contain the separator. */
  lemma {:induction false} SplitJoin(parts: seq<string>, c: char)
    requires |parts| > 0 && forall i :: 0 <= i < |parts| ==> c !in parts[i]
    ensures Split(Join(parts, [c]), [c]) == parts
    decreases |parts|
  {
    if |parts| == 1 {
      NoIndex(parts[0], c);
    } else {
      SplitJoin(parts[1..], c);
      SplitCons(parts[0], c, Join(parts[1..], [c]));
      assert parts == [parts[0]] + parts[1..];
    }
  }

  lemma {:induction false} SplitParts(s: string, c: char)
    ensures forall i :: 0 <= i < |Split(s, [c])| ==> c !in Split(s, [c])[i]
    decreases |s|
  {
    match Index(s, [c])
    case None =>
      if c in s {
        var j :| 0 <= j < |s| && s[j] == c;
        assert s[j..j + |[c]|] == [c];
        IndexIsFirst(s, [c], j);
      }
    case Some(i) =>
      if c in s[..i] {
        var j :| 0 <= j < i && s[j] == c;
        assert s[j..j + |[c]|] == [c];
        IndexIsFirst(s, [c], j);
      }
      SplitParts(s[i + 1..], c);
  }

  // ----- The domain -----

  datatype Client = Client(hubURL: string, domain: string, address: string)

  function NewClient(hubURL: string, domain: string, address: string): Client {
    Client(TrimSuffix(hubURL, "/"), domain, address)
  }

  function DomainOf(hubURL: string): string {
    if Index(hubURL, "://").None? then "localhost"
    else
      var parts := Split(hubURL, "://");
      if |parts| > 1 then
        var hostPort := Split(parts[1], ":")[0];
        var host := Split(hostPort, "/")[0];
        if host != "" then host else "localhost"
      else "localhost"
  }

  predicate EndsHost(c: char) {
    c == ':' || c == '/'
  }

  /** h is the longest prefix of s without ':' or '/'. */
  predicate IsHost(s: string, h: string) {
    && StartsWith(s, h)
    && (forall i :: 0 <= i < |h| ==> !EndsHost(h[i]))
    && (|h| < |s| ==> EndsHost(s[|h|]))
  }

  lemma HostUnique(s: string, g: string, h: string)
    requires IsHost(s, g) && IsHost(s, h)
    ensures g == h
  {
  }

  /** The first part of a split is what comes before the first separator. */
  lemma SplitHead(s: string, sep: string)
    requires sep != ""
    ensures var h := Split(s, sep)[0];
            && StartsWith(s, h)
            && (h == s || (|h| + |sep| <= |s| && s[|h|..|h| + |sep|] == sep))
  {
  }

  lemma SplitHeadFree(s: string, c: char)
    ensures var h := Split(s, [c])[0];
            && StartsWith(s, h) && c !in h && (|h| < |s| ==> s[|h|] == c)
  {
    SplitHead(s, [c]);
    SplitParts(s, c);
    var h := Split(s, [c])[0];
    if h != s {
      assert s[|h|..|h| + 1][0] == c;
    }
  }

  /** What is cut at "://", then at ':', then at '/' is cut at the first ':' or '/'. */
  lemma NestedHost(rest: string, body: string, hostPort: string, host: string)
    requires StartsWith(rest, body) && (|body| < |rest| ==> rest[|body|] == ':')
    requires StartsWith(body, hostPort) && ':' !in hostPort && (|hostPort| < |body| ==> body[|hostPort|] == ':')
    requires StartsWith(hostPort, host) && '/' !in host && (|host| < |hostPort| ==> hostPort[|host|] == '/')
    ensures IsHost(rest, host)
  {
    assert forall i :: 0 <= i < |host| ==> host[i] == hostPort[i] && hostPort[i] == body[i] && body[i] == rest[i];
    if |host| < |hostPort| {
      assert rest[|host|] == body[|host|] == hostPort[|host|] == '/';
    } else if |hostPort| < |body| {
      assert rest[|hostPort|] == body[|hostPort|] == ':';
    }
  }

  /** Without a configured domain, the one used is the host part of the hub URL, or localhost when that is empty. */
  lemma DomainIsHost(hubURL: string, h: string)
    requires Index(hubURL, "://").Some? && IsHost(hubURL[Index(hubURL, "://").value + 3..], h)
    ensures DomainOf(hubURL) == if h == "" then "localhost" else h
  {
    var rest := hubURL[Index(hubURL, "://").value + 3..];
    var body := Split(rest, "://")[0];
    var hostPort := Split(body, ":")[0];
    var host := Split(hostPort, "/")[0];
    assert Split(hubURL, "://")[1] == body;
    SplitHead(rest, "://");
    if body != rest {
      assert rest[|body|] == rest[|body|..|body| + 3][0] == ':';
    }
    SplitHeadFree(body, ':');
    SplitHeadFree(hostPort, '/');
    NestedHost(rest, body, hostPort, host);
    HostUnique(rest, host, h);
  }

  // ----- The message -----

  datatype Fields = Fields(domain: string, address: string, uri: string, nonce: string, issuedAt: string)

  const GREETING := " wants you to sign in with your Ethereum account:"
  const STATEMENT := "Sign in to Worldland GPU Rental Platform as Provider"

  function FieldsOf(c: Client, nonce: string, issuedAt: string): Fields {
    Fields(if c.domain == "" then DomainOf(c.hubURL) else c.domain, c.address, c.hubURL, nonce, issuedAt)
  }

  function Lines(f: Fields): seq<string> {
    [f.domain + GREETING, f.address, "", STATEMENT, "", "URI: " + f.uri, "Version: 1", "Chain ID: 56",
     "Nonce: " + f.nonce, "Issued At: " + f.issuedAt]
  }

  function Message(f: Fields): string {
    Join(Lines(f), "\n")
  }

  function CreateSIWEMessage(c: Client, nonce: string, issuedAt: string): string {
    Message(FieldsOf(c, nonce, issuedAt))
  }

  lemma JoinTwo(a: string, b: string, sep: string)
    ensures Join([a, b], sep) == a + sep + b
  {
    assert [a, b] == [a] + [b];
    JoinCons(a, [b], sep);
  }

  lemma JoinThree(a: string, b: string, c: string, sep: string)
    ensures Join([a, b, c], sep) == a + sep + b + sep + c
  {
    assert [a, b, c] == [a] + [b, c];
    JoinCons(a, [b, c], sep);
    JoinTwo(b, c, sep);
    assert a + sep + (b + sep + c) == a + sep + b + sep + c;
  }

  lemma JoinFive(a: string, b: string, c: string, d: string, e: string, sep: string)
    ensures Join([a, b, c, d, e], sep) == a + sep + b + sep + c + sep + d + sep + e
  {
    assert [a, b, c, d, e] == [a, b] + [c, d, e];
    JoinAppend([a, b], [c, d, e], sep);
    JoinTwo(a, b, sep);
    JoinThree(c, d, e, sep);
    assert a + sep + b + sep + (c + sep + d + sep + e) == a + sep + b + sep + c + sep + d + sep + e;
  }

  /** The message as ERC-4361 lays it out, line by line, with the values this client fills in. */
  lemma MessageText(f: Fields)
    ensures Message(f)
            == (f.domain + " wants you to sign in with your Ethereum account:") + "\n" + f.address + "\n"
               + "" + "\n" + "Sign in to Worldland GPU Rental Platform as Provider" + "\n"
               + ""
               + "\n"
               + (("URI: " + f.uri) + "\n" + "Version: 1" + "\n" + "Chain ID: 56" + "\n" + ("Nonce: " + f.nonce) + "\n"
                  + ("Issued At: " + f.issuedAt))
  {
    var first := [f.domain + GREETING, f.address, "", STATEMENT, ""];
    var second := ["URI: " + f.uri, "Version: 1", "Chain ID: 56", "Nonce: " + f.nonce, "Issued At: " + f.issuedAt];
    assert Lines(f) == first + second;
    JoinAppend(first, second, "\n");
    JoinFive(f.domain + GREETING, f.address, "", STATEMENT, "", "\n");
    JoinFive("URI: " + f.uri, "Version: 1", "Chain ID: 56", "Nonce: " + f.nonce, "Issued At: " + f.issuedAt, "\n");
  }

  predicate OneLine(s: string) {
    forall i :: 0 <= i < |s| ==> s[i] != '\n'
  }

  predicate NewlineFree(f: Fields) {
    OneLine(f.domain) && OneLine(f.address) && OneLine(f.uri) && OneLine(f.nonce) && OneLine(f.issuedAt)
  }

  function DecodeLines(l: seq<string>): Option<Fields> {
    if |l| == 10 && EndsWith(l[0], GREETING) && l[2] == "" && l[3] == STATEMENT && l[4] == ""
       && StartsWith(l[5], "URI: ") && l[6] == "Version: 1" && l[7] == "Chain ID: 56"
       && StartsWith(l[8], "Nonce: ") && StartsWith(l[9], "Issued At: ")
    then Some(Fields(l[0][..|l[0]| - |GREETING|], l[1], l[5][5..], l[8][7..], l[9][11..]))
    else None
  }

  /** Reads a message line by line. */
  function Decode(m: string): Option<Fields> {
    DecodeLines(Split(m, "\n"))
  }

  lemma PrefixedLine(p: string, s: string)
    requires OneLine(p) && OneLine(s)
    ensures OneLine(p + s)
  {
  }

  lemma Pieces(p: string, s: string)
    ensures StartsWith(p + s, p) && (p + s)[|p|..] == s
    ensures EndsWith(p + s, s) && (p + s)[..|p + s| - |s|] == p
  {
  }

  lemma DecodeOwnLines(f: Fields)
    ensures DecodeLines(Lines(f)) == Some(f)
  {
    Pieces(f.domain, GREETING);
    Pieces("URI: ", f.uri);
    Pieces("Nonce: ", f.nonce);
    Pieces("Issued At: ", f.issuedAt);
  }

  lemma LinesDecoded(l: seq<string>)
    requires DecodeLines(l).Some?
    ensures Lines(DecodeLines(l).value) == l
  {
    var f := DecodeLines(l).value;
    assert l[0] == f.domain + GREETING;
    assert l[5] == "URI: " + f.uri;
    assert l[8] == "Nonce: " + f.nonce;
    assert l[9] == "Issued At: " + f.issuedAt;
  }

  lemma LinesAreLines(f: Fields)
    requires NewlineFree(f)
    ensures forall i :: 0 <= i < |Lines(f)| ==> OneLine(Lines(f)[i])
  {
    PrefixedLine(" wants you to sign in", " with your Ethereum account:");
    PrefixedLine("Sign in to Worldland GPU", " Rental Platform as Provider");
    PrefixedLine(f.domain, GREETING);
    PrefixedLine("URI: ", f.uri);
    PrefixedLine("Nonce: ", f.nonce);
    PrefixedLine("Issued At: ", f.issuedAt);
  }

  /** Reading back a message made of newline-free fields recovers them all. */
  lemma DecodeMessage(f: Fields)
    requires NewlineFree(f)
    ensures Decode(Message(f)) == Some(f)
  {
    LinesAreLines(f);
    SplitJoin(Lines(f), '\n');
    DecodeOwnLines(f);
  }

  lemma StartIsOneLine(s: string, h: string)
    requires OneLine(s) && StartsWith(s, h)
    ensures OneLine(h)
  {
    assert forall i :: 0 <= i < |h| ==> h[i] == s[i];
  }

  /** What follows the first separator, up to the next. */
  lemma SecondPart(s: string, sep: string)
    requires sep != "" && Index(s, sep).Some?
    ensures var rest := s[Index(s, sep).value + |sep|..];
            |Split(s, sep)| > 1 && Split(s, sep)[1] == Split(rest, sep)[0]
  {
  }

  /** The host cut out of what follows "://" is one line if that is. */
  lemma HostIsOneLine(rest: string)
    requires OneLine(rest)
    ensures OneLine(Split(Split(Split(rest, "://")[0], ":")[0], "/")[0])
  {
    var body := Split(rest, "://")[0];
    var hostPort := Split(body, ":")[0];
    SplitHead(rest, "://");
    StartIsOneLine(rest, body);
    SplitHeadFree(body, ':');
    StartIsOneLine(body, hostPort);
    SplitHeadFree(hostPort, '/');
    StartIsOneLine(hostPort, Split(hostPort, "/")[0]);
  }

  /** A URL without "://" has no host to offer. */
  lemma NoSchemeIsLocal(hubURL: string)
    requires forall i: nat :: !Occurs(hubURL, "://", i)
    ensures DomainOf(hubURL) == "localhost"
  {
    assert Index(hubURL, "://").Some? ==> Occurs(hubURL, "://", Index(hubURL, "://").value);
  }

  /** The host of a one-line URL is one line. */
  lemma DomainIsOneLine(hubURL: string)
    requires OneLine(hubURL)
    ensures OneLine(DomainOf(hubURL))
  {
    if Index(hubURL, "://").Some? {
      var rest := hubURL[Index(hubURL, "://").value + 3..];
      SecondPart(hubURL, "://");
      HostIsOneLine(rest);
    }
  }

  /**
   * What the Hub reads from the message of a client: the configured domain, or
   * else the host of its URL; the client's address; the URL without a trailing
   * slash; and the nonce and time that were passed.
   */
  lemma ClientMessageDecoded(hubURL: string, domain: string, address: string, nonce: string, issuedAt: string)
    requires OneLine(hubURL) && OneLine(domain) && OneLine(address) && OneLine(nonce) && OneLine(issuedAt)
    ensures var c := NewClient(hubURL, domain, address);
            && (c.hubURL == hubURL || c.hubURL + "/" == hubURL) && (EndsWith(hubURL, "/") ==> c.hubURL != hubURL)
            && Decode(CreateSIWEMessage(c, nonce, issuedAt))
               == Some(Fields(if domain != "" then domain else DomainOf(c.hubURL), address, c.hubURL, nonce, issuedAt))
  {
    var c := NewClient(hubURL, domain, address);
    assert StartsWith(hubURL, c.hubURL);
    StartIsOneLine(hubURL, c.hubURL);
    DomainIsOneLine(c.hubURL);
    DecodeMessage(FieldsOf(c, nonce, issuedAt));
  }

  /** So the messages of two logins are the same only if they are for the same domain, address, URL, nonce and time. */
  lemma ClientMessagesDiffer(c: Client, d: Client, nonce: string, other: string, issuedAt: string, later: string)
    requires OneLine(c.hubURL) && OneLine(c.domain) && OneLine(c.address) && OneLine(nonce) && OneLine(issuedAt)
    requires OneLine(d.hubURL) && OneLine(d.domain) && OneLine(d.address) && OneLine(other) && OneLine(later)
    requires Prefixed(CreateSIWEMessage(c, nonce, issuedAt)) == Prefixed(CreateSIWEMessage(d, other, later))
    ensures c.hubURL == d.hubURL && c.address == d.address && nonce == other && issuedAt == later
    ensures c.domain != "" && d.domain != "" ==> c.domain == d.domain
  {
    DomainIsOneLine(c.hubURL);
    DomainIsOneLine(d.hubURL);
    SignatureCoversFields(FieldsOf(c, nonce, issuedAt), FieldsOf(d, other, later));
  }

  lemma PartOfLine(s: string, i: nat, j: nat)
    requires i <= j <= |s| && '\n' !in s
    ensures OneLine(s[i..j])
  {
  }

  /** Whatever can be read as a message is one, made of just the fields read, which have no newlines. */
  lemma MessageDecode(m: string)
    requires Decode(m).Some?
    ensures Message(Decode(m).value) == m && NewlineFree(Decode(m).value)
  {
    var l := Split(m, "\n");
    JoinSplit(m, "\n");
    SplitParts(m, '\n');
    LinesDecoded(l);
    PartOfLine(l[0], 0, |l[0]| - |GREETING|);
    PartOfLine(l[1], 0, |l[1]|);
    PartOfLine(l[5], 5, |l[5]|);
    PartOfLine(l[8], 7, |l[8]|);
    PartOfLine(l[9], 11, |l[9]|);
  }

  lemma TwoLines(nonce: string, time: string)
    ensures Join(["Nonce: " + nonce, "Issued At: " + time], "\n") == ("Nonce: " + nonce) + "\n" + ("Issued At: " + time)
  {
    assert ["Nonce: " + nonce, "Issued At: " + time][1..] == ["Issued At: " + time];
  }

  lemma Regroup(n: string, x: string, y: string, first: string, second: string, nl: string)
    ensures (first + (n + nl + second + x)) + nl + (second + y) == (first + n) + nl + (second + (x + nl + second + y))
  {
  }

  /** A newline in the nonce or the time lets two different sets of fields share one message. */
  lemma NewlinesAreAmbiguous(base: Fields, n: string, x: string, y: string)
    ensures var f := base.(nonce := n + "\n" + "Issued At: " + x, issuedAt := y);
            var g := base.(nonce := n, issuedAt := x + "\n" + "Issued At: " + y);
            f != g && Message(f) == Message(g)
  {
    var f := base.(nonce := n + "\n" + "Issued At: " + x, issuedAt := y);
    var g := base.(nonce := n, issuedAt := x + "\n" + "Issued At: " + y);
    assert |f.nonce| > |g.nonce|;
    var common := Lines(base)[..8];
    assert Lines(f) == common + ["Nonce: " + f.nonce, "Issued At: " + f.issuedAt];
    assert Lines(g) == common + ["Nonce: " + g.nonce, "Issued At: " + g.issuedAt];
    JoinAppend(common, ["Nonce: " + f.nonce, "Issued At: " + f.issuedAt], "\n");
    JoinAppend(common, ["Nonce: " + g.nonce, "Issued At: " + g.issuedAt], "\n");
    TwoLines(f.nonce, f.issuedAt);
    TwoLines(g.nonce, g.issuedAt);
    Regroup(n, x, y, "Nonce: ", "Issued At: ", "\n");
  }

  lemma {:induction false} JoinAppend(a: seq<string>, b: seq<string>, sep: string)
    requires |a| > 0 && |b| > 0
    ensures Join(a + b, sep) == Join(a, sep) + sep + Join(b, sep)
    decreases |a|
  {
    if |a| == 1 {
      assert (a + b)[1..] == b;
    } else {
      JoinAppend(a[1..], b, sep);
      assert (a + b)[1..] == a[1..] + b;
    }
  }

  // ----- What is signed -----

  const PREFIX := "\U{19}Ethereum Signed Message:\n"

  function Prefixed(m: string): string {
    PREFIX + Text.Decimal(|m|) + m
  }

  /** No two messages are signed alike, whatever bytes they start with: the length of what is signed tells theirs. */
  lemma PrefixInjective(m: string, n: string)
    requires Prefixed(m) == Prefixed(n)
    ensures m == n
  {
    if |m| <= |n| {
      Text.DecimalLengthMonotone(|m|, |n|);
    } else {
      Text.DecimalLengthMonotone(|n|, |m|);
    }
    assert |Prefixed(m)| == |PREFIX| + |Text.Decimal(|m|)| + |m|;
    assert |Prefixed(n)| == |PREFIX| + |Text.Decimal(|n|)| + |n|;
    assert Prefixed(m)[|Prefixed(m)| - |m|..] == m;
    assert Prefixed(n)[|Prefixed(n)| - |n|..] == n;
  }

  /** s is the prefix of EIP-191 version 0x45, the length of m in decimal as l, and m. */
  predicate SignsOver(s: string, l: string, m: string) {
    && s == "\U{19}Ethereum Signed Message:\n" + l + m
    && l != "" && Text.Digits(l) && (l[0] == '0' ==> |l| == 1)
    && Text.Read(l) == |m|
  }

  /** A reader of what is signed can only find the one message that was, and its length written before it. */
  lemma PrefixedReads(m: string, l: string, n: string)
    ensures SignsOver(Prefixed(m), Text.Decimal(|m|), m)
    ensures SignsOver(Prefixed(m), l, n) ==> n == m && l == Text.Decimal(|m|)
  {
    Text.DecimalReads(|m|);
    if SignsOver(Prefixed(m), l, n) {
      Text.OneDecimal(l);
      PrefixInjective(m, n);
    }
  }

  /** What is signed for a sign-in determines every field of it. */
  lemma SignatureCoversFields(f: Fields, g: Fields)
    requires NewlineFree(f) && NewlineFree(g) && Prefixed(Message(f)) == Prefixed(Message(g))
    ensures f == g
  {
    PrefixInjective(Message(f), Message(g));
    DecodeMessage(f);
    DecodeMessage(g);
  }
}
