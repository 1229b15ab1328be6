/** models/peer.go: reading client, version and operating system out of an agent string. Strings are
    taken to be ASCII, for which folding case and lowering it are the same. */
module UserAgents {

  datatype ClientName = Prysm | Lighthouse | Teku | Cortex | Lodestar | Nimbus | Trinity | Grandine | Others

  datatype UserAgent = UserAgent(name: ClientName, version: string, os: string)

  datatype Client = Client(name: ClientName, identities: seq<string>)

  /** The map from client to possible identity names. */
  const CLIENTS: seq<Client> := [
    Client(Prysm, ["prysm"]),
    Client(Lighthouse, ["lighthouse"]),
    Client(Teku, ["teku"]),
    Client(Cortex, ["cortex"]),
    Client(Lodestar, ["lodestar", "js-libp2p"]),
    Client(Nimbus, ["nimbus"]),
    Client(Trinity, ["trinity"]),
    Client(Grandine, ["grandine", "rust-libp2p"])
  ]

  const UNKNOWN := "unknown"

  function LowerChar(c: char): char {
    if 'A' <= c <= 'Z' then (c as int + 32) as char else c
  }

  function Lower(s: string): (r: string)
    ensures |r| == |s|
  {
    if s == [] then [] else [LowerChar(s[0])] + Lower(s[1..])
  }

  /** strings.EqualFold. */
  predicate EqualFold(a: string, b: string) {
    Lower(a) == Lower(b)
  }

  /** strings.Split by one character. */
  function Split(s: string, sep: char): (parts: seq<string>)
    ensures |parts| >= 1
    ensures forall part <- parts :: sep !in part && forall c <- part :: c in s
  {
    if s == [] then [[]]
    else
      var rest := Split(s[1..], sep);
      if s[0] == sep then [[]] + rest
      else
        var first := [s[0]] + rest[0];
        assert rest[0] in rest;
        assert forall part <- rest[1..] :: part in rest;
        [first] + rest[1..]
  }

  /** strings.Contains. */
  predicate Contains(s: string, t: string) {
    exists i :: 0 <= i <= |s| - |t| && OccursAt(s, t, i)
  }

  predicate OccursAt(s: string, t: string, i: nat)
    requires i + |t| <= |s|
  {
    s[i..i + |t|] == t
  }

  function PartOr(parts: seq<string>, i: nat): string {
    if i < |parts| then parts[i] else ""
  }

  /** The client an identity belongs to. */
  function ClientOf(identity: string): ClientName {
    var id := Lower(identity);
    if id == "prysm" then Prysm
    else if id == "lighthouse" then Lighthouse
    else if id == "teku" then Teku
    else if id == "cortex" then Cortex
    else if id == "lodestar" || id == "js-libp2p" then Lodestar
    else if id == "nimbus" then Nimbus
    else if id == "trinity" then Trinity
    else if id == "grandine" || id == "rust-libp2p" then Grandine
    else Others
  }

  /** Drops everything from the first '-' on and from the first '+' on. */
  function StandardVersion(raw: string): string {
    var v := Split(Split(raw, '-')[0], '+')[0];
    if v == "" then UNKNOWN else v
  }

  /** The last of the three systems that occurs in the text. */
  function SystemOf(text: string): string {
    var os := Lower(text);
    if Contains(os, "windows") then "windows"
    else if Contains(os, "mac") then "mac"
    else if Contains(os, "linux") then "linux"
    else UNKNOWN
  }

  /** What an agent string is understood to say: Teku has one more part before its version, and
      nothing is expected after Prysm's version. */
  function ParseAgent(agent: string): UserAgent {
    var parts := Split(agent, '/');
    var name := ClientOf(parts[0]);
    if name == Teku then UserAgent(name, StandardVersion(PartOr(parts, 2)), SystemOf(PartOr(parts, 3)))
    else if name == Prysm then UserAgent(name, StandardVersion(PartOr(parts, 1)), UNKNOWN)
    else UserAgent(name, StandardVersion(PartOr(parts, 1)), SystemOf(PartOr(parts, 2)))
  }

  /** An order in which a map iteration may visit the clients. */
  ghost predicate IsOrder(order: seq<Client>) {
    multiset(order) == multiset(CLIENTS)
  }

  predicate Matches(client: Client, identity: string) {
    exists i :: 0 <= i < |client.identities| && EqualFold(client.identities[i], identity)
  }

  lemma {:induction false} AlreadyLower(s: string)
    requires forall i :: 0 <= i < |s| ==> !('A' <= s[i] <= 'Z')
    ensures Lower(s) == s
  {
    if s != [] {
      AlreadyLower(s[1..]);
    }
  }

  lemma MatchesLowered(client: Client, identity: string)
    requires client in CLIENTS
    ensures Matches(client, identity) <==> Lower(identity) in client.identities
  {
    hide Lower;
    forall i | 0 <= i < |client.identities|
      ensures Lower(client.identities[i]) == client.identities[i]
    {
      AlreadyLower(client.identities[i]);
    }
    if Lower(identity) in client.identities {
      var k :| 0 <= k < |client.identities| && client.identities[k] == Lower(identity);
      assert EqualFold(client.identities[k], identity);
    }
  }

  /** At most one client claims an identity, and it is the one ClientOf names. */
  lemma OneClaims(client: Client, identity: string)
    requires client in CLIENTS
    ensures Matches(client, identity) <==> ClientOf(identity) == client.name
  {
    hide Lower, Matches;
    MatchesLowered(client, identity);
  }

  /** The search through one client's identities. */
  method Claims(client: Client, identity: string) returns (found: bool)
    ensures found == Matches(client, identity)
  {
    found := false;
    var j := 0;
    while j < |client.identities| && !found
      invariant j <= |client.identities|
      invariant !found ==> forall k :: 0 <= k < j ==> !EqualFold(client.identities[k], identity)
      invariant found ==> Matches(client, identity)
    {
      found := EqualFold(client.identities[j], identity);
      j := j + 1;
    }
  }

  /** The search through the map: whichever order the clients are visited in, it finds the same. */
  method FindClient(order: seq<Client>, identity: string) returns (name: ClientName)
    requires IsOrder(order)
    ensures name == ClientOf(identity)
  {
    hide ClientOf, Matches, IsOrder;
    SameClients(order);
    var found := false;
    name := Others;
    var i := 0;
    while i < |order| && !found
      invariant i <= |order|
      invariant !found ==> name == Others && forall k :: 0 <= k < i ==> !Matches(order[k], identity)
      invariant found ==> name == ClientOf(identity)
    {
      OneClaims(order[i], identity);
      found := Claims(order[i], identity);
      if found {
        name := order[i].name;
      }
      i := i + 1;
    }
    if !found {
      NobodyClaims(order, identity);
    }
  }

  lemma Listed(name: ClientName) returns (i: nat)
    requires !name.Others?
    ensures i < |CLIENTS| && CLIENTS[i].name == name
  {
    i := match name
      case Prysm => 0
      case Lighthouse => 1
      case Teku => 2
      case Cortex => 3
      case Lodestar => 4
      case Nimbus => 5
      case Trinity => 6
      case Grandine => 7;
  }

  lemma SameClients(order: seq<Client>)
    requires IsOrder(order)
    ensures forall i :: 0 <= i < |order| ==> order[i] in CLIENTS
    ensures forall i :: 0 <= i < |CLIENTS| ==> CLIENTS[i] in order
  {
    assert forall i :: 0 <= i < |order| ==> order[i] in multiset(order);
    assert forall i :: 0 <= i < |CLIENTS| ==> CLIENTS[i] in multiset(CLIENTS);
  }

  lemma NobodyClaims(order: seq<Client>, identity: string)
    requires IsOrder(order) && forall k :: 0 <= k < |order| ==> !Matches(order[k], identity)
    ensures ClientOf(identity) == Others
  {
    hide Matches, ClientOf, IsOrder;
    SameClients(order);
    var name := ClientOf(identity);
    if !name.Others? {
      var i := Listed(name);
      OneClaims(CLIENTS[i], identity);
    }
  }

  /** The parsed version is never empty, and has lost every separator. */
  lemma VersionIsClean(agent: string)
    ensures var v := ParseAgent(agent).version;
            v != "" && '/' !in v && '-' !in v && '+' !in v
  {
    var parts := Split(agent, '/');
    CleanVersion(PartOr(parts, 1));
    CleanVersion(PartOr(parts, 2));
    assert '/' !in PartOr(parts, 1) && '/' !in PartOr(parts, 2);
  }

  lemma CleanVersion(raw: string)
    ensures var v := StandardVersion(raw);
            v != "" && '-' !in v && '+' !in v && ('/' !in raw ==> '/' !in v)
  {
    var a := Split(raw, '-');
    assert a[0] in a;
    var b := Split(a[0], '+');
    assert b[0] in b;
  }

  lemma {:induction false} SplitFirst(a: string, sep: char, b: string)
    requires sep !in a
    ensures Split(a + [sep] + b, sep) == [a] + Split(b, sep)
  {
    if a == [] {
      assert a + [sep] + b == [sep] + b;
    } else {
      assert (a + [sep] + b)[1..] == a[1..] + [sep] + b;
      SplitFirst(a[1..], sep, b);
      assert [a[0]] + a[1..] == a;
    }
  }

  lemma {:induction false} SplitWhole(a: string, sep: char)
    requires sep !in a
    ensures Split(a, sep) == [a]
  {
    if a != [] {
      SplitWhole(a[1..], sep);
      assert [a[0]] + a[1..] == a;
    }
  }

  /** A version as clients print it: a release, and perhaps a commit or build after '-' or '+'. */
  ghost predicate IsRelease(version: string, build: string) {
    && version != "" && '-' !in version && '+' !in version && '/' !in version
    && '/' !in build && (build != "" ==> build[0] in "-+")
  }

  lemma ReleaseIsStandard(version: string, build: string)
    requires IsRelease(version, build)
    ensures StandardVersion(version + build) == version
  {
    SplitWhole(version, '-');
    SplitWhole(version, '+');
    if build == "" {
      assert version + build == version;
    } else if build[0] == '-' {
      assert version + build == version + ['-'] + build[1..];
      SplitFirst(version, '-', build[1..]);
    } else {
      assert version + build == version + ['+'] + build[1..];
      BeforeDash(version, build);
    }
  }

  lemma BeforeDash(version: string, build: string)
    requires '-' !in version && '+' !in version && build != "" && build[0] == '+'
    ensures Split(Split(version + build, '-')[0], '+')[0] == version
  {
    SplitPrefix(version, build, '-');
    var rest := Split(build, '-')[0];
    assert rest != [] && rest[0] == '+';
    assert version + rest == version + ['+'] + rest[1..];
    SplitFirst(version, '+', rest[1..]);
  }

  lemma {:induction false} SplitPrefix(a: string, b: string, sep: char)
    requires sep !in a
    ensures Split(a + b, sep)[0] == a + Split(b, sep)[0]
  {
    if a == [] {
      assert a + b == b;
    } else {
      assert (a + b)[1..] == a[1..] + b;
      SplitPrefix(a[1..], b, sep);
    }
  }

  const SYSTEMS := ["linux", "mac", "windows"]

  /** The text has the system's name somewhere in it, in whatever case. */
  ghost predicate Names(text: string, system: string) {
    exists before, after :: Lower(text) == before + system + after
  }

  lemma ContainsIffSplits(s: string, t: string)
    ensures Contains(s, t) <==> exists before, after :: s == before + t + after
  {
    if Contains(s, t) {
      var i :| 0 <= i <= |s| - |t| && OccursAt(s, t, i);
      assert s == s[..i] + t + s[i + |t|..];
    }
    if before, after :| s == before + t + after {
      assert OccursAt(s, t, |before|);
    }
  }

  /** Windows wins over Mac, and Mac over Linux; a text that names one system yields that system, and one
      that names none is unknown. */
  lemma SystemIsNamed(text: string)
    ensures SystemOf(text) == "windows" <==> Names(text, "windows")
    ensures SystemOf(text) == "mac" <==> Names(text, "mac") && !Names(text, "windows")
    ensures SystemOf(text) == "linux" <==> Names(text, "linux") && !Names(text, "mac") && !Names(text, "windows")
    ensures SystemOf(text) == UNKNOWN <==> forall system <- SYSTEMS :: !Names(text, system)
  {
    ContainsIffSplits(Lower(text), "windows");
    ContainsIffSplits(Lower(text), "mac");
    ContainsIffSplits(Lower(text), "linux");
    hide Contains, Lower;
    assert SYSTEMS[0] == "linux" && SYSTEMS[1] == "mac" && SYSTEMS[2] == "windows";
  }

  /** Of the three systems, the text names this one only. */
  ghost predicate NamesOnly(text: string, system: string) {
    system in SYSTEMS && Names(text, system) && forall other <- SYSTEMS :: other != system ==> !Names(text, other)
  }

  lemma OnlyNamed(text: string, system: string)
    requires NamesOnly(text, system)
    ensures SystemOf(text) == system
  {
    hide SystemOf, Names;
    SystemIsNamed(text);
    assert SYSTEMS[0] == "linux" && SYSTEMS[1] == "mac" && SYSTEMS[2] == "windows";
  }

  /** The layout in which a client prints itself; `extra` is the further part only Teku has. */
  function PrintAgent(identity: string, extra: string, version: string, build: string, os: string): string {
    if ClientOf(identity) == Teku then identity + ['/'] + (extra + ['/'] + (version + build + ['/'] + os))
    else if ClientOf(identity) == Prysm then identity + ['/'] + (version + build)
    else identity + ['/'] + (version + build + ['/'] + os)
  }

  /** Parsing what a client prints recovers the client, the release and, where the client prints it,
      the operating system. */
  lemma PrintThenParse(identity: string, extra: string, version: string, build: string, os: string)
    requires '/' !in identity && '/' !in extra && '/' !in os && IsRelease(version, build)
    ensures ParseAgent(PrintAgent(identity, extra, version, build, os))
            == UserAgent(ClientOf(identity), version, if ClientOf(identity) == Prysm then UNKNOWN else SystemOf(os))
  {
    hide ClientOf, SystemOf, StandardVersion, Split;
    ReleaseIsStandard(version, build);
    var v := version + build;
    SplitWhole(os, '/');
    SplitWhole(v, '/');
    SplitFirst(v, '/', os);
    if ClientOf(identity) == Teku {
      SplitFirst(extra, '/', v + ['/'] + os);
      SplitFirst(identity, '/', extra + ['/'] + (v + ['/'] + os));
    } else if ClientOf(identity) == Prysm {
      SplitFirst(identity, '/', v);
    } else {
      SplitFirst(identity, '/', v + ['/'] + os);
    }
  }

  /** The layouts written out: Teku has its own name once more before the version, Prysm no system that is
      read, and every other client version and system in second and third place. */
  lemma LayoutsAreRead(identity: string, extra: string, version: string, build: string, os: string)
    requires '/' !in identity && '/' !in extra && '/' !in os && IsRelease(version, build)
    ensures Lower(identity) == "teku" ==>
              ParseAgent(identity + ['/'] + (extra + ['/'] + (version + build + ['/'] + os)))
              == UserAgent(Teku, version, SystemOf(os))
    ensures Lower(identity) == "prysm" ==>
              ParseAgent(identity + ['/'] + (version + build)) == UserAgent(Prysm, version, "unknown")
    ensures Lower(identity) != "teku" && Lower(identity) != "prysm" ==>
              ParseAgent(identity + ['/'] + (version + build + ['/'] + os))
              == UserAgent(ClientOf(identity), version, SystemOf(os))
  {
    hide SystemOf, ParseAgent, Lower, IsRelease;
    PrintThenParse(identity, extra, version, build, os);
  }

  /** And when what is printed names one of the three systems, that is the one read. */
  lemma PrintedSystemIsRead(identity: string, extra: string, version: string, build: string, os: string, system: string)
    requires '/' !in identity && '/' !in extra && '/' !in os && IsRelease(version, build)
    requires NamesOnly(os, system)
    ensures ParseAgent(PrintAgent(identity, extra, version, build, os))
            == UserAgent(ClientOf(identity), version, if ClientOf(identity) == Prysm then UNKNOWN else system)
  {
    hide ClientOf, SystemOf, ParseAgent, PrintAgent, NamesOnly;
    OnlyNamed(os, system);
    PrintThenParse(identity, extra, version, build, os);
  }
}
