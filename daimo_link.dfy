/** Deep links (packages/daimo-common/src/daimoLink.ts): a tagged union that
    is formatted to a URL and parsed back. Float parsing and formatting of
    dollar amounts, hex validation and address checksumming are library calls
    and are passed in as `Formats`. */
module DaimoLink {
  import opened Errors
  import opened Common
  import Decimal

  /** The library calls the parser relies on. */
  datatype Formats = Formats(
    isDollarStr: string -> bool,          // zDollarStr accepts the text
    dollarsPositive: string -> bool,      // parseFloat(text) > 0
    toFixed2: string -> string,           // parseFloat(text).toFixed(2)
    isHex: string -> bool,                // zHex accepts the text
    parseAddress: string -> Option<Address>,  // getAddress(text); None when it throws
    addressText: Address -> string)       // an address as it appears in a URL

  datatype SettingsScreen = AddDevice | AddPasskey

  datatype DaimoLink =
    | AccountLink(account: string)
    | RequestLink(requestId: string, recipient: string, dollars: string)
    | NoteLink(previewSender: string, previewDollars: string, ephemeralOwner: Address, ephemeralPrivateKey: Option<Hex>)
      /** `seed` is `None` when the URL had no `#` part (the source leaves it undefined). */
    | NoteV2Link(sender: string, dollars: string, seed: Option<string>)
    | SettingsLink(screen: Option<SettingsScreen>)

  function ScreenText(s: SettingsScreen): string
  {
    match s
    case AddDevice => "add-device"
    case AddPasskey => "add-passkey"
  }

  /** `parts.join(sep)`. */
  function Join(parts: seq<string>, sep: char): string
  {
    if parts == [] then ""
    else if |parts| == 1 then parts[0]
    else parts[0] + [sep] + Join(parts[1..], sep)
  }

  /** A join of two or more parts starts with the first two and the
      separator between them. */
  lemma JoinStarts(parts: seq<string>, sep: char)
    requires |parts| >= 2
    ensures parts[0] + [sep] + parts[1] <= Join(parts, sep)
  {
    var rest := Join(parts[1..], sep);
    assert parts[1] <= rest by {
      if |parts| > 2 {
        assert rest == parts[1] + [sep] + Join(parts[2..], sep) by { assert parts[1..][1..] == parts[2..]; }
      }
    }
  }

  /** `s.split(sep)` for a one-character separator. */
  function Split(s: string, sep: char): (parts: seq<string>)
    ensures |parts| >= 1
  {
    if s == [] then [""]
    else if s[0] == sep then [""] + Split(s[1..], sep)
    else var rest := Split(s[1..], sep); [[s[0]] + rest[0]] + rest[1..]
  }

  const ExpoDevPrefix: string := "exp+daimo://"

  /** The prefixes `parseDaimoLinkInner` tries, in order. */
  function Prefixes(appBase: string): seq<string>
  {
    [appBase + "/", "daimo://", "https://daimo.xyz/link/"]
  }

  /** The loop over prefixes: every matching prefix overwrites `suffix`, so
      the LAST match in the list decides. */
  function SuffixAfterLastPrefix(prefixes: seq<string>, link: string): (r: Option<string>)
    ensures r.None? <==> forall i :: 0 <= i < |prefixes| ==> !(prefixes[i] <= link)
  {
    if prefixes == [] then None
    else
      var later := SuffixAfterLastPrefix(prefixes[1..], link);
      if later.Some? then later
      else if prefixes[0] <= link then Some(link[|prefixes[0]|..])
      else None
  }

  /** The first path part naming the kind of link. */
  function KindWord(link: DaimoLink): string
  {
    match link
    case AccountLink(_) => "account"
    case RequestLink(_, _, _) => "request"
    case NoteLink(_, _, _, _) => "note"
    case NoteV2Link(_, _, _) => "note"
    case SettingsLink(_) => "settings"
  }

  /** `formatDaimoLinkInner(link, linkBase)`. */
  function FormatDaimoLinkInner(link: DaimoLink, linkBase: string, fmt: Formats): (r: string)
    ensures linkBase + "/" + KindWord(link) <= r
  {
    match link
    case AccountLink(account) => linkBase + "/account/" + account
    case RequestLink(requestId, recipient, dollars) =>
      JoinStarts([linkBase, "request", recipient, dollars, requestId], '/');
      Join([linkBase, "request", recipient, dollars, requestId], '/')
    case NoteLink(sender, dollars, owner, key) =>
      // `link.ephemeralPrivateKey && "#" + key`: an empty key is falsy.
      var hash := if key.Some? && key.value != "" then "#" + key.value else "";
      JoinStarts([linkBase, "note", sender, dollars, fmt.addressText(owner) + hash], '/');
      Join([linkBase, "note", sender, dollars, fmt.addressText(owner) + hash], '/')
    case NoteV2Link(sender, dollars, seed) =>
      // A template literal renders a missing seed as "undefined".
      var seedText := if seed.Some? then seed.value else "undefined";
      JoinStarts([linkBase, "note", sender, dollars + "#" + seedText], '/');
      Join([linkBase, "note", sender, dollars + "#" + seedText], '/')
    case SettingsLink(screen) =>
      if screen.None? then linkBase + "/settings"
      else linkBase + "/settings/" + ScreenText(screen.value)
  }

  /** `parseDaimoLink(link)`. Every exception inside the inner parser is
      caught and becomes `null`, so the inner parser returning `Err` and
      returning `None` both give `None` here. */
  function ParseDaimoLink(link: string, appBase: string, fmt: Formats): (r: Option<DaimoLink>)
    ensures ExpoDevPrefix <= link ==> r.None?
    ensures (forall i :: 0 <= i < 3 ==> !(Prefixes(appBase)[i] <= link)) ==> r.None?
  {
    if ExpoDevPrefix <= link then None
    else
      match ParseDaimoLinkInner(link, appBase, fmt)
      case Ok(parsed) => parsed
      case Err(_) => None
  }

  /** `parseDaimoLinkInner(link)`: `Err` where the source throws. */
  function ParseDaimoLinkInner(link: string, appBase: string, fmt: Formats): (r: Result<Option<DaimoLink>>)
    ensures (forall i :: 0 <= i < 3 ==> !(Prefixes(appBase)[i] <= link)) ==> r == Ok(None)
  {
    match SuffixAfterLastPrefix(Prefixes(appBase), link)
    case None => Ok(None)
    case Some(suffix) => ParseParts(Split(suffix, '/'), fmt)
  }

  function ParseParts(parts: seq<string>, fmt: Formats): (r: Result<Option<DaimoLink>>)
    requires |parts| >= 1
    ensures r.Ok? && r.value.Some? ==> KindWord(r.value.value) == parts[0]
    ensures parts[0] !in {"account", "request", "note", "settings"} ==> r == Ok(None)
    ensures r.Err? ==> parts[0] in {"request", "note"}
  {
    if parts[0] == "account" then
      if |parts| != 2 then Ok(None) else Ok(Some(AccountLink(parts[1])))
    else if parts[0] == "request" then
      if |parts| != 4 then Ok(None)
      else if !fmt.isDollarStr(parts[2]) then Err("invalid dollar amount")
      else if !fmt.dollarsPositive(parts[2]) then Ok(None)
      else
        var dollars := fmt.toFixed2(parts[2]);
        match Decimal.ParseBigInt(parts[3])
        case Err(m) => Err(m)
        case Ok(id) =>
          if dollars == "0.00" then Ok(None)
          else Ok(Some(RequestLink(Decimal.IntToString(id), parts[1], dollars)))
    else if parts[0] == "note" then
      if |parts| == 4 then
        if !fmt.isDollarStr(parts[2]) then Ok(None)
        else
          var previewDollars := fmt.toFixed2(parts[2]);
          var hashParts := Split(parts[3], '#');
          if |hashParts| > 2 then Ok(None)
          else match fmt.parseAddress(hashParts[0])
            case None => Err("invalid address")
            case Some(owner) =>
              if |hashParts| < 2 then Ok(Some(NoteLink(parts[1], previewDollars, owner, None)))
              else if !fmt.isHex(hashParts[1]) then Err("invalid hex")
              else Ok(Some(NoteLink(parts[1], previewDollars, owner, Some(hashParts[1]))))
      else if |parts| == 3 then
        var hashParts := Split(parts[2], '#');
        if |hashParts| > 2 then Ok(None)
        else if !fmt.isDollarStr(hashParts[0]) then Ok(None)
        else
          var seed := if |hashParts| == 2 then Some(hashParts[1]) else None;
          Ok(Some(NoteV2Link(parts[1], fmt.toFixed2(hashParts[0]), seed)))
      else Ok(None)
    else if parts[0] == "settings" then
      // `parts[1]` is undefined when there is no second part; extra parts are ignored.
      if |parts| < 2 then Ok(Some(SettingsLink(None)))
      else if parts[1] == "add-device" then Ok(Some(SettingsLink(Some(AddDevice))))
      else if parts[1] == "add-passkey" then Ok(Some(SettingsLink(Some(AddPasskey))))
      else Ok(None)
    else Ok(None)
  }

  // ---------------------------------------------------------------------
  // Text lemmas

  /** Neither string is a prefix of the other. */
  predicate Incomparable(p: string, q: string)
  {
    !(p <= q) && !(q <= p)
  }

  /** A prefix in the list that agrees with `p` on every link starting with `p`. */
  predicate Agrees(q: string, p: string)
  {
    q == p || Incomparable(q, p)
  }

  lemma IncomparableNotPrefix(p: string, q: string, rest: string)
    requires Incomparable(p, q)
    ensures !(p <= q + rest)
  {
    if |p| <= |q| {
      assert (q + rest)[..|p|] == q[..|p|];
    } else {
      assert (q + rest)[..|q|] == q;
    }
  }

  lemma {:induction false} SplitNoSep(a: string, sep: char)
    requires sep !in a
    ensures Split(a, sep) == [a]
  {
    if a != [] {
      SplitNoSep(a[1..], sep);
      assert [a[0]] + a[1..] == a;
    }
  }

  /** Splitting `a + [sep] + b` where `a` holds no separator. */
  lemma {:induction false} SplitAt(a: string, b: string, sep: char)
    requires sep !in a
    ensures Split(a + [sep] + b, sep) == [a] + Split(b, sep)
  {
    if a == [] {
      assert a + [sep] + b == [sep] + b;
      assert ([sep] + b)[1..] == b;
    } else {
      assert (a + [sep] + b)[1..] == a[1..] + [sep] + b;
      SplitAt(a[1..], b, sep);
      assert [a[0]] + a[1..] == a;
    }
  }

  predicate NoSep(parts: seq<string>, sep: char)
  {
    forall i :: 0 <= i < |parts| ==> sep !in parts[i]
  }

  /** `join` then `split` returns the parts when no part holds the separator. */
  lemma {:induction false} SplitJoin(parts: seq<string>, sep: char)
    requires |parts| >= 1 && NoSep(parts, sep)
    ensures Split(Join(parts, sep), sep) == parts
  {
    if |parts| == 1 {
      SplitNoSep(parts[0], sep);
    } else {
      SplitJoin(parts[1..], sep);
      SplitAt(parts[0], Join(parts[1..], sep), sep);
      assert [parts[0]] + parts[1..] == parts;
    }
  }

  /** If the link starts with prefix `p` and every later prefix that matches
      it is `p` itself, the suffix after `p` is the one the parser uses. */
  lemma {:induction false} LastPrefixSuffix(prefixes: seq<string>, k: nat, rest: string)
    requires k < |prefixes|
    requires forall j :: k < j < |prefixes| ==> Agrees(prefixes[j], prefixes[k])
    ensures SuffixAfterLastPrefix(prefixes, prefixes[k] + rest) == Some(rest)
  {
    var link := prefixes[k] + rest;
    if k == 0 {
      LaterNone(prefixes[1..], prefixes[0], rest);
      assert prefixes[0] <= link;
      assert link[|prefixes[0]|..] == rest;
    } else {
      assert prefixes[1..][k - 1] == prefixes[k];
      LastPrefixSuffix(prefixes[1..], k - 1, rest);
    }
  }

  lemma {:induction false} LaterNone(later: seq<string>, p: string, rest: string)
    requires forall j :: 0 <= j < |later| ==> Agrees(later[j], p)
    ensures var r := SuffixAfterLastPrefix(later, p + rest); r.None? || r == Some(rest)
  {
    if later != [] {
      LaterNone(later[1..], p, rest);
      if later[0] == p {
        assert (p + rest)[|p|..] == rest;
      } else {
        IncomparableNotPrefix(later[0], p, rest);
      }
    }
  }

  // ---------------------------------------------------------------------
  // Which link bases parse back

  /** The link base `linkBase` is one the parser recognises: `linkBase + "/"`
      is one of the parser's prefixes and no later prefix can claim a
      different suffix, and the result is not mistaken for an Expo dev URL. */
  predicate Recognised(linkBase: string, appBase: string)
  {
    var p := linkBase + "/";
    Incomparable(ExpoDevPrefix, p) &&
    ( p == "https://daimo.xyz/link/"
      || (p == "daimo://" && Agrees("https://daimo.xyz/link/", p))
      || (p == appBase + "/" && Agrees("daimo://", p) && Agrees("https://daimo.xyz/link/", p)))
  }

  lemma RecognisedSuffix(linkBase: string, appBase: string, rest: string)
    requires Recognised(linkBase, appBase)
    ensures !(ExpoDevPrefix <= linkBase + "/" + rest)
    ensures SuffixAfterLastPrefix(Prefixes(appBase), linkBase + "/" + rest) == Some(rest)
  {
    var p := linkBase + "/";
    var ps := Prefixes(appBase);
    assert linkBase + "/" + rest == p + rest;
    IncomparableNotPrefix(ExpoDevPrefix, p, rest);
    if p == "https://daimo.xyz/link/" {
      LastPrefixSuffix(ps, 2, rest);
    } else if p == "daimo://" && Agrees("https://daimo.xyz/link/", p) {
      LastPrefixSuffix(ps, 1, rest);
    } else {
      LastPrefixSuffix(ps, 0, rest);
    }
  }

  /** `formatDaimoLinkDirect` (base "daimo:/") parses back whatever the app's own base is. */
  lemma DirectBaseRecognised(appBase: string)
    ensures Recognised("daimo:/", appBase)
  {
    var p := "daimo:/" + "/";
    assert p == "daimo://";
    assert p[0] != ExpoDevPrefix[0];
    assert "https://daimo.xyz/link/"[0] != p[0];
  }

  /** The development base `http://localhost:3001/link` parses back. */
  lemma DefaultBaseRecognised()
    ensures Recognised("http://localhost:3001/link", "http://localhost:3001/link")
  {
    var p := "http://localhost:3001/link" + "/";
    assert p[0] != ExpoDevPrefix[0];
    assert p[0] != "daimo://"[0];
    assert p[4] != "https://daimo.xyz/link/"[4];
  }

  // ---------------------------------------------------------------------
  // Round trips

  /** The path parts a link formats to, after the base. */
  function PathParts(link: DaimoLink, fmt: Formats): (parts: seq<string>)
    ensures |parts| >= 1
  {
    match link
    case AccountLink(account) => ["account", account]
    case RequestLink(requestId, recipient, dollars) => ["request", recipient, dollars, requestId]
    case NoteLink(sender, dollars, owner, key) =>
      var hash := if key.Some? && key.value != "" then "#" + key.value else "";
      ["note", sender, dollars, fmt.addressText(owner) + hash]
    case NoteV2Link(sender, dollars, seed) =>
      var seedText := if seed.Some? then seed.value else "undefined";
      ["note", sender, dollars + "#" + seedText]
    case SettingsLink(screen) =>
      if screen.None? then ["settings"] else ["settings", ScreenText(screen.value)]
  }

  lemma FormatIsBasePlusPath(link: DaimoLink, linkBase: string, fmt: Formats)
    ensures FormatDaimoLinkInner(link, linkBase, fmt) == linkBase + "/" + Join(PathParts(link, fmt), '/')
  {
    if link.AccountLink? || link.SettingsLink? {
      FormatPlainIsBasePlusPath(link, linkBase, fmt);
    } else {
      FormatJoinedIsBasePlusPath(link, linkBase, fmt);
    }
  }

  /** Account and settings links are written out by concatenation. */
  lemma FormatPlainIsBasePlusPath(link: DaimoLink, linkBase: string, fmt: Formats)
    requires link.AccountLink? || link.SettingsLink?
    ensures FormatDaimoLinkInner(link, linkBase, fmt) == linkBase + "/" + Join(PathParts(link, fmt), '/')
  {
    var parts := PathParts(link, fmt);
    if link.AccountLink? {
      assert Join(parts, '/') == "account" + "/" + link.account;
    } else if link.screen.Some? {
      assert Join(parts, '/') == "settings" + "/" + ScreenText(link.screen.value);
    }
  }

  /** Request and note links join the base with their parts. */
  lemma FormatJoinedIsBasePlusPath(link: DaimoLink, linkBase: string, fmt: Formats)
    requires link.RequestLink? || link.NoteLink? || link.NoteV2Link?
    ensures FormatDaimoLinkInner(link, linkBase, fmt) == linkBase + "/" + Join(PathParts(link, fmt), '/')
  {
    var parts := PathParts(link, fmt);
    JoinCons(linkBase, parts, '/');
    assert FormatDaimoLinkInner(link, linkBase, fmt) == Join([linkBase] + parts, '/');
  }

  lemma JoinCons(first: string, parts: seq<string>, sep: char)
    requires parts != []
    ensures Join([first] + parts, sep) == first + [sep] + Join(parts, sep)
  {
    assert ([first] + parts)[1..] == parts;
  }

  /** A dollar amount already in the normalised form the parser produces. */
  predicate NormalDollars(d: string, fmt: Formats)
  {
    fmt.isDollarStr(d) && fmt.toFixed2(d) == d && '/' !in d && '#' !in d
  }

  /** The links that survive format-then-parse unchanged. */
  predicate RoundTrippable(link: DaimoLink, fmt: Formats)
  {
    match link
    case AccountLink(account) => '/' !in account
    case RequestLink(requestId, recipient, dollars) =>
      '/' !in recipient && NormalDollars(dollars, fmt) && fmt.dollarsPositive(dollars) && dollars != "0.00"
      && '/' !in requestId
      && Decimal.ParseBigInt(requestId).Ok? && Decimal.IntToString(Decimal.ParseBigInt(requestId).value) == requestId
    case NoteLink(sender, dollars, owner, key) =>
      var text := fmt.addressText(owner);
      '/' !in sender && NormalDollars(dollars, fmt)
      && '/' !in text && '#' !in text && fmt.parseAddress(text) == Some(owner)
      && (key.Some? ==> key.value != "" && '/' !in key.value && '#' !in key.value && fmt.isHex(key.value))
    case NoteV2Link(sender, dollars, seed) =>
      '/' !in sender && NormalDollars(dollars, fmt)
      && seed.Some? && '/' !in seed.value && '#' !in seed.value
    case SettingsLink(_) => true
  }

  lemma NoSepInText(s: string, c: char, t: string)
    requires c !in s && c !in t
    ensures c !in s + t
  {
  }

  /** Formatting a link and parsing the result gives the same link back. */
  lemma FormatParseRoundTrip(link: DaimoLink, linkBase: string, appBase: string, fmt: Formats)
    requires Recognised(linkBase, appBase)
    requires RoundTrippable(link, fmt)
    ensures ParseDaimoLink(FormatDaimoLinkInner(link, linkBase, fmt), appBase, fmt) == Some(link)
  {
    var parts := PathParts(link, fmt);
    FormatIsBasePlusPath(link, linkBase, fmt);
    RecognisedSuffix(linkBase, appBase, Join(parts, '/'));
    PartsRoundTrip(link, fmt);
  }

  /** The path parts of a round-trippable link split back and parse to the link. */
  lemma PartsRoundTrip(link: DaimoLink, fmt: Formats)
    requires RoundTrippable(link, fmt)
    ensures ParseParts(Split(Join(PathParts(link, fmt), '/'), '/'), fmt) == Ok(Some(link))
  {
    match link {
      case AccountLink(_) =>
        AccountPartsRoundTrip(link, fmt);
      case SettingsLink(_) =>
        SettingsPartsRoundTrip(link, fmt);
      case RequestLink(_, _, _) =>
        RequestPartsRoundTrip(link, fmt);
      case NoteLink(_, _, _, _) =>
        NotePartsRoundTrip(link, fmt);
      case NoteV2Link(_, _, _) =>
        NoteV2PartsRoundTrip(link, fmt);
    }
  }

  lemma AccountPartsRoundTrip(link: DaimoLink, fmt: Formats)
    requires link.AccountLink? && RoundTrippable(link, fmt)
    ensures ParseParts(Split(Join(PathParts(link, fmt), '/'), '/'), fmt) == Ok(Some(link))
  {
    SplitJoin(PathParts(link, fmt), '/');
  }

  lemma SettingsPartsRoundTrip(link: DaimoLink, fmt: Formats)
    requires link.SettingsLink? && RoundTrippable(link, fmt)
    ensures ParseParts(Split(Join(PathParts(link, fmt), '/'), '/'), fmt) == Ok(Some(link))
  {
    SplitJoin(PathParts(link, fmt), '/');
  }

  lemma RequestPartsRoundTrip(link: DaimoLink, fmt: Formats)
    requires link.RequestLink? && RoundTrippable(link, fmt)
    ensures ParseParts(Split(Join(PathParts(link, fmt), '/'), '/'), fmt) == Ok(Some(link))
  {
    var parts := PathParts(link, fmt);
    SplitJoin(parts, '/');
    assert parts == ["request", link.recipient, link.dollars, link.requestId];
  }

  lemma NotePartsRoundTrip(link: DaimoLink, fmt: Formats)
    requires link.NoteLink? && RoundTrippable(link, fmt)
    ensures ParseParts(Split(Join(PathParts(link, fmt), '/'), '/'), fmt) == Ok(Some(link))
  {
    var parts := PathParts(link, fmt);
    var text := fmt.addressText(link.ephemeralOwner);
    var key := link.ephemeralPrivateKey;
    if key.Some? {
      assert parts[3] == text + ['#'] + key.value;
      NoSepInText(text, '/', "#" + key.value);
      SplitJoin(parts, '/');
      SplitAt(text, key.value, '#');
      SplitNoSep(key.value, '#');
    } else {
      assert parts[3] == text;
      SplitJoin(parts, '/');
      SplitNoSep(text, '#');
    }
  }

  lemma NoteV2PartsRoundTrip(link: DaimoLink, fmt: Formats)
    requires link.NoteV2Link? && RoundTrippable(link, fmt)
    ensures ParseParts(Split(Join(PathParts(link, fmt), '/'), '/'), fmt) == Ok(Some(link))
  {
    var parts := PathParts(link, fmt);
    var seed := link.seed.value;
    assert parts[2] == link.dollars + ['#'] + seed;
    NoSepInText(link.dollars, '/', "#" + seed);
    SplitJoin(parts, '/');
    SplitAt(link.dollars, seed, '#');
    SplitNoSep(seed, '#');
  }

  /** Both shareable forms the app formats parse back: the direct `daimo://`
      form always, and the default web base in a build without a domain. */
  lemma AppLinksRoundTrip(link: DaimoLink, appBase: string, fmt: Formats)
    requires RoundTrippable(link, fmt)
    ensures ParseDaimoLink(FormatDaimoLinkInner(link, "daimo:/", fmt), appBase, fmt) == Some(link)
    ensures ParseDaimoLink(FormatDaimoLinkInner(link, "http://localhost:3001/link", fmt),
                           "http://localhost:3001/link", fmt) == Some(link)
  {
    DirectBaseRecognised(appBase);
    FormatParseRoundTrip(link, "daimo:/", appBase, fmt);
    DefaultBaseRecognised();
    FormatParseRoundTrip(link, "http://localhost:3001/link", "http://localhost:3001/link", fmt);
  }

  // ---------------------------------------------------------------------
  // What the parser rejects

  /** An account link parses only with exactly two path parts. */
  lemma AccountNeedsTwoParts(suffix: string, fmt: Formats)
    requires var parts := Split(suffix, '/'); parts[0] == "account" && |parts| != 2
    ensures ParseParts(Split(suffix, '/'), fmt) == Ok(None)
  {
  }

  /** A request needs four parts, a positive amount, and is never "0.00". */
  lemma RequestAccepted(parts: seq<string>, fmt: Formats)
    requires |parts| >= 1 && parts[0] == "request"
    ensures ParseParts(parts, fmt).Ok? && ParseParts(parts, fmt).value.Some? ==>
      |parts| == 4 && fmt.isDollarStr(parts[2]) && fmt.dollarsPositive(parts[2])
      && ParseParts(parts, fmt).value.value.dollars == fmt.toFixed2(parts[2])
      && ParseParts(parts, fmt).value.value.dollars != "0.00"
  {
  }

  /** Note links: four parts give a v1 note whose private key is present iff
      the last part has a `#`; three parts give a v2 note; more than one `#`
      or any other part count gives nothing. */
  lemma NoteShapes(parts: seq<string>, fmt: Formats)
    requires |parts| >= 1 && parts[0] == "note"
    ensures var r := ParseParts(parts, fmt);
      && (|parts| != 3 && |parts| != 4 ==> r == Ok(None))
      && (|parts| == 4 && r.Ok? && r.value.Some? ==>
            r.value.value.NoteLink? && (r.value.value.ephemeralPrivateKey.Some? <==> '#' in parts[3]))
      && (|parts| == 4 && |Split(parts[3], '#')| > 2 && fmt.isDollarStr(parts[2]) ==> r == Ok(None))
      && (|parts| == 3 && r.Ok? && r.value.Some? ==> r.value.value.NoteV2Link?)
      && (|parts| == 3 && |Split(parts[2], '#')| > 2 ==> r == Ok(None))
  {
    if |parts| == 4 {
      SplitCount(parts[3], '#');
    }
  }

  /** A string splits into more than one part exactly when it holds the separator. */
  lemma {:induction false} SplitCount(s: string, sep: char)
    ensures |Split(s, sep)| >= 2 <==> sep in s
  {
    if s != [] {
      SplitCount(s[1..], sep);
      assert sep in s <==> s[0] == sep || sep in s[1..];
    }
  }

  /** A settings link accepts only the two known screens or none. */
  lemma SettingsScreens(parts: seq<string>, fmt: Formats)
    requires |parts| >= 2 && parts[0] == "settings"
    ensures ParseParts(parts, fmt).Ok?
    ensures ParseParts(parts, fmt).value.Some? <==> parts[1] == "add-device" || parts[1] == "add-passkey"
  {
  }
}
