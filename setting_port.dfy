/** The trailing-port parser of the core settings service (`loadPort`) and
    the two rewrites of the `MasterAddr` setting: the one `UpdatePort` applies
    when the panel port changes and the one `UpdateSSL` applies when HTTPS is
    switched on or off.

    `loadPort` runs the regular expression
        (?:(?:\[([0-9a-fA-F:]+)\])|([^:/\s]+))(?::(\d+))?$
    with Go's leftmost-first semantics and returns capture group 3. The
    matcher below follows that expression piece by piece; `TrailingPort` is an
    independent description of its result, and `LoadPortIsTrailingPort` proves
    the two equal on every input. */
module SettingPort {
  import opened GoStd

  /** RE2's `\s`, which is `[\t\n\f\r ]` */
  predicate IsSpace(c: char) {
    c == ' ' || c == '\t' || c == '\n' || c == '\r' || c == '\U{000C}'
  }

  /** `[^:/\s]` */
  predicate IsHostChar(c: char) { c != ':' && c != '/' && !IsSpace(c) }

  /** `[0-9a-fA-F:]` */
  predicate IsBracketChar(c: char) {
    IsDigit(c) || 'a' <= c <= 'f' || 'A' <= c <= 'F' || c == ':'
  }

  /** End of the longest run of host characters that starts at `p`. */
  function HostRunEnd(s: string, p: nat): (q: nat)
    requires p <= |s|
    ensures p <= q <= |s|
    ensures forall i :: p <= i < q ==> IsHostChar(s[i])
    ensures q == |s| || !IsHostChar(s[q])
    decreases |s| - p
  {
    if p < |s| && IsHostChar(s[p]) then HostRunEnd(s, p + 1) else p
  }

  /** End of the longest run of `[0-9a-fA-F:]` characters that starts at `p`. */
  function BracketRunEnd(s: string, p: nat): (q: nat)
    requires p <= |s|
    ensures p <= q <= |s|
    ensures forall i :: p <= i < q ==> IsBracketChar(s[i])
    decreases |s| - p
  {
    if p < |s| && IsBracketChar(s[p]) then BracketRunEnd(s, p + 1) else p
  }

  /** `(?::(\d+))?$` tried at position `k`. The optional group is greedy, so it
      is tried first; `\d+` can only reach `$` by taking every remaining
      character. Group 3 is "" when the group did not take part. */
  function PortTail(s: string, k: nat): Option<string>
    requires k <= |s|
  {
    if k < |s| && s[k] == ':' && k + 1 < |s| && AllDigits(s[k + 1..]) then Some(s[k + 1..])
    else if k == |s| then Some("")
    else None
  }

  /** `([^:/\s]+)` followed by the tail, where the run so far is `s[p..k]`:
      the greedy run gives back one character at a time until the tail
      matches (backtracking). */
  function HostAlt(s: string, p: nat, k: nat): Option<string>
    requires p <= k <= |s|
    decreases k
  {
    if k == p then None
    else match PortTail(s, k) {
      case Some(port) => Some(port)
      case None => HostAlt(s, p, k - 1)
    }
  }

  /** `\[([0-9a-fA-F:]+)\]` followed by the tail, where `s[p]` is '[' and the
      class run so far is `s[p + 1..k]`, with the same backtracking. */
  function BracketAlt(s: string, p: nat, k: nat): Option<string>
    requires p + 1 <= k <= |s|
    decreases k
  {
    if k == p + 1 then None
    else if k < |s| && s[k] == ']' && PortTail(s, k + 1).Some? then PortTail(s, k + 1)
    else BracketAlt(s, p, k - 1)
  }

  /** The expression anchored at `p`: the bracketed alternative first. */
  function MatchAt(s: string, p: nat): Option<string>
    requires p <= |s|
  {
    var bracket := if p < |s| && s[p] == '[' then BracketAlt(s, p, BracketRunEnd(s, p + 1)) else None;
    if bracket.Some? then bracket else HostAlt(s, p, HostRunEnd(s, p))
  }

  /** `FindStringSubmatch`: the match that starts leftmost, from `p` on. */
  function Leftmost(s: string, p: nat): Option<string>
    requires p <= |s|
    decreases |s| - p
  {
    if MatchAt(s, p).Some? then MatchAt(s, p)
    else if p == |s| then None
    else Leftmost(s, p + 1)
  }

  /** `loadPort` (core/app/service/setting.go): group 3 of the leftmost match,
      "" when there is no match or the group is empty. */
  function LoadPort(address: string): string
  {
    match Leftmost(address, 0)
    case None => ""
    case Some(port) => if |port| != 0 then port else ""
  }

  // ---------------------------------------------------------------------------
  // An independent description of the result

  /** Start of the longest all-digit suffix. */
  function DigitsStart(s: string): (j: nat)
    ensures j <= |s| && AllDigits(s[j..])
    ensures j == 0 || !IsDigit(s[j - 1])
  {
    if |s| == 0 || !IsDigit(s[|s| - 1]) then |s|
    else
      var j := DigitsStart(s[..|s| - 1]);
      assert s[j..] == s[..|s| - 1][j..] + [s[|s| - 1]];
      j
  }

  lemma DigitsStartUnique(s: string, m: nat)
    requires m <= |s| && AllDigits(s[m..]) && (m == 0 || !IsDigit(s[m - 1]))
    ensures DigitsStart(s) == m
  {
    var j := DigitsStart(s);
  }

  /** The port written at the end of an address: the digits after the last
      ':', provided there is at least one and the ':' follows a character
      that `[^:/\s]` or the closing ']' of a bracketed host accepts. */
  function TrailingPort(s: string): string
  {
    var j := DigitsStart(s);
    if 2 <= j < |s| && s[j - 1] == ':' && IsHostChar(s[j - 2]) then s[j..] else ""
  }

  lemma PortTailShape(s: string, k: nat, port: string)
    requires k <= |s| && PortTail(s, k) == Some(port)
    ensures port == "" <==> k == |s|
    ensures port != "" ==> s[k] == ':' && port == s[k + 1..] && DigitsStart(s) == k + 1
  {
    if k < |s| {
      DigitsStartUnique(s, k + 1);
    }
  }

  /** The position where the backtracking host run stopped. */
  lemma {:induction false} HostAltWitness(s: string, p: nat, k: nat) returns (k': nat)
    requires p <= k <= |s| && HostAlt(s, p, k).Some?
    ensures p < k' <= k && PortTail(s, k') == HostAlt(s, p, k)
    decreases k
  {
    if PortTail(s, k).None? {
      k' := HostAltWitness(s, p, k - 1);
    } else {
      k' := k;
    }
  }

  /** The position of the ']' where the backtracking bracket run stopped. */
  lemma {:induction false} BracketAltWitness(s: string, p: nat, k: nat) returns (k': nat)
    requires p + 1 <= k <= |s| && BracketAlt(s, p, k).Some?
    ensures p + 1 < k' <= k && k' < |s| && s[k'] == ']' && PortTail(s, k' + 1) == BracketAlt(s, p, k)
    decreases k
  {
    if !(k < |s| && s[k] == ']' && PortTail(s, k + 1).Some?) {
      k' := BracketAltWitness(s, p, k - 1);
    } else {
      k' := k;
    }
  }

  /** A port captured after a bracketed host is the trailing port. */
  lemma BracketPortShape(s: string, p: nat, port: string)
    requires p + 1 <= |s| && BracketAlt(s, p, BracketRunEnd(s, p + 1)) == Some(port) && port != ""
    ensures TrailingPort(s) == port
  {
    var k := BracketAltWitness(s, p, BracketRunEnd(s, p + 1));
    PortTailShape(s, k + 1, port);
  }

  /** A port captured after a plain host is the trailing port. */
  lemma HostPortShape(s: string, p: nat, port: string)
    requires p <= |s| && HostAlt(s, p, HostRunEnd(s, p)) == Some(port) && port != ""
    ensures TrailingPort(s) == port
  {
    var q := HostRunEnd(s, p);
    var k := HostAltWitness(s, p, q);
    PortTailShape(s, k, port);
    assert IsHostChar(s[k - 1]);
  }

  /** A match anywhere that captures a non-empty port captures exactly the
      trailing port. */
  lemma MatchAtShape(s: string, p: nat)
    requires p <= |s| && MatchAt(s, p).Some? && MatchAt(s, p).value != ""
    ensures TrailingPort(s) == MatchAt(s, p).value
  {
    if p < |s| && s[p] == '[' && BracketAlt(s, p, BracketRunEnd(s, p + 1)).Some? {
      BracketPortShape(s, p, MatchAt(s, p).value);
    } else {
      HostPortShape(s, p, MatchAt(s, p).value);
    }
  }

  /** When the address ends in a port, every match that starts before the
      port's digits captures that port. */
  lemma MatchBeforePort(s: string, p: nat)
    requires TrailingPort(s) != "" && p < DigitsStart(s) && MatchAt(s, p).Some?
    ensures MatchAt(s, p).value == TrailingPort(s)
  {
    var j := DigitsStart(s);
    var port := MatchAt(s, p).value;
    if port == "" {
      var bracket := if p < |s| && s[p] == '[' then BracketAlt(s, p, BracketRunEnd(s, p + 1)) else None;
      if bracket.Some? {
        var k := BracketAltWitness(s, p, BracketRunEnd(s, p + 1));
      } else {
        var q := HostRunEnd(s, p);
        var k := HostAltWitness(s, p, q);
        PortTailShape(s, k, port);
        assert IsHostChar(s[j - 1]);
      }
    } else {
      MatchAtShape(s, p);
    }
  }

  /** There is a match that starts at the character before the ':'. */
  lemma MatchAtColonHost(s: string)
    requires TrailingPort(s) != ""
    ensures MatchAt(s, DigitsStart(s) - 2).Some?
  {
    var j := DigitsStart(s);
    var p := j - 2;
    assert HostRunEnd(s, p + 1) == p + 1;
    assert HostRunEnd(s, p) == j - 1;
    assert PortTail(s, j - 1) == Some(s[j..]);
  }

  lemma {:induction false} LeftmostFindsPort(s: string, p: nat)
    requires TrailingPort(s) != "" && p <= DigitsStart(s) - 2
    ensures Leftmost(s, p) == Some(TrailingPort(s))
    decreases DigitsStart(s) - p
  {
    if MatchAt(s, p).Some? {
      MatchBeforePort(s, p);
    } else {
      if p == DigitsStart(s) - 2 {
        MatchAtColonHost(s);
      }
      LeftmostFindsPort(s, p + 1);
    }
  }

  lemma {:induction false} LeftmostWithoutPort(s: string, p: nat)
    requires TrailingPort(s) == "" && p <= |s|
    ensures Leftmost(s, p) == None || Leftmost(s, p) == Some("")
    decreases |s| - p
  {
    if MatchAt(s, p).Some? {
      if MatchAt(s, p).value != "" {
        MatchAtShape(s, p);
      }
    } else if p < |s| {
      LeftmostWithoutPort(s, p + 1);
    }
  }

  /** `loadPort` returns exactly the trailing port on every input. */
  lemma LoadPortIsTrailingPort(s: string)
    ensures LoadPort(s) == TrailingPort(s)
  {
    if TrailingPort(s) != "" {
      LeftmostFindsPort(s, 0);
    } else {
      LeftmostWithoutPort(s, 0);
    }
  }

  /** A port that `loadPort` finds is all digits and ends the address right
      after a ':'; with no match at all, e.g. on "", the result is "". */
  lemma LoadPortShape(s: string)
    ensures var r := LoadPort(s);
      r != "" ==> AllDigits(r) && |r| < |s| && s == s[..|s| - |r| - 1] + ":" + r
    ensures Leftmost(s, 0).None? ==> LoadPort(s) == ""
  {
    LoadPortIsTrailingPort(s);
    var r := LoadPort(s);
    if r != "" {
      var j := DigitsStart(s);
      assert |s| - |r| == j;
      assert s == s[..j - 1] + [s[j - 1]] + s[j..];
    }
  }

  lemma LoadPortOfHttpAddress()
    ensures LoadPort("http://1.2.3.4:9999") == "9999"
  {
    LoadPortIsTrailingPort("http://1.2.3.4:9999");
    DigitsStartUnique("http://1.2.3.4:9999", 15);
  }

  lemma LoadPortOfBracketedAddress()
    ensures LoadPort("[::1]:8080") == "8080"
  {
    LoadPortIsTrailingPort("[::1]:8080");
    DigitsStartUnique("[::1]:8080", 6);
  }

  /** An address without a port, such as "http://host", yields "". */
  lemma LoadPortWithoutPort()
    ensures LoadPort("http://host") == ""
  {
    LoadPortIsTrailingPort("http://host");
    DigitsStartUnique("http://host", 11);
  }

  /** Letters after the ':' are no port. */
  lemma LoadPortOfLetters()
    ensures LoadPort("host:abc") == ""
  {
    LoadPortIsTrailingPort("host:abc");
    DigitsStartUnique("host:abc", 8);
  }

  /** A ':' straight after a '/' does not start a port. */
  lemma LoadPortAfterSlash()
    ensures LoadPort("a/:80") == ""
  {
    LoadPortIsTrailingPort("a/:80");
    DigitsStartUnique("a/:80", 3);
  }

  // ---------------------------------------------------------------------------
  // MasterAddr rewrites

  /** `UpdatePort`'s rewrite of MasterAddr, as written: when the address is
      set and `loadPort` finds a port, every occurrence of that port text is
      replaced by the new port (`strings.ReplaceAll`). `None`: the setting is
      left alone. */
  function RewriteMasterPort(addr: string, port: nat): Option<string>
  {
    if |addr| != 0 then
      var oldPort := LoadPort(addr);
      if |oldPort| != 0 then Some(ReplaceAll(addr, oldPort, Decimal(port))) else None
    else None
  }

  /** The rewrite happens exactly when the address carries a port, and
      `loadPort` then reads the new port back from the rewritten address. */
  lemma RewriteMasterPortReadsBack(addr: string, port: nat)
    ensures RewriteMasterPort(addr, port).Some? <==> LoadPort(addr) != ""
    ensures RewriteMasterPort(addr, port).Some? ==>
      LoadPort(RewriteMasterPort(addr, port).value) == Decimal(port)
  {
    LoadPortShape(addr);
    var p := LoadPort(addr);
    if p != "" {
      var n := Decimal(port);
      var u := addr[..|addr| - |p| - 1];
      assert addr == u + [':'] + p;
      LoadPortIsTrailingPort(addr);
      var j := DigitsStart(addr);
      assert u[|u| - 1] == addr[j - 2];
      assert ':' !in p by { assert forall i :: 0 <= i < |p| ==> IsDigit(p[i]); }
      ReplaceAllAround(u, ':', p, p, n);
      ReplaceAllWhole(p, n);
      ReplaceAllLast(u, p, n);
      var r := ReplaceAll(u, p, n) + [':'] + n;
      assert RewriteMasterPort(addr, port) == Some(r);
      DigitsStartUnique(r, |r| - |n|);
      LoadPortIsTrailingPort(r);
    }
  }

  /** The `UpdatePort` rewrite as evidently intended: only the port at the
      end of the address is replaced; everything up to its ':' is kept. */
  function RewriteMasterPortTrailing(addr: string, port: nat): Option<string>
  {
    var oldPort := LoadPort(addr);
    LoadPortShape(addr);
    if |addr| != 0 && |oldPort| != 0 then Some(addr[..|addr| - |oldPort|] + Decimal(port)) else None
  }

  /** The intended rewrite happens exactly when the address carries a port,
      leaves the scheme and host untouched, and `loadPort` reads the new port
      back. */
  lemma RewriteMasterPortTrailingKeepsHost(addr: string, port: nat)
    ensures RewriteMasterPortTrailing(addr, port).Some? <==> LoadPort(addr) != ""
    ensures RewriteMasterPortTrailing(addr, port).Some? ==>
      var r := RewriteMasterPortTrailing(addr, port).value;
      var keep := |addr| - |LoadPort(addr)|;
      0 <= keep && r == addr[..keep] + Decimal(port) && LoadPort(r) == Decimal(port)
  {
    LoadPortShape(addr);
    var p := LoadPort(addr);
    if p != "" {
      var n := Decimal(port);
      var keep := |addr| - |p|;
      var r := addr[..keep] + n;
      LoadPortIsTrailingPort(addr);
      var j := DigitsStart(addr);
      assert r[keep - 1] == addr[keep - 1] == ':';
      assert r[keep - 2] == addr[j - 2];
      assert r[keep..] == n;
      DigitsStartUnique(r, keep);
      LoadPortIsTrailingPort(r);
    }
  }

  /** `ReplaceAll` on `scheme:net.P:P` when one character of P occurs in
      neither `scheme` nor `net`: both copies of P are replaced. */
  lemma ReplaceHostAndPort(scheme: string, net: string, pat: string, rep: string, c: char)
    requires c in pat && c !in scheme && c !in net && ':' !in pat && '.' !in pat
    ensures ReplaceAll(scheme + [':'] + net + ['.'] + pat + [':'] + pat, pat, rep)
         == scheme + [':'] + net + ['.'] + rep + [':'] + rep
  {
    var tail := net + ['.'] + pat + [':'] + pat;
    ReplaceLabelAndPort(net, pat, rep, c);
    ReplaceAllMissingChar(scheme, pat, rep, c);
    ReplaceAllAround(scheme, ':', tail, pat, rep);
    SplitAfterScheme(scheme, net, pat, pat);
    SplitAfterScheme(scheme, net, rep, rep);
  }

  /** An address regrouped as its scheme and colon, then the rest; kept
      apart so the replacement proof above stays small. */
  lemma SplitAfterScheme(scheme: string, net: string, a: string, b: string)
    ensures scheme + [':'] + net + ['.'] + a + [':'] + b == scheme + [':'] + (net + ['.'] + a + [':'] + b)
  {
  }

  lemma ReplaceLabelAndPort(net: string, pat: string, rep: string, c: char)
    requires c in pat && c !in net && ':' !in pat && '.' !in pat
    ensures ReplaceAll(net + ['.'] + pat + [':'] + pat, pat, rep) == net + ['.'] + rep + [':'] + rep
  {
    ReplaceAllMissingChar(net, pat, rep, c);
    ReplaceBeforeWhole(net, '.', pat, rep);
    ReplaceBeforeWhole(net + ['.'] + pat, ':', pat, rep);
  }

  /** A text, a separator outside `pat`, then `pat` itself. */
  lemma ReplaceBeforeWhole(a: string, sep: char, pat: string, rep: string)
    requires |pat| > 0 && sep !in pat
    ensures ReplaceAll(a + [sep] + pat, pat, rep) == ReplaceAll(a, pat, rep) + [sep] + rep
  {
    ReplaceAllWhole(pat, rep);
    ReplaceAllAround(a, sep, pat, pat, rep);
  }

  /** The rewrite as written also replaces the old port's text inside the
      host. On an address `scheme:net.P:P` whose last host label equals the
      old port P (such as "http://10.0.0.80:80"), and where some digit of P
      occurs in neither `scheme` nor `net`, it yields `scheme:net.N:N` for
      new port N, while the intended rewrite yields `scheme:net.P:N`. */
  lemma RewriteMasterPortCorruptsHost(scheme: string, net: string, oldPort: nat, newPort: nat, c: char)
    requires c in Decimal(oldPort) && c !in scheme && c !in net
    ensures var p, n := Decimal(oldPort), Decimal(newPort);
      var addr := scheme + [':'] + net + ['.'] + p + [':'] + p;
      RewriteMasterPort(addr, newPort) == Some(scheme + [':'] + net + ['.'] + n + [':'] + n) &&
      RewriteMasterPortTrailing(addr, newPort) == Some(scheme + [':'] + net + ['.'] + p + [':'] + n)
  {
    var p, n := Decimal(oldPort), Decimal(newPort);
    var head := scheme + [':'] + net + ['.'] + p + [':'];
    var addr := head + p;
    assert addr[|head| - 1] == ':';
    assert addr[|head| - 2] == p[|p| - 1];
    assert addr[|head|..] == p;
    DigitsStartUnique(addr, |head|);
    LoadPortIsTrailingPort(addr);
    assert LoadPort(addr) == p;
    assert ':' !in p && '.' !in p by { assert forall i :: 0 <= i < |p| ==> IsDigit(p[i]); }
    ReplaceHostAndPort(scheme, net, p, n, c);
    assert addr[..|addr| - |p|] == head;
  }

  /** `UpdateSSL`'s rewrite of MasterAddr: switching HTTPS off turns every
      "https://" into "http://", switching it on turns every "http://" into
      "https://". */
  function RewriteMasterScheme(addr: string, ssl: string): string
  {
    if ssl == "Disable" then ReplaceAll(addr, "https://", "http://")
    else ReplaceAll(addr, "http://", "https://")
  }

  /** On an address with one scheme and no other scheme text, enabling
      HTTPS upgrades the scheme, disabling downgrades it, and the two undo each
      other. */
  lemma RewriteMasterSchemeRoundTrip(rest: string)
    requires !Contains(rest, "http://") && !Contains(rest, "https://")
    ensures RewriteMasterScheme("http://" + rest, "Enable") == "https://" + rest
    ensures RewriteMasterScheme("https://" + rest, "Disable") == "http://" + rest
    ensures RewriteMasterScheme(RewriteMasterScheme("http://" + rest, "Enable"), "Disable") == "http://" + rest
  {
    var a := "http://" + rest;
    assert a[..|"http://"|] == "http://";
    assert a[|"http://"|..] == rest;
    ReplaceAllAbsent(rest, "http://", "https://");
    var b := "https://" + rest;
    assert b[..|"https://"|] == "https://";
    assert b[|"https://"|..] == rest;
    ReplaceAllAbsent(rest, "https://", "http://");
  }

  // ---------------------------------------------------------------------------
  // The settings UpdateSSL writes

  /** Settings rows, by key. A row that `UpdateSSL` writes is assumed to
      exist, as the installer seeds them, so an update is an assignment. */
  type Settings = map<string, string>

  const StatusDisable := "Disable"

  /** The rows `UpdateSSL` writes on its successful path, before the
      MasterAddr step: switching HTTPS off sets SSL to "Disable" and SSLType
      to "self" and returns; otherwise SSLType and then SSL take the request's
      values. */
  function SslWrites(settings: Settings, ssl: string, sslType: string): (r: Settings)
    ensures "SSL" in r && r["SSL"] == ssl
    ensures "SSLType" in r && r["SSLType"] == (if ssl == StatusDisable then "self" else sslType)
    ensures forall k :: k in settings && k != "SSL" && k != "SSLType" ==> k in r && r[k] == settings[k]
  {
    if ssl == StatusDisable then settings["SSL" := StatusDisable]["SSLType" := "self"]
    else settings["SSLType" := sslType]["SSL" := ssl]
  }

  /** The background step's write: a stored MasterAddr gets its scheme
      rewritten for the new SSL value; without one nothing is written. */
  function WithMasterScheme(settings: Settings, ssl: string): (r: Settings)
    ensures forall k :: k in settings && k != "MasterAddr" ==> k in r && r[k] == settings[k]
    ensures "MasterAddr" in r <==> "MasterAddr" in settings
  {
    if "MasterAddr" in settings then settings["MasterAddr" := RewriteMasterScheme(settings["MasterAddr"], ssl)]
    else settings
  }

  /** `UpdateSSL` as written: the background step reads SSL back after it
      was written and rewrites MasterAddr only when the value read differs
      from the request; on the "Disable" path it is never started. */
  function UpdateSslAsWritten(settings: Settings, ssl: string, sslType: string): Settings
  {
    var written := SslWrites(settings, ssl, sslType);
    if ssl == StatusDisable then written
    else
      var oldSsl := written["SSL"];
      if oldSsl != ssl then WithMasterScheme(written, ssl) else written
  }

  /** As written, MasterAddr is never rewritten, whatever SSL held before. */
  lemma UpdateSslNeverRewritesMaster(settings: Settings, ssl: string, sslType: string)
    requires "MasterAddr" in settings
    ensures var r := UpdateSslAsWritten(settings, ssl, sslType);
      "MasterAddr" in r && r["MasterAddr"] == settings["MasterAddr"] && r["SSL"] == ssl
  {
  }

  /** `UpdateSSL` as evidently intended: SSL is read before it is written,
      and MasterAddr's scheme follows every change of SSL, in both directions. */
  function UpdateSslIntended(settings: Settings, ssl: string, sslType: string): Settings
  {
    var oldSsl := if "SSL" in settings then settings["SSL"] else "";
    var written := SslWrites(settings, ssl, sslType);
    if oldSsl != ssl then WithMasterScheme(written, ssl) else written
  }

  /** With the intended order, switching HTTPS on upgrades an "http://"
      master address, switching it off downgrades it back, and re-applying
      the current value leaves it alone. */
  lemma UpdateSslIntendedFollowsScheme(settings: Settings, rest: string, sslType: string)
    requires !Contains(rest, "http://") && !Contains(rest, "https://")
    requires "SSL" in settings && settings["SSL"] == StatusDisable
    requires "MasterAddr" in settings && settings["MasterAddr"] == "http://" + rest
    ensures var on := UpdateSslIntended(settings, "Enable", sslType);
      on["SSL"] == "Enable" && on["MasterAddr"] == "https://" + rest &&
      var off := UpdateSslIntended(on, StatusDisable, sslType);
      off["SSL"] == StatusDisable && off["MasterAddr"] == "http://" + rest
    ensures UpdateSslIntended(settings, StatusDisable, sslType)["MasterAddr"] == "http://" + rest
  {
    RewriteMasterSchemeRoundTrip(rest);
  }
}
