/** vmess links: the JSON object through a rewrite and back. */
module LinkVmess {
  import opened Wrappers
  import opened Text
  import opened Base64
  import opened Link
  import opened LinkReparse

  /** The form of a parsed vmess link: its object says everything. */
  ghost predicate VmessForm(i: Info, m: Object) {
    i == VmessParts(i.raw, m) && i.host != "" && 0 < i.port <= 65535
  }

  lemma {:induction false} ParsedVmessBody(raw: string, rest: string, json: Codec) returns (text: string)
    requires Checked(ParseVmess(raw, rest, json)).Ok?
    ensures var i := ParseVmess(raw, rest, json).value;
            i.vmess.Some? && VmessForm(i, i.vmess.value) && json.decode(text) == i.vmess
  {
    text := DecodeLoose(BeforeMark(TrimSpace(rest))).value;
  }

  /** A parsed vmess link is what its object says, and the object needs no repair. */
  lemma {:induction false} ParsedVmess(link: string, json: Codec)
    requires Mends(json) && Parse(link, json).Ok? && Parse(link, json).value.scheme == "vmess"
    ensures var i := Parse(link, json).value;
            i.vmess.Some? && VmessForm(i, i.vmess.value) && Repaired(json, i.vmess.value) == i.vmess.value
  {
    ParseSteps(link, json);
    var raw := TrimSpace(link);
    var idx := IndexSep(raw);
    ParsedScheme(raw, ToLower(raw[..idx]), raw[idx + 3..], json);
    var text := ParsedVmessBody(raw, raw[idx + 3..], json);
    Stable(text, json);
  }

  lemma {:induction false} Stable(text: string, json: Codec)
    requires Mends(json) && json.decode(text).Some?
    ensures Repaired(json, json.decode(text).value) == json.decode(text).value
  {
  }

  // ---------- the new object ----------

  predicate Touched(k: string) {
    k in {"add", "port", "ps", "sni", "host"}
  }

  /** SNI and Host after a rewrite. An override wins; the old value comes next, then the old address. */
  function SniThen(i: Info, sni: string): string {
    if i.tls then OrElse(OrElse(sni, i.sni), i.host) else i.sni
  }

  function HostThen(i: Info, hdr: string): string {
    if i.tls && IsWS(i.transport) then OrElse(OrElse(hdr, i.hostHdr), i.host) else i.hostHdr
  }

  lemma {:induction false} PortText(port: nat)
    requires 0 < port <= 65535
    ensures TrimSpace(Itoa(port)) == Itoa(port) && Atoi(Itoa(port)) == Some(port)
  {
    AtoiItoa(port);
    TrimSpaceFixed(Itoa(port));
    assert Digit(Itoa(port)[0]) && Digit(Itoa(port)[|Itoa(port)| - 1]);
  }

  lemma {:induction false} NewObjectKeys(i: Info, m: Object, host: string, port: int, name: string, sni: string,
                                         hdr: string)
    ensures var n := NewObject(i, m, host, port, name, sni, hdr);
            && (forall k :: !Touched(k) ==> Lookup(n, k) == Lookup(m, k))
            && Lookup(n, "add") == Some(Str(host)) && Lookup(n, "port") == Some(Str(Itoa(port)))
            && Lookup(n, "ps") == (if name != "" then Some(Str(name)) else Lookup(m, "ps"))
            && Lookup(n, "sni") == (if i.tls then Some(Str(OrElse(OrElse(sni, i.sni), i.host))) else Lookup(m, "sni"))
            && var hostKept := !i.tls || !IsWS(i.transport);
               Lookup(n, "host") == if hostKept then Lookup(m, "host")
                                    else Some(Str(OrElse(OrElse(hdr, i.hostHdr), i.host)))
  {
  }

  lemma {:induction false} AsStringLooks(m: Object, n: Object, k: string)
    requires Lookup(n, k) == Lookup(m, k)
    ensures AsString(n, k) == AsString(m, k)
  {
  }

  /** What a relay does to a vmess object's meaning: new address, port and name; transport, TLS and the need for UDP
      stay; overrides of SNI and Host take effect when TLS is on; every key that is not about these stays as it was. */
  lemma {:induction false} NewObjectMeans(i: Info, m: Object, raw: string, host: string, port: int, name: string,
                                          sni: string, hdr: string)
    requires VmessForm(i, m) && 0 < port <= 65535
    ensures var n := NewObject(i, m, host, port, name, sni, hdr);
            && (forall k :: !Touched(k) ==> Lookup(n, k) == Lookup(m, k))
            && VmessParts(raw, n) == Info(raw, "vmess", host, port, NewName(i, name), i.transport, i.tls,
                 SniThen(i, sni), HostThen(i, hdr), i.udp, "", "", Some(n), None)
  {
    var n := NewObject(i, m, host, port, name, sni, hdr);
    NewObjectKeys(i, m, host, port, name, sni, hdr);
    PortText(port);
    AsStringLooks(m, n, "net");
    AsStringLooks(m, n, "tls");
    if name == "" {
      AsStringLooks(m, n, "ps");
    }
  }

  // ---------- reading a printed object ----------

  lemma {:induction false} NoMark(s: string)
    requires '?' !in s && '#' !in s
    ensures BeforeMark(s) == s
  {
    if s != "" {
      NoMark(s[1..]);
    }
  }

  lemma {:induction false} EncodedChars(s: string)
    requires s != ""
    ensures var t := Encode(false, true, s); t != "" && '?' !in t && '#' !in t && Trimmed(t) && Solid(t[|t| - 1])
  {
    PaddedAlphabet(s);
    AlphabetText(Encode(false, true, s));
  }

  lemma {:induction false} ReadText(raw: string, t: string, text: string, m: Object, json: Codec)
    requires Trimmed(t) && '?' !in t && '#' !in t && DecodeLoose(t) == Some(text)
    requires json.decode(text) == Some(m) && AsString(m, "add") != ""
    ensures ParseVmess(raw, t, json) == Ok(VmessParts(raw, m))
  {
    TrimSpaceFixed(t);
    NoMark(t);
  }

  lemma {:induction false} PrintedText(raw: string, t: string, m: Object, json: Codec)
    requires Prints(json, m) && AsString(Repaired(json, m), "add") != "" && t == Encode(false, true, json.encode(m))
    ensures ParseVmess(raw, t, json) == Ok(VmessParts(raw, Repaired(json, m)))
  {
    EncodedChars(json.encode(m));
    LooseInvertsAll(false, true, json.encode(m));
    ReadText(raw, t, json.encode(m), Repaired(json, m), json);
  }

  /** A printed object is the text of a vmess link that reads as that object. */
  lemma {:induction false} ReadPrinted(raw: string, m: Object, json: Codec)
    requires Prints(json, m) && AsString(Repaired(json, m), "add") != ""
    ensures ParseVmess(raw, Encode(false, true, json.encode(m)), json) == Ok(VmessParts(raw, Repaired(json, m)))
  {
    PrintedText(raw, Encode(false, true, json.encode(m)), m, json);
  }

  lemma {:induction false} PrintedTrim(scheme: string, t: string)
    requires scheme == "vmess" && t != "" && Solid(t[|t| - 1])
    ensures ValidScheme(scheme) && TrimSpace(scheme + "://" + t) == scheme + "://" + t
  {
    TrimEnding(scheme, t);
  }

  lemma {:induction false} LinkText(scheme: string, m: Object, json: Codec)
    requires scheme == "vmess"
    ensures VmessLink(m, json) == scheme + "://" + Encode(false, true, json.encode(m))
  {
    assert scheme + "://" == "vmess://";
  }

  lemma {:induction false} ParsePrinted(scheme: string, m: Object, json: Codec)
    requires scheme == "vmess" && Prints(json, m)
    requires var d := Repaired(json, m); AsString(d, "add") != "" && 0 < ToInt(d, "port") <= 65535
    ensures Parse(VmessLink(m, json), json) == Ok(VmessParts(VmessLink(m, json), Repaired(json, m)))
  {
    var t := Encode(false, true, json.encode(m));
    EncodedChars(json.encode(m));
    LinkText(scheme, m, json);
    PrintedTrim(scheme, t);
    ParseBegins(VmessLink(m, json), scheme, t, json);
    ReadPrinted(VmessLink(m, json), m, json);
  }

  // ---------- the theorems ----------

  lemma {:induction false} RewriteVmess(i: Info, m: Object, host: string, port: int, name: string, sni: string,
                                        hdr: string, json: Codec)
    requires VmessForm(i, m) && host != "" && 0 < port <= 65535
    ensures Rewrite(i, host, port, name, sni, hdr, json)
        == Some(VmessLink(NewObject(i, m, host, port, name, sni, hdr), json))
  {
  }

  /** The two objects say the same for every key. */
  ghost predicate Alike(m: Object, n: Object) {
    && (forall k :: !Touched(k) ==> Lookup(m, k) == Lookup(n, k))
    && Lookup(m, "add") == Lookup(n, "add") && Lookup(m, "port") == Lookup(n, "port")
    && Lookup(m, "ps") == Lookup(n, "ps") && Lookup(m, "sni") == Lookup(n, "sni")
    && Lookup(m, "host") == Lookup(n, "host")
  }

  lemma {:induction false} SameObject(m: Object, n: Object)
    ensures Alike(m, n) ==> m == n
  {
    if Alike(m, n) {
      assert forall k :: Lookup(m, k) == Lookup(n, k);
      assert forall k :: k in m <==> Lookup(m, k).Some?;
    }
  }

  lemma {:induction false} PortAscii(port: nat)
    ensures Ascii(Itoa(port))
  {
    forall k | 0 <= k < |Itoa(port)|
      ensures Itoa(port)[k] < 128 as char
    {
      assert Digit(Itoa(port)[k]);
    }
  }

  lemma {:induction false} StringStable(m: Object, k: string, json: Codec)
    requires Mends(json) && Repaired(json, m) == m
    ensures json.repair(AsString(m, k)) == AsString(m, k)
  {
    assert Ascii("");
    assert k in m ==> Repaired(json, m)[k] == m[k];
  }

  lemma {:induction false} GivenRepaired(given: string, a: string, b: string, json: Codec)
    requires Mends(json) && json.repair(a) == a && json.repair(b) == b
    ensures json.repair(OrElse(OrElse(given, a), b)) == OrElse(OrElse(json.repair(given), a), b)
  {
  }

  lemma {:induction false} RepairedKey(m: Object, k: string, json: Codec)
    ensures Lookup(Repaired(json, m), k) == if k in m then Some(RepairedValue(json, m[k])) else None
  {
  }

  /** A printed rewrite comes back as the rewrite to the repaired address, name and overrides: what came from the object
      is stable. */
  lemma {:induction false} RepairCommutes(i: Info, m: Object, host: string, port: int, name: string, sni: string,
                                          hdr: string, json: Codec)
    requires VmessForm(i, m) && Mends(json) && Repaired(json, m) == m && 0 < port <= 65535
    ensures Repaired(json, NewObject(i, m, host, port, name, sni, hdr))
         == NewObject(i, m, json.repair(host), port, json.repair(name), json.repair(sni), json.repair(hdr))
  {
    var x := NewObject(i, m, host, port, name, sni, hdr);
    var y := NewObject(i, m, json.repair(host), port, json.repair(name), json.repair(sni), json.repair(hdr));
    NewObjectKeys(i, m, host, port, name, sni, hdr);
    NewObjectKeys(i, m, json.repair(host), port, json.repair(name), json.repair(sni), json.repair(hdr));
    PortAscii(port);
    StringStable(m, "add", json);
    StringStable(m, "sni", json);
    StringStable(m, "host", json);
    GivenRepaired(sni, i.sni, i.host, json);
    GivenRepaired(hdr, i.hostHdr, i.host, json);
    AlikeRepaired(m, x, y, json);
    SameObject(Repaired(json, x), y);
  }

  /** What is to be checked, key by key. */
  lemma {:induction false} AlikeRepaired(m: Object, x: Object, y: Object, json: Codec)
    requires Repaired(json, m) == m && forall k :: !Touched(k) ==> Lookup(x, k) == Lookup(m, k) == Lookup(y, k)
    requires SameRepaired(m, x, y, "add", json) && SameRepaired(m, x, y, "port", json)
    requires SameRepaired(m, x, y, "ps", json) && SameRepaired(m, x, y, "sni", json)
    requires SameRepaired(m, x, y, "host", json)
    ensures Alike(Repaired(json, x), y)
  {
    forall k | !Touched(k)
      ensures Lookup(Repaired(json, x), k) == Lookup(y, k)
    {
      RepairedKey(x, k, json);
      RepairedKey(m, k, json);
    }
    KeyRepaired(m, x, y, "add", json);
    KeyRepaired(m, x, y, "port", json);
    KeyRepaired(m, x, y, "ps", json);
    KeyRepaired(m, x, y, "sni", json);
    KeyRepaired(m, x, y, "host", json);
  }

  /** Under a key both objects say what m says, or y says a text and x the text before its repair. */
  predicate SameRepaired(m: Object, x: Object, y: Object, k: string, json: Codec) {
    || Lookup(x, k) == Lookup(m, k) == Lookup(y, k)
    || (k in x && k in y && x[k].Str? && y[k] == Str(json.repair(x[k].s)))
  }

  lemma {:induction false} KeyRepaired(m: Object, x: Object, y: Object, k: string, json: Codec)
    requires Repaired(json, m) == m && SameRepaired(m, x, y, k, json)
    ensures Lookup(Repaired(json, x), k) == Lookup(y, k)
  {
    RepairedKey(x, k, json);
    RepairedKey(m, k, json);
  }

  /** A rewritten vmess link reads back at the new address, and everything else of meaning is kept. What was given for
      the rewrite comes back as the codec prints it. */
  lemma {:induction false} VmessReparses(i: Info, m: Object, host: string, port: int, name: string, sni: string,
                                         hdr: string, json: Codec)
    requires VmessForm(i, m) && Mends(json) && Repaired(json, m) == m && host != "" && 0 < port <= 65535
    requires Prints(json, NewObject(i, m, host, port, name, sni, hdr))
    ensures var n := NewObject(i, m, json.repair(host), port, json.repair(name), json.repair(sni), json.repair(hdr));
            var r := VmessLink(NewObject(i, m, host, port, name, sni, hdr), json);
            && Rewrite(i, host, port, name, sni, hdr, json) == Some(r)
            && Parse(r, json) == Ok(Info(r, "vmess", json.repair(host), port, NewName(i, json.repair(name)),
                 i.transport, i.tls, SniThen(i, json.repair(sni)), HostThen(i, json.repair(hdr)), i.udp, "", "",
                 Some(n), None))
            && Repaired(json, n) == n && forall k :: !Touched(k) ==> Lookup(n, k) == Lookup(m, k)
  {
    var x := NewObject(i, m, host, port, name, sni, hdr);
    var h, a, s, d := json.repair(host), json.repair(name), json.repair(sni), json.repair(hdr);
    RewriteVmess(i, m, host, port, name, sni, hdr, json);
    RepairCommutes(i, m, host, port, name, sni, hdr, json);
    RepairCommutes(i, m, h, port, a, s, d, json);
    NewObjectMeans(i, m, VmessLink(x, json), h, port, a, s, d);
    ParsePrinted(i.scheme, x, json);
  }

  lemma {:induction false} PrintInjective(m: Object, n: Object, json: Codec)
    requires Prints(json, m) && Prints(json, n) && VmessLink(m, json) == VmessLink(n, json)
    ensures Repaired(json, m) == Repaired(json, n)
  {
    var s, t := json.encode(m), json.encode(n);
    LooseInvertsAll(false, true, s);
    LooseInvertsAll(false, true, t);
    assert VmessLink(m, json)[8..] == Encode(false, true, s);
    assert VmessLink(n, json)[8..] == Encode(false, true, t);
  }

  /** Relay chaining is invisible for vmess objects, exactly when the second relay names the link, or the first one
      left the name as it was. */
  lemma {:induction false} ObjectChainIff(i: Info, m: Object, j: Info, a: string, portA: int, nameA: string, b: string,
                                          portB: int, nameB: string)
    requires VmessForm(i, m) && 0 < portA <= 65535
    requires j == VmessParts(j.raw, NewObject(i, m, a, portA, nameA, "", ""))
    ensures NewObject(j, j.vmess.value, b, portB, nameB, "", "") == NewObject(i, m, b, portB, nameB, "", "")
            <==> nameB != "" || nameA == "" || Lookup(m, "ps") == Some(Str(nameA))
  {
    var n := NewObject(i, m, a, portA, nameA, "", "");
    NewObjectKeys(i, m, a, portA, nameA, "", "");
    NewObjectMeans(i, m, j.raw, a, portA, nameA, "", "");
    NewObjectKeys(j, n, b, portB, nameB, "", "");
    NewObjectKeys(i, m, b, portB, nameB, "", "");
    SameObject(NewObject(j, n, b, portB, nameB, "", ""), NewObject(i, m, b, portB, nameB, "", ""));
  }

  /** The same for what the printed texts say. */
  lemma {:induction false} PrintedChainIff(i: Info, m: Object, j: Info, a: string, portA: int, nameA: string,
                                           b: string, portB: int, nameB: string, json: Codec)
    requires VmessForm(i, m) && Mends(json) && Repaired(json, m) == m && a != "" && json.repair(nameA) == nameA
    requires 0 < portA <= 65535 && 0 < portB <= 65535 && json.repair(a) == a
    requires j == VmessParts(j.raw, NewObject(i, m, a, portA, nameA, "", ""))
    requires Prints(json, NewObject(j, j.vmess.value, b, portB, nameB, "", ""))
    requires Prints(json, NewObject(i, m, b, portB, nameB, "", ""))
    ensures VmessLink(NewObject(j, j.vmess.value, b, portB, nameB, "", ""), json)
            == VmessLink(NewObject(i, m, b, portB, nameB, "", ""), json)
            <==> nameB != "" || nameA == "" || Lookup(m, "ps") == Some(Str(nameA))
  {
    var n := j.vmess.value;
    var x, y := NewObject(j, n, b, portB, nameB, "", ""), NewObject(i, m, b, portB, nameB, "", "");
    assert Ascii("");
    RepairCommutes(i, m, a, portA, nameA, "", "", json);
    NewObjectMeans(i, m, j.raw, a, portA, nameA, "", "");
    ObjectChainIff(i, m, j, a, portA, nameA, b, portB, nameB);
    ObjectChainIff(i, m, j, a, portA, nameA, json.repair(b), portB, json.repair(nameB));
    RepairCommutes(i, m, b, portB, nameB, "", "", json);
    RepairCommutes(j, n, b, portB, nameB, "", "", json);
    if VmessLink(x, json) == VmessLink(y, json) {
      PrintInjective(x, y, json);
    }
  }

  /** Relay chaining for vmess links, as texts: the two ways to relay B give one link under exactly that condition, for
      the first name as the codec prints it. */
  lemma {:induction false} VmessChainIff(i: Info, m: Object, a: string, portA: int, nameA: string, b: string,
                                         portB: int, nameB: string, json: Codec)
    requires VmessForm(i, m) && Mends(json) && Repaired(json, m) == m
    requires a != "" && 0 < portA <= 65535 && b != "" && 0 < portB <= 65535
    requires var x := NewObject(i, m, a, portA, nameA, "", "");
             var n := NewObject(i, m, json.repair(a), portA, json.repair(nameA), "", "");
             && Prints(json, x) && Prints(json, NewObject(i, m, b, portB, nameB, "", ""))
             && Prints(json, NewObject(VmessParts(VmessLink(x, json), n), n, b, portB, nameB, "", ""))
    ensures var first := Parse(VmessLink(NewObject(i, m, a, portA, nameA, "", ""), json), json);
            && first.Ok?
            && (Rewrite(first.value, b, portB, nameB, "", "", json) == Rewrite(i, b, portB, nameB, "", "", json)
                <==> nameB != "" || nameA == "" || Lookup(m, "ps") == Some(Str(json.repair(nameA))))
  {
    var x := NewObject(i, m, a, portA, nameA, "", "");
    var n := NewObject(i, m, json.repair(a), portA, json.repair(nameA), "", "");
    assert Ascii("");
    VmessReparses(i, m, a, portA, nameA, "", "", json);
    NewObjectMeans(i, m, VmessLink(x, json), json.repair(a), portA, json.repair(nameA), "", "");
    var j := VmessParts(VmessLink(x, json), n);
    PrintedChainIff(i, m, j, json.repair(a), portA, json.repair(nameA), b, portB, nameB, json);
    RewriteVmess(i, m, b, portB, nameB, "", "", json);
    RewriteVmess(j, n, b, portB, nameB, "", "", json);
  }
}
