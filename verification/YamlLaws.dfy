/** The laws of the configuration editor: what is written is read back, a second write wins as if alone, other keys keep
    their values, and exactly one line is changed or added. */
module YamlLaws {
  import opened Wrappers
  import opened Text
  import opened YamlEdit

  /** A key as the program uses them: no colon, nothing that trimming or a comment mark would touch. */
  predicate GoodKey(k: string) {
    k != "" && ':' !in k && Solid(k[0]) && k[0] != '#'
  }

  /** A quoted value, or any other text that trimming leaves alone and that does not end in a colon. */
  predicate GoodValue(v: string) {
    v != "" && Solid(v[0]) && Solid(v[|v| - 1]) && v[|v| - 1] != ':'
  }

  // ---------- the written line ----------

  lemma {:induction false} LeftBlanks(n: nat, t: string)
    requires t != "" && Solid(t[0])
    ensures TrimLeft(Spaces(n) + t) == t
  {
    var s := Spaces(n) + t;
    if n == 0 {
      assert s == t;
    } else {
      assert s[1..] == Spaces(n - 1) + t;
      LeftBlanks(n - 1, t);
    }
  }

  lemma {:induction false} TrimBlanks(n: nat, t: string)
    requires t != "" && Solid(t[0]) && Solid(t[|t| - 1])
    ensures TrimSpace(Spaces(n) + t) == t
  {
    LeftBlanks(n, t);
  }

  lemma {:induction false} IndentBlanks(n: nat, t: string)
    requires t != "" && t[0] != ' '
    ensures Indent(Spaces(n) + t) == n
  {
    var s := Spaces(n) + t;
    if n == 0 {
      assert s == t;
    } else {
      assert s[1..] == Spaces(n - 1) + t;
      IndentBlanks(n - 1, t);
    }
  }

  lemma {:induction false} PairText(key: string, value: string)
    requires GoodKey(key) && GoodValue(value)
    ensures var t := key + (": " + value);
            && t != "" && t[0] == key[0] && t[|t| - 1] == value[|value| - 1]
            && Prefix(key + ":", t) && t[|key| + 1..] == Spaces(1) + value
  {
    var t := key + (": " + value);
    assert t[..|key| + 1] == key + ":";
    assert t[|key| + 1..] == " " + value;
    assert Spaces(1) == " ";
  }

  lemma {:induction false} WrittenLine(n: nat, key: string, value: string)
    requires GoodKey(key) && GoodValue(value)
    ensures var l := NewLine(n, key, value);
            && Indent(l) == n && !Skipped(l) && !EndsColon(l) && IsKey(l, key) && ValueOf(l, key) == value
  {
    PairText(key, value);
    TrimBlanks(n, key + (": " + value));
    IndentBlanks(n, key + (": " + value));
    TrimBlanks(1, value);
  }

  lemma {:induction false} KeyBeforeColon(l: string, k: string)
    requires ':' !in k && IsKey(l, k)
    ensures var t := TrimSpace(l); IndexByte(t, ':') == |k| && t[..|k|] == k
  {
    var t := TrimSpace(l);
    assert t[..|k|] == (k + ":")[..|k|] == k && t[|k|] == (k + ":")[|k|] == ':';
    assert t == k + [':'] + t[|k| + 1..];
    IndexAfter(k, ':', t[|k| + 1..]);
  }

  lemma {:induction false} OneKeyPerLine(l: string, k: string, m: string)
    requires ':' !in k && ':' !in m && k != m && IsKey(l, k)
    ensures !IsKey(l, m)
  {
    KeyBeforeColon(l, k);
    if IsKey(l, m) {
      KeyBeforeColon(l, m);
    }
  }

  // ---------- finding and reading agree ----------

  lemma {:induction false} GetFound(lines: seq<string>, section: string, key: string, inside: bool)
    ensures var i := Find(lines, section, key, inside);
            Get(lines, section, key, inside) == if i.None? then None else Some(ValueOf(lines[i.value], key))
  {
    if lines != [] && !Hit(lines[0], section, key, inside) {
      GetFound(lines[1..], section, key, InAfter(lines[0], section, inside));
    }
  }

  // ---------- a key that was there ----------

  /** A line like a hit: same indentation, visible, with the same key. */
  lemma {:induction false} AlsoHit(was: string, l: string, section: string, key: string, inside: bool)
    requires Hit(was, section, key, inside) && Indent(l) == Indent(was) && !Skipped(l) && IsKey(l, key)
    ensures Hit(l, section, key, inside)
  {
  }

  /** Lines that look alike to the scan: same indentation, both visible as keys, neither opens a section. */
  lemma {:induction false} FindReplaced(lines: seq<string>, section: string, key: string, inside: bool, l: string)
    requires var i := Find(lines, section, key, inside);
             i.Some? && Indent(l) == Indent(lines[i.value]) && !Skipped(l) && IsKey(l, key)
    ensures var i := Find(lines, section, key, inside).value;
            Find(lines[i := l], section, key, inside) == Some(i)
  {
    var i := Find(lines, section, key, inside).value;
    var out := lines[i := l];
    if Hit(lines[0], section, key, inside) {
      AlsoHit(lines[0], l, section, key, inside);
      assert out[0] == l;
    } else {
      var rest, next := lines[1..], InAfter(lines[0], section, inside);
      FindReplaced(rest, section, key, next, l);
      assert out[0] == lines[0] && out[1..] == rest[i - 1 := l];
    }
  }

  // ---------- a key that was not there ----------

  lemma {:induction false} InsertTail(lines: seq<string>, p: nat, l: string)
    requires 0 < p <= |lines|
    ensures Inserted(lines, p, l)[0] == lines[0] && Inserted(lines, p, l)[1..] == Inserted(lines[1..], p - 1, l)
  {
  }

  /** Whether the scan is in the section before line p. */
  function InAt(lines: seq<string>, section: string, inside: bool, p: nat): bool
    requires p <= |lines|
  {
    if p == 0 then inside else InAt(lines[1..], section, InAfter(lines[0], section, inside), p - 1)
  }

  /** A line inserted at p that opens nothing is found exactly when the scan looks there. */
  lemma {:induction false} FindInserted(lines: seq<string>, section: string, key: string, inside: bool, p: nat,
                                        l: string)
    requires p <= |lines| && Find(lines, section, key, inside).None? && IsKey(l, key) && !Opens(l)
    ensures Find(Inserted(lines, p, l), section, key, inside)
         == if Looks(l, section, InAt(lines, section, inside, p)) then Some(p) else None
  {
    var out := Inserted(lines, p, l);
    if p == 0 {
      assert out[0] == l && out[1..] == lines;
    } else {
      InsertTail(lines, p, l);
      FindInserted(lines[1..], section, key, InAfter(lines[0], section, inside), p - 1, l);
    }
  }

  lemma {:induction false} NoSectionIn(lines: seq<string>, inside: bool, p: nat)
    requires p <= |lines|
    ensures InAt(lines, "", inside, p) == inside
  {
    if p > 0 {
      NoSectionIn(lines[1..], inside, p - 1);
    }
  }

  // ---------- where a line is inserted ----------

  /** Through a block the scan stays where it is. */
  lemma {:induction false} InBlock(lines: seq<string>, section: string, inside: bool, p: nat)
    requires p <= Block(lines)
    ensures InAt(lines, section, inside, p) == inside
  {
    if p > 0 {
      assert !EndsBlock(lines[0]);
      InBlock(lines[1..], section, inside, p - 1);
    }
  }

  lemma {:induction false} InAtJoin(lines: seq<string>, section: string, inside: bool, h: nat, p: nat)
    requires h <= p <= |lines|
    ensures InAt(lines, section, inside, p) == InAt(lines[h..], section, InAt(lines, section, inside, h), p - h)
  {
    if h == 0 {
      assert lines[0..] == lines;
    } else {
      assert lines[1..][h - 1..] == lines[h..];
      InAtJoin(lines[1..], section, InAfter(lines[0], section, inside), h - 1, p - 1);
    }
  }

  predicate GoodSection(section: string) {
    section != "" && Solid(section[0]) && section[0] != '#'
  }

  /** Before its first header no section is entered. */
  lemma {:induction false} NotYetIn(lines: seq<string>, section: string, p: nat)
    requires GoodSection(section) && p <= |lines| && forall i :: 0 <= i < p ==> TrimSpace(lines[i]) != section + ":"
    ensures !InAt(lines, section, false, p)
  {
    if p > 0 {
      var t := TrimSpace(lines[0]);
      assert t != "" ==> t == t[..|t| - 1] + [t[|t| - 1]];
      assert !InAfter(lines[0], section, false);
      assert forall i :: 0 <= i < p - 1 ==> lines[1..][i] == lines[i + 1];
      NotYetIn(lines[1..], section, p - 1);
    }
  }

  /** The header, where the line will be added below it, is at column 0. */
  ghost predicate HeaderAtMargin(lines: seq<string>, section: string) {
    Header(lines, section).Some? && Indent(lines[Header(lines, section).value]) == 0
  }

  lemma {:induction false} HeaderOpens(l: string, section: string)
    requires GoodSection(section) && TrimSpace(l) == section + ":"
    ensures Opens(l) <==> Indent(l) == 0
    ensures SectionOf(l) == section
  {
    var t := TrimSpace(l);
    assert t[0] == section[0] && t[|t| - 1] == ':' && t[..|t| - 1] == section;
  }

  lemma {:induction false} InAtStep(lines: seq<string>, section: string, inside: bool, i: nat)
    requires i < |lines|
    ensures InAt(lines, section, inside, i + 1) == InAfter(lines[i], section, InAt(lines, section, inside, i))
  {
    if i > 0 {
      InAtStep(lines[1..], section, InAfter(lines[0], section, inside), i - 1);
    }
  }

  lemma {:induction false} InAfterHeader(lines: seq<string>, section: string, i: nat)
    requires GoodSection(section) && Header(lines, section) == Some(i)
    ensures InAt(lines, section, false, i + 1) <==> Indent(lines[i]) == 0
  {
    NotYetIn(lines, section, i);
    InAtStep(lines, section, false, i);
    HeaderOpens(lines[i], section);
  }

  /** The place of insertion lies in the section exactly when the section's first header is at column 0. */
  lemma {:induction false} InsertedInIff(lines: seq<string>, section: string)
    requires GoodSection(section)
    ensures InAt(lines, section, false, InsertAt(lines, section)) <==> HeaderAtMargin(lines, section)
  {
    var p, h := InsertAt(lines, section), Header(lines, section);
    if h.None? {
      NotYetIn(lines, section, p);
    } else {
      var i := h.value;
      InAfterHeader(lines, section, i);
      InAtJoin(lines, section, false, i + 1, p);
      InBlock(lines[i + 1..], section, InAt(lines, section, false, i + 1), p - (i + 1));
    }
  }

  // ---------- the laws ----------

  /** Where a write can be read back: a top-level key, a key that is there, or a section whose first header is at column
      0. */
  ghost predicate Writable(lines: seq<string>, section: string, key: string) {
    section == "" || Find(lines, section, key, false).Some? || HeaderAtMargin(lines, section)
  }

  /** Where the written key ends up. */
  lemma {:induction false} FindAfterSet(lines: seq<string>, section: string, key: string, value: string)
    requires GoodKey(key) && GoodValue(value) && (section != "" ==> GoodSection(section))
    ensures var i, inside := Find(lines, section, key, section == ""), section == "";
            var r := Find(Set(lines, section, key, value), section, key, inside);
            r == if i.Some? then i else if Writable(lines, section, key) then Some(InsertAt(lines, section)) else None
  {
    var i, inside := Find(lines, section, key, section == ""), section == "";
    if i.Some? {
      WrittenLine(Indent(lines[i.value]), key, value);
      FindReplaced(lines, section, key, inside, NewLine(Indent(lines[i.value]), key, value));
    } else {
      var n, p := if section == "" then 0 else 2, InsertAt(lines, section);
      WrittenLine(n, key, value);
      FindInserted(lines, section, key, inside, p, NewLine(n, key, value));
      if section != "" {
        InsertedInIff(lines, section);
      }
    }
  }

  /** What is written is read back, exactly where a write can be read back. */
  lemma {:induction false} ReadsBackIff(lines: seq<string>, section: string, key: string, value: string)
    requires GoodKey(key) && GoodValue(value) && (section != "" ==> GoodSection(section))
    ensures Read(Set(lines, section, key, value), section, key) == Some(value) <==> Writable(lines, section, key)
  {
    var i, out := Find(lines, section, key, section == ""), Set(lines, section, key, value);
    FindAfterSet(lines, section, key, value);
    GetFound(out, section, key, section == "");
    var n := if i.Some? then Indent(lines[i.value]) else if section == "" then 0 else 2;
    WrittenLine(n, key, value);
    if i.None? {
      assert out[InsertAt(lines, section)] == NewLine(n, key, value);
    }
  }

  lemma {:induction false} InsertThenReplace(lines: seq<string>, p: nat, a: string, b: string)
    requires p <= |lines|
    ensures Inserted(lines, p, a)[p := b] == Inserted(lines, p, b) && Inserted(lines, p, a)[p] == a
    ensures |Inserted(lines, p, a)| == |lines| + 1
  {
  }

  lemma {:induction false} SetSize(lines: seq<string>, section: string, key: string, value: string)
    ensures |Set(lines, section, key, value)|
        == |lines| + if Find(lines, section, key, section == "").Some? then 0 else 1
  {
  }

  /** A second write wins over the first as if it were alone, exactly where a write can be read back. */
  lemma {:induction false} SecondWriteWinsIff(lines: seq<string>, section: string, key: string, v: string, w: string)
    requires GoodKey(key) && GoodValue(v) && GoodValue(w) && (section != "" ==> GoodSection(section))
    ensures Set(Set(lines, section, key, v), section, key, w) == Set(lines, section, key, w)
            <==> Writable(lines, section, key)
  {
    var i, once := Find(lines, section, key, section == ""), Set(lines, section, key, v);
    FindAfterSet(lines, section, key, v);
    if i.Some? {
      WrittenLine(Indent(lines[i.value]), key, v);
    } else {
      var n, p := if section == "" then 0 else 2, InsertAt(lines, section);
      WrittenLine(n, key, v);
      InsertThenReplace(lines, p, NewLine(n, key, v), NewLine(n, key, w));
      SetSize(lines, section, key, v);
      SetSize(lines, section, key, w);
      SetSize(once, section, key, w);
    }
  }

  /** Exactly one line is changed, in place and at its old indentation, or added; all others stay in order. */
  lemma {:induction false} OneLine(lines: seq<string>, section: string, key: string, value: string)
    requires GoodKey(key) && GoodValue(value)
    ensures var out := Set(lines, section, key, value);
            || (exists i :: 0 <= i < |lines| && IsKey(lines[i], key) && out == lines[i := out[i]]
                         && |out| == |lines| && Indent(out[i]) == Indent(lines[i]) && ValueOf(out[i], key) == value)
            || (exists p :: 0 <= p <= |lines| && |out| == |lines| + 1 && out[..p] == lines[..p]
                         && out[p + 1..] == lines[p..] && ValueOf(out[p], key) == value)
  {
    var i, out := Find(lines, section, key, section == ""), Set(lines, section, key, value);
    if i.Some? {
      WrittenLine(Indent(lines[i.value]), key, value);
      assert out == lines[i.value := out[i.value]];
    } else {
      var n, p := if section == "" then 0 else 2, InsertAt(lines, section);
      WrittenLine(n, key, value);
      assert out[..p] == lines[..p] && out[p + 1..] == lines[p..] && out[p] == NewLine(n, key, value);
    }
  }

  /** Blank lines, comments and indented lines do not end a section's block. */
  predicate InsideBlock(l: string) {
    TrimSpace(l) == "" || TrimSpace(l)[0] == '#' || (l != "" && l[0] == ' ')
  }

  /** A key that is added to a section goes to the end of the block under the section's first header, at line h. */
  lemma {:induction false} AddedAtBlockEnd(lines: seq<string>, section: string, key: string, value: string, h: nat)
    requires Find(lines, section, key, section == "").None? && section != ""
    requires h < |lines| && TrimSpace(lines[h]) == section + ":"
    requires forall i :: 0 <= i < h ==> TrimSpace(lines[i]) != section + ":"
    ensures exists p :: && h < p <= |lines|
                        && Set(lines, section, key, value) == Inserted(lines, p, NewLine(2, key, value))
                        && (forall i :: h < i < p ==> InsideBlock(lines[i]))
                        && (p < |lines| ==> !InsideBlock(lines[p]))
  {
    assert Header(lines, section) == Some(h);
    var p := InsertAt(lines, section);
    var n := Block(lines[h + 1..]);
    forall i | h < i < p
      ensures InsideBlock(lines[i])
    {
      assert lines[i] == lines[h + 1..][i - h - 1];
    }
    assert p < |lines| ==> lines[p] == lines[h + 1..][n];
  }

  /** Without a section, or when the section has no header, it goes to the end of the file. */
  lemma {:induction false} AddedAtEnd(lines: seq<string>, section: string, key: string, value: string)
    requires Find(lines, section, key, section == "").None?
    requires section == "" || forall i :: 0 <= i < |lines| ==> TrimSpace(lines[i]) != section + ":"
    ensures Set(lines, section, key, value) == lines + [NewLine(if section == "" then 0 else 2, key, value)]
  {
    assert section != "" ==> Header(lines, section).None?;
  }

  /** A blank line or a comment says nothing, wherever it stands. */
  lemma {:induction false} CommentsIgnored(lines: seq<string>, at: nat, c: string, section: string, key: string,
                                           inside: bool)
    requires at <= |lines| && (TrimSpace(c) == "" || TrimSpace(c)[0] == '#')
    ensures Get(Inserted(lines, at, c), section, key, inside) == Get(lines, section, key, inside)
  {
    var all := Inserted(lines, at, c);
    if at == 0 {
      assert all[1..] == lines;
    } else {
      assert all[0] == lines[0] && all[1..] == Inserted(lines[1..], at - 1, c);
      CommentsIgnored(lines[1..], at - 1, c, section, key, InAfter(lines[0], section, inside));
    }
  }

  // ---------- other keys ----------

  /** Reading is reading the first lines and then, from where the scan stands, the others. */
  lemma {:induction false} GetSplit(lines: seq<string>, section: string, key: string, inside: bool, p: nat)
    requires p <= |lines|
    ensures Get(lines, section, key, inside)
         == var first := Get(lines[..p], section, key, inside);
            if first.Some? then first else Get(lines[p..], section, key, InAt(lines, section, inside, p))
  {
    if p == 0 {
      assert lines[0..] == lines && lines[..0] == [];
    } else {
      assert lines[..p][0] == lines[0] && lines[..p][1..] == lines[1..][..p - 1] && lines[p..] == lines[1..][p - 1..];
      GetSplit(lines[1..], section, key, InAfter(lines[0], section, inside), p - 1);
    }
  }

  lemma {:induction false} InAtPrefix(lines: seq<string>, rest: seq<string>, section: string, inside: bool)
    ensures InAt(lines + rest, section, inside, |lines|) == InAt(lines, section, inside, |lines|)
  {
    if lines == [] {
      assert lines + rest == rest;
    } else {
      assert (lines + rest)[0] == lines[0] && (lines + rest)[1..] == lines[1..] + rest;
      InAtPrefix(lines[1..], rest, section, InAfter(lines[0], section, inside));
    }
  }

  /** The same first lines and then a line l: what is read. */
  lemma {:induction false} GetAround(first: seq<string>, l: string, rest: seq<string>, section: string, key: string,
                                     inside: bool)
    ensures Get(first + [l] + rest, section, key, inside)
         == var held, at := Get(first, section, key, inside), InAt(first, section, inside, |first|);
            if held.Some? then held
            else if Hit(l, section, key, at) then Some(ValueOf(l, key))
            else Get(rest, section, key, InAfter(l, section, at))
  {
    var lines := first + [l] + rest;
    GetSplit(lines, section, key, inside, |first|);
    assert lines[..|first|] == first && lines[|first|..] == [l] + rest && lines == first + ([l] + rest);
    InAtPrefix(first, [l] + rest, section, inside);
    assert ([l] + rest)[1..] == rest;
  }

  /** No line lies in two sections. */
  lemma {:induction false} OneSection(lines: seq<string>, a: string, b: string, ina: bool, inb: bool, p: nat)
    requires a != "" && b != "" && a != b && p <= |lines| && !(ina && inb)
    ensures !(InAt(lines, a, ina, p) && InAt(lines, b, inb, p))
  {
    if p > 0 {
      OneSection(lines[1..], a, b, InAfter(lines[0], a, ina), InAfter(lines[0], b, inb), p - 1);
    }
  }

  /** A found line is one the scan looks at, in the place where it stands. */
  lemma {:induction false} FoundIn(lines: seq<string>, section: string, key: string, inside: bool)
    requires Find(lines, section, key, inside).Some?
    ensures var i := Find(lines, section, key, inside).value;
            Hit(lines[i], section, key, InAt(lines, section, inside, i))
  {
    if !Hit(lines[0], section, key, inside) {
      var next := InAfter(lines[0], section, inside);
      FoundIn(lines[1..], section, key, next);
      var i := Find(lines[1..], section, key, next).value;
      assert InAt(lines, section, inside, i + 1) == InAt(lines[1..], section, next, i);
    }
  }

  /** A place the scan for one key looks at is no hit for another key or another section. */
  lemma {:induction false} Apart(lines: seq<string>, p: nat, l: string, s: string, k: string, t: string, m: string)
    requires p <= |lines| && ':' !in k && ':' !in m && (s, k) != (t, m)
    requires Hit(l, s, k, InAt(lines, s, s == "", p))
    ensures !Hit(l, t, m, InAt(lines, t, t == "", p))
  {
    if s == t {
      OneKeyPerLine(l, k, m);
    } else if s != "" && t != "" {
      OneSection(lines, s, t, false, false, p);
    }
  }

  /** The lines before the next one that opens a section. */
  function BodyEnd(lines: seq<string>): (n: nat)
    ensures n <= |lines|
  {
    if lines == [] || Opens(lines[0]) then 0 else 1 + BodyEnd(lines[1..])
  }

  /** Whether the scan is in a section matters only up to the next line that opens one. */
  lemma {:induction false} FlipIff(lines: seq<string>, section: string, key: string)
    requires section != ""
    ensures var held := Get(lines[..BodyEnd(lines)], section, key, true);
            Get(lines, section, key, true) == Get(lines, section, key, false)
            <==> held.None? || held == Get(lines, section, key, false)
  {
    var n := BodyEnd(lines);
    GetSplit(lines, section, key, true, n);
    FromOpener(lines, section, key);
  }

  lemma {:induction false} FromOpener(lines: seq<string>, section: string, key: string)
    requires section != ""
    ensures Get(lines[BodyEnd(lines)..], section, key, InAt(lines, section, true, BodyEnd(lines)))
         == Get(lines, section, key, false)
  {
    if lines == [] || Opens(lines[0]) {
      assert lines[0..] == lines;
    } else {
      assert lines[BodyEnd(lines)..] == lines[1..][BodyEnd(lines[1..])..];
      FromOpener(lines[1..], section, key);
    }
  }

  /** The line that is added for a missing section lands in the open section t and becomes its key there. */
  ghost predicate Caught(lines: seq<string>, s: string, k: string, value: string, t: string, m: string) {
    && s != "" && Find(lines, s, k, false).None?
    && t != "" && m == k
    && var p := InsertAt(lines, s);
       InAt(lines, t, false, p) && Get(lines[..p], t, k, false).None? && Read(lines, t, k) != Some(value)
  }

  /** The top-level line that is overwritten opened a section, and the key is read from the lines below it where the
      section has no other such key, or was not read from them before. */
  ghost predicate Orphaned(lines: seq<string>, s: string, k: string, t: string, m: string) {
    && s == "" && Find(lines, "", k, true).Some?
    && t != ""
    && var i := Find(lines, "", k, true).value;
       && Opens(lines[i]) && (SectionOf(lines[i]) == t) != InAt(lines, t, false, i)
       && Get(lines[..i], t, m, false).None?
       && var rest := lines[i + 1..];
          var held := Get(rest[..BodyEnd(rest)], t, m, true);
          held.Some? && held != Get(rest, t, m, false)
  }

  lemma {:induction false} HitOther(l: string, k: string, t: string, m: string, at: bool)
    requires ':' !in k && ':' !in m && IsKey(l, k) && !Skipped(l) && !Opens(l)
    ensures Hit(l, t, m, at) <==> m == k && if t == "" then Indent(l) == 0 else at && Indent(l) > 0
  {
    if m != k {
      OneKeyPerLine(l, k, m);
    }
  }

  /** An added line: who reads it. */
  lemma {:induction false} InsertedKeptIff(lines: seq<string>, p: nat, l: string, k: string, value: string,
                                           t: string, m: string)
    requires p <= |lines| && ':' !in k && ':' !in m && !Skipped(l) && !EndsColon(l) && IsKey(l, k)
    requires ValueOf(l, k) == value && (t != "" || m != k || Indent(l) > 0)
    ensures Read(Inserted(lines, p, l), t, m) == Read(lines, t, m)
            <==> !(t != "" && m == k && Indent(l) > 0 && InAt(lines, t, false, p)
                   && Get(lines[..p], t, m, false).None? && Read(lines, t, m) != Some(value))
  {
    var first, rest, inside := lines[..p], lines[p..], t == "";
    assert lines == first + rest;
    GetSplit(lines, t, m, inside, p);
    InAtPrefix(first, rest, t, inside);
    GetAround(first, l, rest, t, m, inside);
    HitOther(l, k, t, m, InAt(first, t, inside, |first|));
  }

  lemma {:induction false} UpdateParts(lines: seq<string>, i: nat, l: string)
    requires i < |lines|
    ensures lines == lines[..i] + [lines[i]] + lines[i + 1..] && lines[i := l] == lines[..i] + [l] + lines[i + 1..]
  {
  }

  /** A replaced line that is no hit, and that opened nothing for this reader. */
  lemma {:induction false} ReplacedKept(lines: seq<string>, i: nat, l: string, t: string, m: string)
    requires i < |lines| && !Opens(l) && (Opens(lines[i]) ==> t == "")
    requires !Hit(lines[i], t, m, InAt(lines, t, t == "", i)) && !Hit(l, t, m, InAt(lines, t, t == "", i))
    ensures Read(lines[i := l], t, m) == Read(lines, t, m)
  {
    UpdateParts(lines, i, l);
    assert lines == lines[..i] + ([lines[i]] + lines[i + 1..]);
    InAtPrefix(lines[..i], [lines[i]] + lines[i + 1..], t, t == "");
    GetAround(lines[..i], lines[i], lines[i + 1..], t, m, t == "");
    GetAround(lines[..i], l, lines[i + 1..], t, m, t == "");
  }

  /** A replaced line that opened a section. */
  lemma {:induction false} OpenerKeptIff(lines: seq<string>, i: nat, l: string, t: string, m: string)
    requires i < |lines| && Opens(lines[i]) && !Opens(l) && Indent(l) == 0 && t != ""
    ensures Read(lines[i := l], t, m) == Read(lines, t, m)
            <==> var rest := lines[i + 1..];
                 var held := Get(rest[..BodyEnd(rest)], t, m, true);
                 !((SectionOf(lines[i]) == t) != InAt(lines, t, false, i) && Get(lines[..i], t, m, false).None?
                   && held.Some? && held != Get(rest, t, m, false))
  {
    UpdateParts(lines, i, l);
    assert lines == lines[..i] + ([lines[i]] + lines[i + 1..]);
    InAtPrefix(lines[..i], [lines[i]] + lines[i + 1..], t, false);
    GetAround(lines[..i], lines[i], lines[i + 1..], t, m, false);
    GetAround(lines[..i], l, lines[i + 1..], t, m, false);
    FlipIff(lines[i + 1..], t, m);
  }

  /** The line that is overwritten and the one that is written, where the scan finds them. */
  lemma {:induction false} FoundLine(lines: seq<string>, s: string, k: string, value: string)
    requires GoodKey(k) && GoodValue(value) && Find(lines, s, k, s == "").Some?
    ensures var i := Find(lines, s, k, s == "").value;
            var l, at := NewLine(Indent(lines[i]), k, value), InAt(lines, s, s == "", i);
            && Set(lines, s, k, value) == lines[i := l]
            && Hit(lines[i], s, k, at) && Hit(l, s, k, at) && !Opens(l) && Indent(l) == Indent(lines[i])
  {
    var i := Find(lines, s, k, s == "").value;
    WrittenLine(Indent(lines[i]), k, value);
    FoundIn(lines, s, k, s == "");
  }

  lemma {:induction false} KeyReplaced(lines: seq<string>, i: nat, l: string, s: string, k: string, t: string,
                                       m: string)
    requires i < |lines| && ':' !in k && ':' !in m && (s, k) != (t, m)
    requires Hit(lines[i], s, k, InAt(lines, s, s == "", i)) && Hit(l, s, k, InAt(lines, s, s == "", i))
    requires !Opens(l) && (Opens(lines[i]) ==> t == "")
    ensures Read(lines[i := l], t, m) == Read(lines, t, m)
  {
    Apart(lines, i, lines[i], s, k, t, m);
    Apart(lines, i, l, s, k, t, m);
    ReplacedKept(lines, i, l, t, m);
  }

  lemma {:induction false} OverwriteKeptIff(lines: seq<string>, s: string, k: string, value: string, t: string,
                                            m: string)
    requires GoodKey(k) && GoodValue(value) && ':' !in m && (s, k) != (t, m) && Find(lines, s, k, s == "").Some?
    ensures Read(Set(lines, s, k, value), t, m) == Read(lines, t, m) <==> !Orphaned(lines, s, k, t, m)
  {
    var i := Find(lines, s, k, s == "").value;
    var l := NewLine(Indent(lines[i]), k, value);
    FoundLine(lines, s, k, value);
    if Opens(lines[i]) && t != "" {
      OpenerKeptIff(lines, i, l, t, m);
    } else {
      KeyReplaced(lines, i, l, s, k, t, m);
    }
  }

  lemma {:induction false} AddedKeptIff(lines: seq<string>, s: string, k: string, value: string, t: string, m: string)
    requires GoodKey(k) && GoodValue(value) && ':' !in m && (s, k) != (t, m) && Find(lines, s, k, s == "").None?
    ensures Read(Set(lines, s, k, value), t, m) == Read(lines, t, m) <==> !Caught(lines, s, k, value, t, m)
  {
    var n := if s == "" then 0 else 2;
    WrittenLine(n, k, value);
    InsertedKeptIff(lines, InsertAt(lines, s), NewLine(n, k, value), k, value, t, m);
  }

  /** Writing one key leaves another key, of the same or another section, as it was, exactly when it is not caught in
      an added line and not orphaned by an overwritten header. */
  lemma {:induction false} OtherKeyKeptIff(lines: seq<string>, s: string, k: string, value: string, t: string,
                                           m: string)
    requires GoodKey(k) && GoodValue(value) && ':' !in m && (s, k) != (t, m)
    ensures Read(Set(lines, s, k, value), t, m) == Read(lines, t, m)
            <==> !Caught(lines, s, k, value, t, m) && !Orphaned(lines, s, k, t, m)
  {
    if Find(lines, s, k, s == "").Some? {
      OverwriteKeptIff(lines, s, k, value, t, m);
    } else {
      AddedKeptIff(lines, s, k, value, t, m);
    }
  }

  /** The overwritten line did not open a section: a key under its own name at top level with no value would. */
  ghost predicate HadValue(lines: seq<string>, section: string, key: string) {
    var i := Find(lines, section, key, section == "");
    i.Some? ==> !Opens(lines[i.value])
  }

  /** So a write that can be read back and overwrites no header leaves every other key of every section as it was. */
  lemma {:induction false} OtherKeysKept(lines: seq<string>, s: string, k: string, value: string, t: string, m: string)
    requires GoodKey(k) && GoodValue(value) && (s != "" ==> GoodSection(s)) && ':' !in m && (s, k) != (t, m)
    requires Writable(lines, s, k) && HadValue(lines, s, k)
    ensures Read(Set(lines, s, k, value), t, m) == Read(lines, t, m)
  {
    OtherKeyKeptIff(lines, s, k, value, t, m);
    if s != "" {
      InsertedInIff(lines, s);
      if t != "" && t != s {
        OneSection(lines, s, t, false, false, InsertAt(lines, s));
      }
    }
  }

  lemma {:induction false} SectionLine(l: string, t: string)
    requires t != "" && Solid(t[0]) && t[0] != '#' && l == t + ":"
    ensures Opens(l) && SectionOf(l) == t && TrimSpace(l) == l
  {
    assert l[|t|] == ':';
    TrimBlanks(0, l);
    IndentBlanks(0, l);
    assert Spaces(0) + l == l;
  }

  lemma {:induction false} GetCons(l: string, rest: seq<string>, section: string, key: string, inside: bool)
    ensures Get([l] + rest, section, key, inside)
         == if Hit(l, section, key, inside) then Some(ValueOf(l, key))
            else Get(rest, section, key, InAfter(l, section, inside))
  {
    assert ([l] + rest)[1..] == rest;
  }

  /** A header, a line that is not key k, and possibly a line that is. */
  lemma {:induction false} UnderHeader(a: string, b: string, c: string, t: string, k: string)
    requires t != "" && Opens(a) && SectionOf(a) == t && !Skipped(b) && !EndsColon(b) && !IsKey(b, k)
    requires !Skipped(c) && Indent(c) > 0 && !EndsColon(c) && IsKey(c, k)
    ensures Get([a, b], t, k, false).None? && Get([a, b, c], t, k, false) == Some(ValueOf(c, k))
  {
    assert [a, b] == [a] + ([b] + []) && [a, b, c] == [a] + ([b] + ([c] + []));
    GetCons(a, [b] + [], t, k, false);
    GetCons(b, [], t, k, true);
    GetCons(a, [b] + ([c] + []), t, k, false);
    GetCons(b, [c] + [], t, k, true);
    GetCons(c, [], t, k, true);
  }

  lemma {:induction false} MissingSection(a: string, b: string, s: string, t: string, k: string)
    requires s != "" && s != t && ':' !in s && Opens(a) && SectionOf(a) == t && TrimSpace(a) == t + ":"
    requires !EndsColon(b)
    ensures Find([a, b], s, k, false).None? && InsertAt([a, b], s) == 2
  {
    var lines := [a, b];
    assert lines[1..] == [b] && [b][1..] == [];
    assert (s + ":")[|s|] == ':' && (s + ":")[..|s|] == s && (t + ":")[..|t|] == t;
  }

  /** A key of a missing section is read as a key of the last section of the file: with one section t and one key x in
      it, writing k into another section s gives t a key k. */
  lemma {:induction false} CaughtInput(s: string, t: string, x: string, k: string, v: string, w: string)
    requires GoodSection(s) && GoodSection(t) && s != t && ':' !in s
    requires GoodKey(x) && GoodKey(k) && x != k && GoodValue(v) && GoodValue(w)
    ensures var lines := [t + ":", NewLine(2, x, w)];
            Read(lines, t, k).None? && Read(Set(lines, s, k, v), t, k) == Some(v)
  {
    var a, b, c := t + ":", NewLine(2, x, w), NewLine(2, k, v);
    SectionLine(a, t);
    WrittenLine(2, x, w);
    OneKeyPerLine(b, x, k);
    WrittenLine(2, k, v);
    MissingSection(a, b, s, t, k);
    UnderHeader(a, b, c, t, k);
    assert [a, b][..2] + [c] + [a, b][2..] == [a, b, c];
  }

  /** A top-level key that is written over the header of a section loses the section's keys. */
  lemma {:induction false} OrphanedInput(t: string, x: string, v: string, w: string)
    requires GoodSection(t) && ':' !in t && GoodKey(x) && GoodValue(v) && GoodValue(w)
    ensures var lines := [t + ":", NewLine(2, x, w)];
            Read(lines, t, x) == Some(w) && Read(Set(lines, "", t, v), t, x).None?
  {
    var a, b, c := t + ":", NewLine(2, x, w), NewLine(0, t, v);
    SectionLine(a, t);
    WrittenLine(2, x, w);
    WrittenLine(0, t, v);
    assert [a, b] == [a] + ([b] + []) && [c, b] == [c] + ([b] + []);
    GetCons(a, [b] + [], t, x, false);
    GetCons(b, [], t, x, true);
    GetCons(c, [b] + [], t, x, false);
    GetCons(b, [], t, x, false);
    HeaderOverwritten(a, b, c, t, v);
  }

  lemma {:induction false} HeaderOverwritten(a: string, b: string, c: string, t: string, v: string)
    requires a == t + ":" && c == NewLine(0, t, v) && Opens(a) && TrimSpace(a) == a
    ensures Set([a, b], "", t, v) == [c, b]
  {
    assert Prefix(t + ":", a);
    assert [a, b][0 := c] == [c, b];
  }

  // ---------- the file ----------

  lemma {:induction false} SplitOne(l: string)
    requires '\n' !in l
    ensures SplitLines(l) == [l]
  {
  }

  lemma {:induction false} SplitFirst(l: string, rest: string)
    requires '\n' !in l
    ensures SplitLines(l + "\n" + rest) == [l] + SplitLines(rest)
  {
    var text := l + ['\n'] + rest;
    IndexAfter(l, '\n', rest);
    assert text[..|l|] == l && text[|l| + 1..] == rest;
  }

  predicate OneLiners(lines: seq<string>) {
    lines != [] && forall i :: 0 <= i < |lines| ==> '\n' !in lines[i]
  }

  lemma {:induction false} SplitJoin(lines: seq<string>)
    requires OneLiners(lines)
    ensures SplitLines(JoinLines(lines)) == lines
  {
    if |lines| == 1 {
      SplitOne(lines[0]);
      assert lines == [lines[0]];
    } else {
      SplitJoin(lines[1..]);
      SplitFirst(lines[0], JoinLines(lines[1..]));
      assert lines == [lines[0]] + lines[1..];
    }
  }

  /** A file that is only split and joined is unchanged. */
  lemma {:induction false} JoinSplit(text: string)
    ensures OneLiners(SplitLines(text)) && JoinLines(SplitLines(text)) == text
    decreases |text|
  {
    var i := IndexByte(text, '\n');
    if i >= 0 {
      JoinSplit(text[i + 1..]);
      var rest := SplitLines(text[i + 1..]);
      assert ([text[..i]] + rest)[1..] == rest;
      assert text == text[..i] + "\n" + text[i + 1..];
    }
  }

  lemma {:induction false} SetOneLiners(lines: seq<string>, section: string, key: string, value: string)
    requires OneLiners(lines) && '\n' !in key && '\n' !in value
    ensures OneLiners(Set(lines, section, key, value))
  {
    NewLineOneLiner(0, key, value);
    NewLineOneLiner(2, key, value);
    var i := Find(lines, section, key, section == "");
    if i.Some? {
      NewLineOneLiner(Indent(lines[i.value]), key, value);
    }
  }

  lemma {:induction false} NewLineOneLiner(n: nat, key: string, value: string)
    requires '\n' !in key && '\n' !in value
    ensures '\n' !in NewLine(n, key, value)
  {
  }

  /** The same laws for the file: the last write is read back, and it is as if it had been the only one. */
  lemma {:induction false} FileLaws(text: string, section: string, key: string, v: string, w: string)
    requires GoodKey(key) && GoodValue(v) && GoodValue(w) && (section != "" ==> GoodSection(section))
    requires '\n' !in key && '\n' !in v && '\n' !in w && Writable(SplitLines(text), section, key)
    ensures SetText(SetText(text, section, key, v), section, key, w) == SetText(text, section, key, w)
    ensures Read(SplitLines(SetText(text, section, key, v)), section, key) == Some(v)
  {
    var lines := SplitLines(text);
    JoinSplit(text);
    SetOneLiners(lines, section, key, v);
    SplitJoin(Set(lines, section, key, v));
    SecondWriteWinsIff(lines, section, key, v, w);
    ReadsBackIff(lines, section, key, v);
  }
}
