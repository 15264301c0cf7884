/** The in-place editor of the configuration file (internal/cli/cli.go, setYAML), on the lines of the file. */
module YamlEdit {
  import opened Wrappers
  import opened Text

  // ---------- lines ----------

  /** How many blanks a line starts with. */
  function Indent(l: string): (n: nat)
    ensures n <= |l| && forall i :: 0 <= i < n ==> l[i] == ' '
    ensures n < |l| ==> l[n] != ' '
  {
    if l == "" || l[0] != ' ' then 0 else 1 + Indent(l[1..])
  }

  function Spaces(n: nat): (s: string)
    ensures |s| == n && forall i :: 0 <= i < n ==> s[i] == ' '
  {
    seq(n, i => ' ')
  }

  /** Blank lines and comments are passed over. */
  predicate Skipped(l: string) {
    var t := TrimSpace(l);
    t == "" || t[0] == '#'
  }

  predicate EndsColon(l: string) {
    var t := TrimSpace(l);
    t != "" && t[|t| - 1] == ':'
  }

  /** A line at column 0 that ends in a colon opens a section. */
  predicate Opens(l: string) {
    !Skipped(l) && Indent(l) == 0 && EndsColon(l)
  }

  function SectionOf(l: string): string {
    var t := TrimSpace(l);
    if t == "" then "" else t[..|t| - 1]
  }

  predicate Prefix(p: string, s: string) {
    |p| <= |s| && s[..|p|] == p
  }

  predicate IsKey(l: string, key: string) {
    Prefix(key + ":", TrimSpace(l))
  }

  // ---------- scanning ----------

  /** Whether the scan is in the section after a line. With no section wanted it always is. */
  function InAfter(l: string, section: string, inside: bool): bool {
    if section == "" || !Opens(l) then inside else SectionOf(l) == section
  }

  /** Whether the scan looks for the key on a line. */
  predicate Looks(l: string, section: string, inside: bool) {
    !Skipped(l) && if section == "" then Indent(l) == 0 else !Opens(l) && inside && Indent(l) > 0
  }

  predicate Hit(l: string, section: string, key: string, inside: bool) {
    Looks(l, section, inside) && IsKey(l, key)
  }

  /** The first line that holds the key. */
  function Find(lines: seq<string>, section: string, key: string, inside: bool): (r: Option<nat>)
    ensures r.Some? ==> r.value < |lines| && IsKey(lines[r.value], key)
    ensures r.Some? ==> if section == "" then Indent(lines[r.value]) == 0 else Indent(lines[r.value]) > 0
  {
    if lines == [] then None
    else if Hit(lines[0], section, key, inside) then Some(0)
    else
      var r := Find(lines[1..], section, key, InAfter(lines[0], section, inside));
      if r.None? then None else Some(r.value + 1)
  }

  /** What follows `key:` on a line. */
  function ValueOf(l: string, key: string): string {
    var t := TrimSpace(l);
    if |key| < |t| then TrimSpace(t[|key| + 1..]) else ""
  }

  /** What a reader of the lines finds under the key. */
  function Get(lines: seq<string>, section: string, key: string, inside: bool): Option<string> {
    if lines == [] then None
    else if Hit(lines[0], section, key, inside) then Some(ValueOf(lines[0], key))
    else Get(lines[1..], section, key, InAfter(lines[0], section, inside))
  }

  function Read(lines: seq<string>, section: string, key: string): Option<string> {
    Get(lines, section, key, section == "")
  }

  // ---------- writing ----------

  function NewLine(indent: nat, key: string, value: string): string {
    Spaces(indent) + (key + (": " + value))
  }

  /** The first line that is the section's name and a colon, at whatever indentation. */
  function Header(lines: seq<string>, section: string): (r: Option<nat>)
    ensures r.Some? ==> r.value < |lines| && TrimSpace(lines[r.value]) == section + ":"
    ensures r.Some? ==> forall i :: 0 <= i < r.value ==> TrimSpace(lines[i]) != section + ":"
    ensures r.None? ==> forall i :: 0 <= i < |lines| ==> TrimSpace(lines[i]) != section + ":"
  {
    if lines == [] then None
    else if TrimSpace(lines[0]) == section + ":" then Some(0)
    else
      var r := Header(lines[1..], section);
      if r.None? then
        assert forall i :: 1 <= i < |lines| ==> lines[i] == lines[1..][i - 1];
        None
      else
        assert forall i :: 1 <= i < |lines| ==> lines[i] == lines[1..][i - 1];
        Some(r.value + 1)
  }

  /** A line that ends the block under a header. */
  predicate EndsBlock(l: string) {
    !Skipped(l) && Indent(l) == 0
  }

  /** The lines of the block. */
  function Block(lines: seq<string>): (n: nat)
    ensures n <= |lines| && (forall i :: 0 <= i < n ==> !EndsBlock(lines[i])) && (n < |lines| ==> EndsBlock(lines[n]))
  {
    if lines == [] || EndsBlock(lines[0]) then 0
    else
      assert forall i :: 1 <= i < |lines| ==> lines[i] == lines[1..][i - 1];
      1 + Block(lines[1..])
  }

  function InsertAt(lines: seq<string>, section: string): (n: nat)
    ensures n <= |lines|
  {
    if section == "" || Header(lines, section).None? then |lines|
    else
      var h := Header(lines, section).value;
      h + 1 + Block(lines[h + 1..])
  }

  function Inserted(lines: seq<string>, at: nat, l: string): seq<string>
    requires at <= |lines|
  {
    lines[..at] + [l] + lines[at..]
  }

  /** setYAML on lines. */
  function Set(lines: seq<string>, section: string, key: string, value: string): seq<string> {
    var i := Find(lines, section, key, section == "");
    if i.Some? then lines[i.value := NewLine(Indent(lines[i.value]), key, value)]
    else Inserted(lines, InsertAt(lines, section), NewLine(if section == "" then 0 else 2, key, value))
  }

  /** strings.Split and strings.Join on line ends. */
  function SplitLines(text: string): (r: seq<string>)
    ensures r != []
    decreases |text|
  {
    var i := IndexByte(text, '\n');
    if i < 0 then [text] else [text[..i]] + SplitLines(text[i + 1..])
  }

  function JoinLines(lines: seq<string>): string {
    if lines == [] then "" else if |lines| == 1 then lines[0] else lines[0] + "\n" + JoinLines(lines[1..])
  }

  /** setYAML on the text of the file. */
  function SetText(text: string, section: string, key: string, value: string): string {
    JoinLines(Set(SplitLines(text), section, key, value))
  }

  // ---------- the source's own form ----------

  function Shift(r: Option<nat>, n: nat): Option<nat> {
    if r.None? then None else Some(r.value + n)
  }

  lemma {:induction false} FindStep(lines: seq<string>, i: nat, section: string, key: string, inside: bool)
    requires i < |lines|
    ensures Find(lines[i..], section, key, inside)
         == if Hit(lines[i], section, key, inside) then Some(0)
            else Shift(Find(lines[i + 1..], section, key, InAfter(lines[i], section, inside)), 1)
  {
    assert lines[i..][1..] == lines[i + 1..];
  }

  lemma {:induction false} ShiftTwice(r: Option<nat>, n: nat)
    ensures Shift(Shift(r, 1), n) == Shift(r, n + 1) && Shift(Some(0), n) == Some(n)
  {
  }

  lemma {:induction false} ScanStep(lines: seq<string>, i: nat, section: string, key: string, inside: bool,
                                    whole: Option<nat>)
    requires i < |lines| && whole == Shift(Find(lines[i..], section, key, inside), i)
    ensures if Hit(lines[i], section, key, inside) then whole == Some(i)
            else whole == Shift(Find(lines[i + 1..], section, key, InAfter(lines[i], section, inside)), i + 1)
  {
    FindStep(lines, i, section, key, inside);
    ShiftTwice(Find(lines[i + 1..], section, key, InAfter(lines[i], section, inside)), i);
  }

  /** One line of the scan: whether it is the key's, and whether the scan is in the section after it. */
  method Examine(line: string, section: string, key: string, inSection: bool) returns (hit: bool, inNext: bool)
    requires section == "" ==> inSection
    ensures hit == Hit(line, section, key, inSection) && inNext == InAfter(line, section, inSection)
  {
    hit, inNext := false, inSection;
    var trimmed := TrimSpace(line);
    if trimmed == "" || trimmed[0] == '#' {
      return;
    }
    var indent := Indent(line);
    if section != "" {
      if indent == 0 && trimmed[|trimmed| - 1] == ':' {
        var name := trimmed[..|trimmed| - 1];
        if name == section {
          inNext := true;
          return;
        } else if inNext {
          inNext := false;
        }
      }
      if !inNext || indent <= 0 {
        return;
      }
    } else if indent != 0 {
      return;
    }
    hit := Prefix(key + ":", trimmed);
  }

  method ScanLoop(lines: seq<string>, section: string, key: string) returns (r: Option<nat>)
    ensures r == Find(lines, section, key, section == "")
  {
    var inSection := section == "";
    ghost var whole := Find(lines, section, key, inSection);
    assert lines[0..] == lines;
    for i := 0 to |lines|
      invariant section == "" ==> inSection
      invariant whole == Shift(Find(lines[i..], section, key, inSection), i)
    {
      ScanStep(lines, i, section, key, inSection, whole);
      var hit;
      hit, inSection := Examine(lines[i], section, key, inSection);
      if hit {
        return Some(i);
      }
    }
    assert lines[|lines|..] == [];
    r := None;
  }

  lemma {:induction false} HeaderStep(lines: seq<string>, i: nat, section: string)
    requires i < |lines|
    ensures Header(lines[i..], section)
         == if TrimSpace(lines[i]) == section + ":" then Some(0) else Shift(Header(lines[i + 1..], section), 1)
  {
    assert lines[i..][1..] == lines[i + 1..];
  }

  lemma {:induction false} HeaderScan(lines: seq<string>, i: nat, section: string, whole: Option<nat>)
    requires i < |lines| && whole == Shift(Header(lines[i..], section), i)
    ensures whole == if TrimSpace(lines[i]) == section + ":" then Some(i)
                     else Shift(Header(lines[i + 1..], section), i + 1)
  {
    HeaderStep(lines, i, section);
    ShiftTwice(Header(lines[i + 1..], section), i);
  }

  method InsertPoint(lines: seq<string>, section: string) returns (at: nat)
    requires section != ""
    ensures at == InsertAt(lines, section)
  {
    at := |lines|;
    ghost var whole := Header(lines, section);
    assert lines[0..] == lines;
    for i := 0 to |lines|
      invariant at == |lines| && whole == Shift(Header(lines[i..], section), i)
    {
      HeaderScan(lines, i, section, whole);
      if TrimSpace(lines[i]) == section + ":" {
        at := BlockEnd(lines, i + 1);
        return;
      }
    }
    assert lines[|lines|..] == [];
  }

  method BlockEnd(lines: seq<string>, from: nat) returns (at: nat)
    requires from <= |lines|
    ensures at == from + Block(lines[from..])
  {
    at := from;
    for j := from to |lines|
      invariant at == j && from + Block(lines[from..]) == j + Block(lines[j..])
    {
      assert lines[j..][1..] == lines[j + 1..];
      var nt := TrimSpace(lines[j]);
      if nt != "" && nt[0] != '#' && Indent(lines[j]) == 0 {
        return;
      }
      at := j + 1;
    }
  }

  method SetLines(given: seq<string>, section: string, key: string, value: string) returns (lines: seq<string>)
    ensures lines == Set(given, section, key, value)
  {
    lines := given;
    var hit := ScanLoop(lines, section, key);
    if hit.Some? {
      var i := hit.value;
      lines := lines[i := Spaces(Indent(lines[i])) + (key + (": " + value))];
      return;
    }
    var line := key + (": " + value);
    if section != "" {
      line := Spaces(2) + line;
      var at := InsertPoint(lines, section);
      lines := lines[..at] + [line] + lines[at..];
    } else {
      assert Spaces(0) + line == line;
      assert lines[..|lines|] == lines && lines[|lines|..] == [];
      lines := lines + [line];
    }
  }
}
