/** The systemd unit the helper installs, and what it reads back from one (services/helper/src/service/linux.rs). */
module HelperUnit {
  import opened Characters
  import opened Options
  import Sequences

  type U32 = n: nat | n < 0x1_0000_0000

  datatype Owner = Owner(uid: U32, gid: U32)

  // ----- Quoting -----

  function Escaped(c: char): string {
    if c == '"' || c == '\\' then ['\\', c] else if c == '%' then "%%" else [c]
  }

  function Escape(path: string): string {
    if path == "" then "" else Escape(path[..|path| - 1]) + Escaped(path[|path| - 1])
  }

  function Quoted(path: string): string {
    "\"" + Escape(path) + "\""
  }

  method QuotedUnitArgument(path: string) returns (quoted: string)
    ensures quoted == Quoted(path)
  {
    quoted := "\"";
    var k := 0;
    while k < |path|
      invariant 0 <= k <= |path|
      invariant quoted == "\"" + Escape(path[..k])
    {
      var character := path[k];
      if character == '"' || character == '\\' {
        quoted := quoted + ['\\'];
        quoted := quoted + [character];
      } else if character == '%' {
        quoted := quoted + "%%";
      } else {
        quoted := quoted + [character];
      }
      assert path[..k + 1][..k] == path[..k];
      k := k + 1;
    }
    assert path[..k] == path;
    quoted := quoted + "\"";
  }

  /** What systemd makes of the text after an opening quote: the closing quote must be the last character. */
  function Unescape(text: string): Option<string> {
    if text == "" then None
    else if text[0] == '"' then if |text| == 1 then Some("") else None
    else if text[0] == '\\' || text[0] == '%' then
      if |text| < 2 || (text[0] == '%' && text[1] != '%') then None else Push(text[1], Unescape(text[2..]))
    else Push(text[0], Unescape(text[1..]))
  }

  function Push(c: char, rest: Option<string>): Option<string> {
    match rest
    case None => None
    case Some(s) => Some([c] + s)
  }

  function Unquote(text: string): Option<string> {
    if text != "" && text[0] == '"' then Unescape(text[1..]) else None
  }

  lemma EscapeLast(front: string, last: char)
    ensures Escape(front + [last]) == Escape(front) + Escaped(last)
  {
    hide Escaped;
    assert (front + [last])[..|front|] == front;
  }

  lemma {:induction false} EscapeFirst(path: string)
    requires path != ""
    ensures Escape(path) == Escaped(path[0]) + Escape(path[1..])
  {
    var front, last := path[..|path| - 1], path[|path| - 1];
    Sequences.Unsnoc(path);
    EscapeLast(front, last);
    if front == "" {
      assert path[1..] == "" && Escape(path[1..]) == "" && Escape(front) == "";
      Sequences.NoneLeft(Escaped(last));
    } else {
      EscapeFirst(front);
      EscapeLast(front[1..], last);
      assert front[1..] + [last] == path[1..];
      hide *;
      Sequences.Assoc(Escaped(path[0]), Escape(front[1..]), Escaped(last));
    }
  }

  lemma UnescapeOne(c: char, rest: string)
    ensures Unescape(Escaped(c) + rest) == Push(c, Unescape(rest))
  {
    var text := Escaped(c) + rest;
    assert text[|Escaped(c)|..] == rest;
  }

  lemma {:induction false} UnescapeEscape(path: string)
    ensures Unescape(Escape(path) + "\"") == Some(path)
  {
    if path == "" {
      assert Escape(path) + "\"" == "\"";
    } else {
      EscapeFirst(path);
      UnescapeEscape(path[1..]);
      hide Unescape, Escape, Escaped;
      var rest := Escape(path[1..]) + "\"";
      assert Escape(path) + "\"" == Escaped(path[0]) + rest;
      UnescapeOne(path[0], rest);
      assert [path[0]] + path[1..] == path;
    }
  }

  /** Unquoting the argument gives the path back, whatever characters it holds. */
  lemma QuoteRoundTrip(path: string)
    ensures Unquote(Quoted(path)) == Some(path)
  {
    UnescapeEscape(path);
    assert Quoted(path)[1..] == Escape(path) + "\"";
  }

  // ----- Numbers -----

  function Decimal(n: nat): string {
    if n < 10 then ['0' + n as char] else Decimal(n / 10) + ['0' + (n % 10) as char]
  }

  function Digits(s: string): Option<U32> {
    if s == "" then Some(0)
    else
      var last := s[|s| - 1];
      match Digits(s[..|s| - 1])
      case None => None
      case Some(n) =>
        if !IsDigit(last) then None
        else
          var m := 10 * n + (last as int - '0' as int);
          if m < 0x1_0000_0000 then Some(m) else None
  }

  /** An unsigned number may carry a plus sign, and nothing else besides its digits. */
  function ParseU32(s: string): Option<U32> {
    var digits := if s != "" && s[0] == '+' then s[1..] else s;
    if digits == "" then None else Digits(digits)
  }

  predicate IsWhitespace(c: char) {
    || '\t' <= c <= '\r' || c == ' ' || c == '\U{0085}' || c == '\U{00A0}' || c == '\U{1680}'
    || '\U{2000}' <= c <= '\U{200A}' || c == '\U{2028}' || c == '\U{2029}' || c == '\U{202F}'
    || c == '\U{205F}' || c == '\U{3000}'
  }

  function Trim(s: string): string {
    if s != "" && IsWhitespace(s[0]) then Trim(s[1..])
    else if s != "" && IsWhitespace(s[|s| - 1]) then Trim(s[..|s| - 1])
    else s
  }

  lemma {:induction false} DecimalDigits(n: nat)
    ensures Decimal(n) != "" && (forall k | 0 <= k < |Decimal(n)| :: IsDigit(Decimal(n)[k]))
  {
    if n >= 10 {
      DecimalDigits(n / 10);
    }
  }

  lemma {:induction false} DigitsDecimal(n: U32)
    ensures Digits(Decimal(n)) == Some(n)
  {
    if n < 10 {
      assert Decimal(n)[..0] == "";
    } else {
      DigitsDecimal(n / 10);
      assert Decimal(n)[..|Decimal(n)| - 1] == Decimal(n / 10);
    }
  }

  lemma NumberRoundTrip(n: U32)
    ensures ParseU32(Trim(Decimal(n))) == Some(n)
  {
    DecimalDigits(n);
    DigitsDecimal(n);
    assert Trim(Decimal(n)) == Decimal(n) by {
      assert IsDigit(Decimal(n)[0]) && IsDigit(Decimal(n)[|Decimal(n)| - 1]);
    }
  }

  // ----- Lines -----

  /** A line ends at a line feed, and loses a carriage return before it; the text after the last one is a line too. */
  function Lines(text: string): seq<string> {
    LinesFrom("", text)
  }

  function LinesFrom(line: string, text: string): seq<string>
    decreases text
  {
    if text == "" then if line == "" then [] else [line]
    else if text[0] == '\n' then [Chomp(line)] + LinesFrom("", text[1..])
    else LinesFrom(line + [text[0]], text[1..])
  }

  function Chomp(line: string): string {
    if line != "" && line[|line| - 1] == '\r' then line[..|line| - 1] else line
  }

  function Printed(lines: seq<string>): string {
    if lines == [] then "" else lines[0] + "\n" + Printed(lines[1..])
  }

  predicate Plain(line: string) {
    '\n' !in line && Chomp(line) == line
  }

  lemma {:induction false} LinesOfOne(line: string, front: string, rest: string)
    requires '\n' !in front
    ensures LinesFrom(line, front + "\n" + rest) == [Chomp(line + front)] + Lines(rest)
    decreases front
  {
    var text := front + "\n" + rest;
    if front == "" {
      assert line + front == line && text[1..] == rest;
    } else {
      assert text[1..] == front[1..] + "\n" + rest;
      assert forall k | 0 <= k < |front| - 1 :: front[1..][k] == front[k + 1];
      LinesOfOne(line + [front[0]], front[1..], rest);
      assert line + [front[0]] + front[1..] == line + front;
    }
  }

  lemma {:induction false} LinesOfPrinted(lines: seq<string>, rest: string)
    requires forall k | 0 <= k < |lines| :: Plain(lines[k])
    ensures Lines(Printed(lines) + rest) == lines + Lines(rest)
  {
    if lines == [] {
      assert Printed(lines) + rest == rest;
    } else {
      var line, more := lines[0], lines[1..];
      LinesOfPrinted(more, rest);
      assert Plain(line) && Printed(lines) == line + "\n" + Printed(more);
      hide LinesFrom, Printed, Chomp;
      assert Printed(lines) + rest == line + "\n" + (Printed(more) + rest);
      LinesOfOne("", line, Printed(more) + rest);
      assert "" + line == line && [line] + (more + Lines(rest)) == lines + Lines(rest);
    }
  }

  // ----- The unit -----

  const OWNER_UID_ENV := "FLCLASH_HELPER_OWNER_UID"
  const OWNER_GID_ENV := "FLCLASH_HELPER_OWNER_GID"
  const RUNTIME_DIR_NAME := "flclash"
  const OWNER_PREFIX := "Environment=FLCLASH_HELPER_OWNER_UID="

  const DESCRIPTION :=
    "Description=FlClash Helper " + "starts the FlClash Core " + "with the privileges " + "TUN mode needs."
  const AFTER := "After=" + "network-online.target " + "nftables.service " + "iptables.service"

  const HEAD: seq<string> := [
    "[Unit]",
    DESCRIPTION,
    AFTER,
    "StartLimitIntervalSec=60",
    "StartLimitBurst=5",
    "",
    "[Service]",
    "Type=simple"
  ]

  const TAIL: seq<string> := [
    "RuntimeDirectory=" + RUNTIME_DIR_NAME,
    "RuntimeDirectoryMode=0755",
    "Restart=on-failure",
    "RestartSec=5",
    "",
    "[Install]",
    "WantedBy=multi-user.target"
  ]

  function OwnerLines(owner: Owner): seq<string> {
    [
      "Group=" + Decimal(owner.gid),
      "Environment=" + OWNER_UID_ENV + "=" + Decimal(owner.uid),
      "Environment=" + OWNER_GID_ENV + "=" + Decimal(owner.gid)
    ]
  }

  function UnitContents(executable: string, owner: Owner): string {
    Printed(HEAD + ["ExecStart=" + Quoted(executable)] + OwnerLines(owner) + TAIL)
  }

  /** What follows the prefix in the first line that has it. */
  function FindOwner(lines: seq<string>): Option<string> {
    if lines == [] then None
    else if OWNER_PREFIX <= lines[0] then Some(lines[0][|OWNER_PREFIX|..])
    else FindOwner(lines[1..])
  }

  function InstalledOwnerUid(unit: string): Option<U32> {
    match FindOwner(Lines(unit))
    case None => None
    case Some(value) => ParseU32(Trim(value))
  }

  lemma {:induction false} FindOwnerAppend(a: seq<string>, b: seq<string>)
    ensures FindOwner(a + b) == if FindOwner(a).Some? then FindOwner(a) else FindOwner(b)
  {
    if a == [] {
      assert a + b == b;
    } else {
      assert (a + b)[1..] == a[1..] + b;
      FindOwnerAppend(a[1..], b);
    }
  }

  lemma PlainJoin(a: string, b: string)
    requires Plain(a) && Plain(b) && b != ""
    ensures Plain(a + b)
  {}

  lemma DescriptionIsPlain()
    ensures Plain(DESCRIPTION)
  {
    hide Plain;
    var a, b, c, d := "Description=FlClash Helper ", "starts the FlClash Core ", "with the privileges ",
        "TUN mode needs.";
    PlainPieces();
    PlainJoin(a, b);
    PlainJoin(a + b, c);
    PlainJoin(a + b + c, d);
  }

  lemma PlainPieces()
    ensures Plain("Description=FlClash Helper ")
    ensures Plain("starts the FlClash Core ")
    ensures Plain("with the privileges ")
    ensures Plain("TUN mode needs.")
  {}

  lemma AfterIsPlain()
    ensures Plain(AFTER)
  {
    assert Plain("After=") && Plain("network-online.target ") && Plain("nftables.service ")
        && Plain("iptables.service");
    hide Plain;
    PlainJoin("After=", "network-online.target ");
    PlainJoin("After=" + "network-online.target ", "nftables.service ");
    PlainJoin("After=" + "network-online.target " + "nftables.service ", "iptables.service");
  }

  lemma HeadIsPlain()
    ensures forall k | 0 <= k < |HEAD| :: Plain(HEAD[k])
  {
    DescriptionIsPlain();
    AfterIsPlain();
    assert HEAD[1] == DESCRIPTION && HEAD[2] == AFTER;
    assert Plain("[Unit]") && Plain("StartLimitIntervalSec=60") && Plain("StartLimitBurst=5");
    assert Plain("") && Plain("[Service]") && Plain("Type=simple");
  }

  lemma {:induction false} NoOwnerIn(lines: seq<string>)
    requires forall k | 0 <= k < |lines| :: lines[k] == "" || lines[k][0] != OWNER_PREFIX[0]
    ensures FindOwner(lines) == None
  {
    if lines != [] {
      NoOwnerIn(lines[1..]);
    }
  }

  lemma NoOwnerInHead()
    ensures FindOwner(HEAD) == None
  {
    hide FindOwner;
    assert HEAD[0][0] == '[';
    assert HEAD[1][0] == 'D';
    assert HEAD[2][0] == 'A';
    assert HEAD[3][0] == 'S';
    assert HEAD[4][0] == 'S' && HEAD[5] == "" && HEAD[6][0] == '[' && HEAD[7][0] == 'T';
    NoOwnerIn(HEAD);
  }

  lemma TailIsPlain()
    ensures forall k | 0 <= k < |TAIL| :: Plain(TAIL[k])
  {}

  lemma OwnerLinesArePlain(owner: Owner)
    ensures forall k | 0 <= k < |OwnerLines(owner)| :: Plain(OwnerLines(owner)[k])
  {
    hide Decimal;
    DecimalDigits(owner.uid);
    DecimalDigits(owner.gid);
    assert Plain("Group=") && Plain("Environment=" + OWNER_UID_ENV + "=")
        && Plain("Environment=" + OWNER_GID_ENV + "=");
    assert Plain(Decimal(owner.uid)) && Plain(Decimal(owner.gid));
    hide Plain;
    PlainJoin("Group=", Decimal(owner.gid));
    PlainJoin("Environment=" + OWNER_UID_ENV + "=", Decimal(owner.uid));
    PlainJoin("Environment=" + OWNER_GID_ENV + "=", Decimal(owner.gid));
  }

  lemma {:induction false} PrintedAppend(a: seq<string>, b: seq<string>)
    ensures Printed(a + b) == Printed(a) + Printed(b)
  {
    if a == [] {
      assert a + b == b;
    } else {
      assert (a + b)[1..] == a[1..] + b;
      PrintedAppend(a[1..], b);
    }
  }

  lemma {:induction false} LinesAppend(line: string, front: string, rest: string)
    ensures LinesFrom(line, front + "\n" + rest) == LinesFrom(line, front + "\n") + Lines(rest)
    decreases front
  {
    if front == "" {
      assert (front + "\n" + rest)[1..] == rest && (front + "\n")[1..] == "";
    } else {
      assert (front + "\n" + rest)[1..] == front[1..] + "\n" + rest;
      assert (front + "\n")[1..] == front[1..] + "\n";
      LinesAppend(if front[0] == '\n' then "" else line + [front[0]], front[1..], rest);
    }
  }

  function ExecLine(path: string): string {
    "ExecStart=" + Quoted(path)
  }

  function FoundIn(path: string): Option<string> {
    FindOwner(Lines(ExecLine(path) + "\n"))
  }

  lemma OwnerFollows(owner: Owner)
    ensures FindOwner(OwnerLines(owner) + TAIL) == Some(Decimal(owner.uid))
  {
    var lines := OwnerLines(owner) + TAIL;
    assert lines[0][0] == 'G';
    assert lines[1] == OWNER_PREFIX + Decimal(owner.uid) by {
      assert "Environment=" + OWNER_UID_ENV + "=" == OWNER_PREFIX;
    }
    assert lines[1..][0] == lines[1];
  }

  /** Reading the unit: a line inside the path that looks like the owner's is found first, otherwise the owner's is. */
  lemma ReadUnit(path: string, owner: Owner)
    ensures InstalledOwnerUid(UnitContents(path, owner)) ==
            match FoundIn(path)
            case None => Some(owner.uid)
            case Some(value) => ParseU32(Trim(value))
  {
    var rest := OwnerLines(owner) + TAIL;
    var tail := Printed(rest);
    var exec := ExecLine(path);
    assert UnitContents(path, owner) == Printed(HEAD) + (exec + "\n" + tail) by {
      assert HEAD + [exec] + OwnerLines(owner) + TAIL == HEAD + ([exec] + rest);
      PrintedAppend(HEAD, [exec] + rest);
      assert ([exec] + rest)[1..] == rest;
    }
    assert Lines(UnitContents(path, owner)) == HEAD + (Lines(exec + "\n") + rest) by {
      hide Plain, Chomp, Printed, LinesFrom, OwnerLines, ExecLine;
      HeadIsPlain();
      LinesOfPrinted(HEAD, exec + "\n" + tail);
      LinesAppend("", exec, tail);
      LinesOfRest(owner);
    }
    hide FindOwner, OwnerLines, LinesFrom, UnitContents, ExecLine;
    FindOwnerAppend(HEAD, Lines(exec + "\n") + rest);
    FindOwnerAppend(Lines(exec + "\n"), rest);
    NoOwnerInHead();
    OwnerFollows(owner);
    NumberRoundTrip(owner.uid);
  }

  lemma LinesOfRest(owner: Owner)
    ensures Lines(Printed(OwnerLines(owner) + TAIL)) == OwnerLines(owner) + TAIL
  {
    OwnerLinesArePlain(owner);
    TailIsPlain();
    var rest := OwnerLines(owner) + TAIL;
    assert Lines("") == [];
    hide Plain, OwnerLines, Printed;
    LinesOfPrinted(rest, "");
    assert Printed(rest) + "" == Printed(rest) && rest + [] == rest;
  }

  // ----- Paths with line breaks -----

  /** Some line of the text after its first one begins like the line that names the owner. */
  ghost predicate NamesAnOwner(text: string) {
    exists k: nat :: k < |text| && text[k] == '\n' && OWNER_PREFIX <= text[k + 1..]
  }

  lemma PrefixIsPlain()
    ensures forall k | 0 <= k < |OWNER_PREFIX| ::
              OWNER_PREFIX[k] != '\n' && OWNER_PREFIX[k] != '\r' && |Escaped(OWNER_PREFIX[k])| == 1
  {}

  lemma NamesStep(text: string)
    requires text != ""
    ensures NamesAnOwner(text) <==> (text[0] == '\n' && OWNER_PREFIX <= text[1..]) || NamesAnOwner(text[1..])
  {
    if k: nat :| k < |text| && text[k] == '\n' && OWNER_PREFIX <= text[k + 1..] {
      if k > 0 {
        assert text[1..][k - 1] == '\n' && text[1..][k..] == text[k + 1..];
      }
    }
    if k: nat :| k < |text| - 1 && text[1..][k] == '\n' && OWNER_PREFIX <= text[1..][k + 1..] {
      assert text[k + 1] == '\n' && text[1..][k + 1..] == text[k + 2..];
    }
  }

  lemma PrefixStopsAtBreak(line: string, rest: string)
    ensures OWNER_PREFIX <= line + "\n" + rest <==> OWNER_PREFIX <= line
    ensures OWNER_PREFIX <= Chomp(line) <==> OWNER_PREFIX <= line
  {
    PrefixIsPlain();
    var text := line + "\n" + rest;
    assert text[|line|] == '\n';
    if OWNER_PREFIX <= line && |line| == |OWNER_PREFIX| {
      assert line == OWNER_PREFIX && line[|line| - 1] == OWNER_PREFIX[|line| - 1];
    }
  }

  lemma {:induction false} FoundExactly(line: string, text: string)
    ensures FindOwner(LinesFrom(line, text + "\n")).Some? <==> OWNER_PREFIX <= line + text || NamesAnOwner(text)
    decreases text
  {
    hide NamesAnOwner;
    if text == "" {
      assert (text + "\n")[1..] == "";
      assert line + text == line;
      PrefixStopsAtBreak(line, "");
      NothingNamed();
    } else {
      var rest := text[1..];
      NamesStep(text);
      assert (text + "\n")[1..] == rest + "\n";
      if text[0] == '\n' {
        FoundExactly("", rest);
        PrefixStopsAtBreak(line, rest);
        assert line + text == line + "\n" + rest && "" + rest == rest;
      } else {
        FoundExactly(line + [text[0]], rest);
        assert line + [text[0]] + rest == line + text;
      }
    }
  }

  lemma NothingNamed()
    ensures !NamesAnOwner("")
  {}

  lemma {:induction false} PrefixThroughEscape(prefix: string, path: string)
    requires forall k | 0 <= k < |prefix| :: |Escaped(prefix[k])| == 1
    ensures prefix <= Escape(path) + "\"" <==> prefix <= path
    decreases prefix
  {
    if prefix == "" {
    } else if path == "" {
      assert Escape(path) + "\"" == "\"" && |Escaped('"')| == 2 && |Escaped(prefix[0])| == 1;
      assert prefix[0] != '"' && !(prefix <= "\"");
    } else {
      EscapeFirst(path);
      hide Escape;
      var text := Escape(path[1..]) + "\"";
      assert Escape(path) + "\"" == Escaped(path[0]) + text;
      assert path == [path[0]] + path[1..];
      if path[0] == prefix[0] {
        PrefixThroughEscape(prefix[1..], path[1..]);
        assert Escaped(path[0]) == [path[0]];
        PrefixOfCons(prefix, path[0], text);
        PrefixOfCons(prefix, path[0], path[1..]);
      } else {
        assert (Escaped(path[0]) + text)[0] != prefix[0];
      }
    }
  }

  lemma PrefixOfCons(prefix: string, c: char, text: string)
    requires prefix != "" && prefix[0] == c
    ensures prefix <= [c] + text <==> prefix[1..] <= text
  {
    assert ([c] + text)[1..] == text;
    if prefix[1..] <= text {
      assert prefix == [c] + prefix[1..];
    }
  }

  lemma {:induction false} NamedThroughEscape(path: string)
    ensures NamesAnOwner(Escape(path) + "\"") <==> NamesAnOwner(path)
  {
    hide NamesAnOwner;
    if path == "" {
      NothingNamed();
      var quote := "\"";
      assert Escape(path) + quote == quote && quote[1..] == "" && quote[0] != '\n';
      NamesStep(quote);
    } else {
      EscapeFirst(path);
      NamesStep(path);
      NamedThroughEscape(path[1..]);
      PrefixIsPlain();
      PrefixThroughEscape(OWNER_PREFIX, path[1..]);
      var rest := Escape(path[1..]) + "\"";
      var text := Escape(path) + "\"";
      assert text == Escaped(path[0]) + rest;
      NamesStep(text);
      if |Escaped(path[0])| == 1 {
        assert text[1..] == rest;
      } else {
        assert text[1..][1..] == rest && text[1] != '\n';
        NamesStep(text[1..]);
      }
    }
  }

  lemma {:induction false} NamedAfter(front: string, text: string)
    requires '\n' !in front
    ensures NamesAnOwner(front + text) <==> NamesAnOwner(text)
    decreases front
  {
    hide NamesAnOwner;
    if front == "" {
      assert front + text == text;
    } else {
      NamesStep(front + text);
      assert (front + text)[1..] == front[1..] + text;
      NamedAfter(front[1..], text);
    }
  }

  lemma FoundInExactly(path: string)
    ensures FoundIn(path).Some? <==> NamesAnOwner(path)
  {
    hide NamesAnOwner, FindOwner, LinesFrom, Escape;
    var text := Escape(path) + "\"";
    assert ExecLine(path) == "ExecStart=\"" + text;
    FoundExactly("", ExecLine(path));
    assert "" + ExecLine(path) == ExecLine(path) && ExecLine(path)[1] == 'x' && OWNER_PREFIX[1] == 'n';
    NamedAfter("ExecStart=\"", text);
    NamedThroughEscape(path);
  }

  /** Every owner can be read back from the unit exactly when no later line of the path begins like the owner's. */
  lemma OwnerReadsBackExactly(path: string)
    ensures (forall owner :: InstalledOwnerUid(UnitContents(path, owner)) == Some(owner.uid)) <==> !NamesAnOwner(path)
  {
    FoundInExactly(path);
    hide NamesAnOwner, FindOwner, InstalledOwnerUid, UnitContents, FoundIn;
    forall owner
      ensures FoundIn(path) == None ==> InstalledOwnerUid(UnitContents(path, owner)) == Some(owner.uid)
    {
      ReadUnit(path, owner);
    }
    ReadUnit(path, Owner(1, 1));
    ReadUnit(path, Owner(2, 1));
    assert Owner(1, 1).uid != Owner(2, 1).uid;
  }

  /** In particular a path without a line break never hides the owner. */
  lemma OwnerReadsBack(path: string, owner: Owner)
    requires '\n' !in path
    ensures InstalledOwnerUid(UnitContents(path, owner)) == Some(owner.uid)
  {
    OwnerReadsBackExactly(path);
  }

  lemma {:induction false} EscapeAppend(a: string, b: string)
    ensures Escape(a + b) == Escape(a) + Escape(b)
  {
    if b == "" {
      assert Escape(b) == "";
      hide *;
      Sequences.NoneLeft(a);
      Sequences.NoneLeft(Escape(a));
    } else {
      hide *;
      var front, last := b[..|b| - 1], b[|b| - 1];
      EscapeAppend(a, front);
      EscapeLast(a + front, last);
      EscapeLast(front, last);
      Sequences.Unsnoc(b);
      Sequences.Assoc(a, front, [last]);
      Sequences.Assoc(Escape(a), Escape(front), Escaped(last));
    }
  }

  lemma {:induction false} EscapeLeaves(s: string)
    requires forall k | 0 <= k < |s| :: |Escaped(s[k])| == 1
    ensures Escape(s) == s
  {
    if s == "" {
      assert Escape(s) == "";
    } else {
      var front, last := s[..|s| - 1], s[|s| - 1];
      assert Escaped(last) == [last];
      EscapeLeaves(front);
      hide *;
      EscapeLast(front, last);
      Sequences.Unsnoc(s);
    }
  }

  lemma {:induction false} EscapeBreaksNoLine(s: string)
    requires '\n' !in s
    ensures '\n' !in Escape(s)
  {
    if s != "" {
      EscapeBreaksNoLine(s[..|s| - 1]);
    }
  }

  lemma EscapeLines(front: string, line: string, back: string)
    requires forall k | 0 <= k < |line| :: |Escaped(line[k])| == 1
    ensures Escape(front + "\n" + line + "\n" + back) == Escape(front) + "\n" + line + "\n" + Escape(back)
  {
    EscapeLeaves(line);
    EscapeLeaves("\n");
    hide Escape, Escaped;
    var a := front + "\n";
    var b := a + line;
    EscapeAppend(b + "\n", back);
    EscapeAppend(b, "\n");
    EscapeAppend(a, line);
    EscapeAppend(front, "\n");
  }

  lemma ExecLineBreaks(front: string, line: string, back: string)
    requires forall k | 0 <= k < |line| :: |Escaped(line[k])| == 1
    ensures ExecLine(front + "\n" + line + "\n" + back) + "\n" ==
            "ExecStart=\"" + Escape(front) + "\n" + line + "\n" + (Escape(back) + "\"\n")
  {
    hide Escape, Escaped;
    EscapeLines(front, line, back);
    var open, a, b := "ExecStart=", Escape(front) + "\n" + line + "\n", Escape(back);
    assert open + ("\"" + (a + b) + "\"") + "\n" == (open + "\"") + a + (b + "\"\n");
    assert open + "\"" == "ExecStart=\"";
    assert "ExecStart=\"" + a == "ExecStart=\"" + Escape(front) + "\n" + line + "\n";
  }

  lemma OwnerLineIsPlain(uid: U32)
    ensures var line := OWNER_PREFIX + Decimal(uid);
            Plain(line) && line[|OWNER_PREFIX|..] == Decimal(uid)
            && forall k | 0 <= k < |line| :: |Escaped(line[k])| == 1
  {
    PrefixIsPlain();
    DecimalDigits(uid);
  }

  lemma LinesOfTwo(first: string, line: string, rest: string)
    requires '\n' !in first && Plain(line)
    ensures Lines(first + "\n" + line + "\n" + rest) == [Chomp(first)] + ([line] + Lines(rest))
  {
    hide Chomp, LinesFrom;
    assert first + "\n" + line + "\n" + rest == first + "\n" + (line + "\n" + rest);
    LinesOfOne("", first, line + "\n" + rest);
    LinesOfOne("", line, rest);
    assert "" + first == first && "" + line == line;
  }

  /** The paths that fail really do: with line breaks in it, a path can make the unit name any owner instead. */
  lemma LineBreakNamesAnother(front: string, other: U32, back: string, owner: Owner)
    requires '\n' !in front
    ensures var path := front + "\n" + (OWNER_PREFIX + Decimal(other)) + "\n" + back;
            InstalledOwnerUid(UnitContents(path, owner)) == Some(other)
  {
    var line := OWNER_PREFIX + Decimal(other);
    var path := front + "\n" + line + "\n" + back;
    OwnerLineIsPlain(other);
    hide *;
    BrokenFinds(front, line, back);
    NumberRoundTrip(other);
    FoundInIs(path);
    ReadUnit(path, owner);
  }

  lemma BrokenFinds(front: string, line: string, back: string)
    requires '\n' !in front && Plain(line) && OWNER_PREFIX <= line
    requires forall k | 0 <= k < |line| :: |Escaped(line[k])| == 1
    ensures FindOwner(Lines(ExecLine(front + "\n" + line + "\n" + back) + "\n")) == Some(line[|OWNER_PREFIX|..])
  {
    var first, rest := "ExecStart=\"" + Escape(front), Escape(back) + "\"\n";
    assert first[1] == 'x' && OWNER_PREFIX[1] == 'n';
    assert |Chomp(first)| > 1 && Chomp(first)[1] == 'x';
    hide *;
    ExecLineBreaks(front, line, back);
    EscapeBreaksNoLine(front);
    assert '\n' !in "ExecStart=\"";
    LinesOfTwo(first, line, rest);
    FindSecond(Chomp(first), line, Lines(rest));
  }

  lemma FoundInIs(path: string)
    ensures FoundIn(path) == FindOwner(Lines(ExecLine(path) + "\n"))
  {}

  lemma FindSecond(first: string, line: string, rest: seq<string>)
    requires |first| > 1 && first[1] != OWNER_PREFIX[1] && OWNER_PREFIX <= line
    ensures FindOwner([first] + ([line] + rest)) == Some(line[|OWNER_PREFIX|..])
  {
    assert ([first] + ([line] + rest))[1..] == [line] + rest;
  }

  /** Whether the installer goes on, given the unit already in place. */
  predicate UnitIsFreeFor(existing: Option<string>, owner: Owner) {
    match existing
    case None => true
    case Some(unit) =>
      match InstalledOwnerUid(unit)
      case None => true
      case Some(uid) => uid == owner.uid
  }

  /** After one owner installed the helper, exactly that owner can install it again. */
  lemma InstalledForOneOwner(path: string, first: Owner, second: Owner)
    requires '\n' !in path
    ensures UnitIsFreeFor(Some(UnitContents(path, first)), second) <==> first.uid == second.uid
  {
    hide UnitContents, InstalledOwnerUid;
    OwnerReadsBack(path, first);
  }
}
