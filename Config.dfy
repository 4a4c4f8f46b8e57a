/** `utils.get_config_params`: the `key:value` settings of one `[section]` of
    the configuration file, read line by line.  A line is a string as Python's
    file iteration yields it, with its trailing newline. */
module Config {
  import opened Wrappers
  import opened Strings

  // ---------------------------------------------------------------------------
  // What the function returns, stated over the whole file

  /** The line that opens a section contains `[name]`. */
  function Header(section: string): string {
    "[" + section + "]"
  }

  /** The index of the first line that opens the section, or -1. */
  function SectionStart(lines: seq<string>, section: string): (r: int)
    ensures -1 <= r < |lines|
    ensures 0 <= r ==> Contains(lines[r], Header(section))
    ensures forall j :: 0 <= j < |lines| && (r < 0 || j < r) ==> !Contains(lines[j], Header(section))
    decreases |lines|
  {
    if |lines| == 0 then -1
    else if Contains(lines[0], Header(section)) then 0
    else
      var k := SectionStart(lines[1..], section);
      assert forall j :: 1 <= j < |lines| ==> lines[j] == lines[1..][j - 1];
      if k < 0 then -1 else k + 1
  }

  /** The index of the first blank line (exactly `"\n"`), or the length. */
  function BlankIndex(lines: seq<string>): (r: nat)
    ensures r <= |lines|
    ensures r < |lines| ==> lines[r] == "\n"
    ensures forall j :: 0 <= j < r ==> lines[j] != "\n"
    decreases |lines|
  {
    if |lines| == 0 || lines[0] == "\n" then 0
    else
      var k := BlankIndex(lines[1..]);
      assert forall j :: 1 <= j < |lines| ==> lines[j] == lines[1..][j - 1];
      1 + k
  }

  /** The setting lines of the section: those after its header, up to the first blank line. */
  function SectionLines(lines: seq<string>, section: string): seq<string> {
    var h := SectionStart(lines, section);
    if h < 0 then [] else lines[h + 1..][..BlankIndex(lines[h + 1..])]
  }

  /** One setting line: whitespace removed, key before the first `:`, value
      the rest; a line without `:` is an IndexError (`setting[1]`). */
  function ParseSetting(line: string): (r: Result<(string, string)>)
    ensures r.Raised? <==> ':' !in RemoveSpaces(line)
    ensures r.Raised? ==> r.error == IndexError
    ensures r.Ok? ==> r.value.0 + ":" + r.value.1 == RemoveSpaces(line) && ':' !in r.value.0
  {
    var pieces := Split(RemoveSpaces(line), ':');
    if |pieces| < 2 then Raised(IndexError)
    else
      JoinSplit(RemoveSpaces(line), ':');
      Ok((pieces[0], Join(pieces[1..], ":")))
  }

  /** The settings of `body` read in order on top of `acc`; a later key
      overwrites an earlier one, and the first bad line raises. */
  function Settle(body: seq<string>, acc: map<string, string>): Result<map<string, string>>
    decreases |body|
  {
    if |body| == 0 then Ok(acc)
    else
      match ParseSetting(body[0])
      case Raised(e) => Raised(e)
      case Ok(kv) => Settle(body[1..], acc[kv.0 := kv.1])
  }

  /** What `get_config_params(section)` returns for a file with these lines. */
  function ConfigParams(lines: seq<string>, section: string): Result<map<string, string>> {
    Settle(SectionLines(lines, section), map[])
  }

  // ---------------------------------------------------------------------------
  // The loop of `get_config_params`, one line at a time

  /** Where the loop is: before the header, inside the section, or done. */
  datatype Scan = Outside | Inside(config: map<string, string>) | Done(result: Result<map<string, string>>)

  /** What one line does to the loop (utils.py:10-23). */
  function Step(s: Scan, line: string, section: string): Scan {
    match s
    case Outside => if Contains(line, Header(section)) then Inside(map[]) else Outside
    case Inside(config) =>
      if line == "\n" then Done(Ok(config))
      else (
        match ParseSetting(line)
        case Raised(e) => Done(Raised(e))
        case Ok(kv) => Inside(config[kv.0 := kv.1]))
    case Done(r) => Done(r)
  }

  /** The loop run over the given lines from the given position. */
  function Run(s: Scan, lines: seq<string>, section: string): Scan
    decreases |lines|
  {
    if |lines| == 0 then s else Run(Step(s, lines[0], section), lines[1..], section)
  }

  /** What the function returns once the loop has stopped. */
  function Outcome(s: Scan): Result<map<string, string>> {
    match s
    case Outside => Ok(map[])
    case Inside(config) => Ok(config)
    case Done(r) => r
  }

  /** `get_config_params(section_name)` over the lines of the file. */
  method GetConfigParams(lines: seq<string>, section: string) returns (r: Result<map<string, string>>)
    ensures r == ConfigParams(lines, section)
  {
    var config: map<string, string> := map[];
    var inSection := false;
    var n := 0;
    while n < |lines|
      invariant 0 <= n <= |lines|
      invariant !inSection ==> config == map[]
      invariant Run(Outside, lines, section) == Run(if inSection then Inside(config) else Outside, lines[n..], section)
    {
      var line := lines[n];
      assert lines[n..][0] == line && lines[n..][1..] == lines[n + 1..];
      if inSection && line != "\n" {
        var setting := ReadSetting(line);
        if setting.Raised? {
          DoneStays(Raised(setting.error), lines[n + 1..], section);
          r := Raised(setting.error);
          ScanIsConfig(lines, section);
          return;
        }
        config := config[setting.value.0 := setting.value.1];
      } else if inSection && line == "\n" {
        DoneStays(Ok(config), lines[n + 1..], section);
        break;
      } else if Contains(line, Header(section)) {
        inSection := true;
      }
      n := n + 1;
    }
    r := Ok(config);
    ScanIsConfig(lines, section);
  }

  /** Lines 11-17 of `get_config_params`: strip the whitespace, split on `:`
      and glue the pieces after the first back together. */
  method ReadSetting(line: string) returns (r: Result<(string, string)>)
    ensures r == ParseSetting(line)
  {
    var setting := Split(RemoveSpaces(line), ':');
    if |setting| < 2 {
      return Raised(IndexError);
    }
    var value := setting[1];
    if |setting| > 2 {
      var i := 2;
      while i < |setting|
        invariant 2 <= i <= |setting|
        invariant value == Join(setting[1..i], ":")
      {
        JoinSnoc(setting[1..i], setting[i], ":");
        assert setting[1..i + 1] == setting[1..i] + [setting[i]];
        value := value + ":" + setting[i];
        i := i + 1;
      }
    }
    assert setting[1..] == setting[1..|setting|];
    return Ok((setting[0], value));
  }

  lemma {:induction false} JoinSnoc(xs: seq<string>, x: string, sep: string)
    requires |xs| >= 1
    ensures Join(xs + [x], sep) == Join(xs, sep) + sep + x
    decreases |xs|
  {
    if |xs| == 1 {
      assert (xs + [x])[1..] == [x];
    } else {
      JoinSnoc(xs[1..], x, sep);
      assert (xs + [x])[1..] == xs[1..] + [x];
    }
  }

  /** Once the loop has stopped, later lines change nothing. */
  lemma {:induction false} DoneStays(r: Result<map<string, string>>, lines: seq<string>, section: string)
    ensures Run(Done(r), lines, section) == Done(r)
    decreases |lines|
  {
    if |lines| > 0 {
      DoneStays(r, lines[1..], section);
    }
  }

  // ---------------------------------------------------------------------------
  // The loop computes the specification

  /** Lines without the header leave the loop outside the section. */
  lemma {:induction false} OutsideStays(lines: seq<string>, section: string)
    requires forall j :: 0 <= j < |lines| ==> !Contains(lines[j], Header(section))
    ensures Run(Outside, lines, section) == Outside
    decreases |lines|
  {
    if |lines| > 0 {
      assert forall j :: 0 <= j < |lines| - 1 ==> lines[1..][j] == lines[j + 1];
      OutsideStays(lines[1..], section);
    }
  }

  /** Lines up to and including the first header line are skipped. */
  lemma {:induction false} RunToHeader(lines: seq<string>, section: string, h: nat)
    requires h < |lines| && Contains(lines[h], Header(section))
    requires forall j :: 0 <= j < h ==> !Contains(lines[j], Header(section))
    ensures Run(Outside, lines, section) == Run(Inside(map[]), lines[h + 1..], section)
    decreases h
  {
    if h > 0 {
      assert forall j :: 0 <= j < h - 1 ==> lines[1..][j] == lines[j + 1];
      RunToHeader(lines[1..], section, h - 1);
      assert lines[1..][h..] == lines[h + 1..];
    }
  }

  /** Inside the section the loop reads the lines up to the first blank one. */
  lemma {:induction false} RunInside(config: map<string, string>, lines: seq<string>, section: string)
    ensures Outcome(Run(Inside(config), lines, section)) == Settle(lines[..BlankIndex(lines)], config)
    decreases |lines|
  {
    if |lines| > 0 {
      var body := lines[..BlankIndex(lines)];
      if lines[0] == "\n" {
        DoneStays(Ok(config), lines[1..], section);
      } else {
        assert body[0] == lines[0] && body[1..] == lines[1..][..BlankIndex(lines[1..])];
        match ParseSetting(lines[0])
        case Raised(e) =>
          DoneStays(Raised(e), lines[1..], section);
        case Ok(kv) =>
          RunInside(config[kv.0 := kv.1], lines[1..], section);
      }
    }
  }

  /** The loop's result is the one stated over the whole file. */
  lemma ScanIsConfig(lines: seq<string>, section: string)
    ensures Outcome(Run(Outside, lines, section)) == ConfigParams(lines, section)
  {
    var h := SectionStart(lines, section);
    if h < 0 {
      OutsideStays(lines, section);
    } else {
      RunToHeader(lines, section, h);
      RunInside(map[], lines[h + 1..], section);
    }
  }

  // ---------------------------------------------------------------------------
  // Properties of the result

  /** Nothing up to and including the first header line is read as a setting,
      and nothing from the first blank line after it on. */
  lemma ConfigReadsSectionBody(pre: seq<string>, header: string, body: seq<string>, tail: seq<string>, section: string)
    requires forall j :: 0 <= j < |pre| ==> !Contains(pre[j], Header(section))
    requires Contains(header, Header(section))
    requires forall j :: 0 <= j < |body| ==> body[j] != "\n"
    ensures ConfigParams(pre + [header] + body + ["\n"] + tail, section) == Settle(body, map[])
  {
    var rest := body + ["\n"] + tail;
    Regroup(pre, header, body, tail);
    AfterHeader(pre, header, rest, section);
    BlankAfterBody(body, tail);
  }

  lemma Regroup(pre: seq<string>, header: string, body: seq<string>, tail: seq<string>)
    ensures pre + [header] + body + ["\n"] + tail == pre + [header] + (body + ["\n"] + tail)
  {
  }

  /** The section's settings are read from the lines after its first header line. */
  lemma AfterHeader(pre: seq<string>, header: string, rest: seq<string>, section: string)
    requires forall j :: 0 <= j < |pre| ==> !Contains(pre[j], Header(section))
    requires Contains(header, Header(section))
    ensures ConfigParams(pre + [header] + rest, section) == Settle(rest[..BlankIndex(rest)], map[])
  {
    var lines := pre + [header] + rest;
    assert lines[|pre|] == header;
    forall j | 0 <= j < |pre| ensures !Contains(lines[j], Header(section)) {
      assert lines[j] == pre[j];
    }
    RunToHeader(lines, section, |pre|);
    assert lines[|pre| + 1..] == rest;
    RunInside(map[], rest, section);
    ScanIsConfig(lines, section);
  }

  lemma BlankAfterBody(body: seq<string>, tail: seq<string>)
    requires forall j :: 0 <= j < |body| ==> body[j] != "\n"
    ensures (body + ["\n"] + tail)[..BlankIndex(body + ["\n"] + tail)] == body
  {
    var rest := body + ["\n"] + tail;
    assert rest[|body|] == "\n";
    assert forall j :: 0 <= j < |body| ==> rest[j] == body[j];
    assert BlankIndex(rest) == |body|;
    assert rest[..|body|] == body;
  }

  /** Keys and values never contain whitespace. */
  lemma {:induction false} SettleNoSpace(body: seq<string>, acc: map<string, string>)
    requires forall k :: k in acc ==> NoSpace(k) && NoSpace(acc[k])
    requires Settle(body, acc).Ok?
    ensures forall k :: k in Settle(body, acc).value ==> NoSpace(k) && NoSpace(Settle(body, acc).value[k])
    decreases |body|
  {
    if |body| > 0 {
      var kv := ParseSetting(body[0]).value;
      var s := RemoveSpaces(body[0]);
      assert s == kv.0 + ":" + kv.1;
      assert forall i :: 0 <= i < |kv.0| ==> kv.0[i] == s[i];
      assert forall i :: 0 <= i < |kv.1| ==> kv.1[i] == s[|kv.0| + 1 + i];
      SettleNoSpace(body[1..], acc[kv.0 := kv.1]);
    }
  }

  /** A key no later line sets keeps the value it had. */
  lemma {:induction false} SettleKeeps(body: seq<string>, acc: map<string, string>, k: string)
    requires Settle(body, acc).Ok? && k in acc
    requires forall j :: 0 <= j < |body| && ParseSetting(body[j]).Ok? ==> ParseSetting(body[j]).value.0 != k
    ensures k in Settle(body, acc).value && Settle(body, acc).value[k] == acc[k]
    decreases |body|
  {
    if |body| > 0 {
      var kv := ParseSetting(body[0]).value;
      assert forall j :: 0 <= j < |body| - 1 ==> body[1..][j] == body[j + 1];
      SettleKeeps(body[1..], acc[kv.0 := kv.1], k);
    }
  }

  /** A key set on several lines keeps the value of the last of them. */
  lemma {:induction false} LastSettingWins(body: seq<string>, acc: map<string, string>, j: nat)
    requires Settle(body, acc).Ok? && j < |body| && ParseSetting(body[j]).Ok?
    requires forall i :: j < i < |body| && ParseSetting(body[i]).Ok? ==> ParseSetting(body[i]).value.0 != ParseSetting(body[j]).value.0
    ensures ParseSetting(body[j]).value.0 in Settle(body, acc).value
    ensures Settle(body, acc).value[ParseSetting(body[j]).value.0] == ParseSetting(body[j]).value.1
    decreases j
  {
    var kv := ParseSetting(body[0]).value;
    if j == 0 {
      forall i | 0 <= i < |body[1..]| && ParseSetting(body[1..][i]).Ok?
        ensures ParseSetting(body[1..][i]).value.0 != kv.0
      {
        assert body[1..][i] == body[i + 1];
      }
      SettleKeeps(body[1..], acc[kv.0 := kv.1], kv.0);
    } else {
      assert body[1..][j - 1] == body[j];
      forall i | j - 1 < i < |body[1..]| && ParseSetting(body[1..][i]).Ok?
        ensures ParseSetting(body[1..][i]).value.0 != ParseSetting(body[1..][j - 1]).value.0
      {
        assert body[1..][i] == body[i + 1];
      }
      LastSettingWins(body[1..], acc[kv.0 := kv.1], j - 1);
    }
  }

  /** The result is an IndexError exactly when some line of the body has no `:`. */
  lemma {:induction false} SettleRaises(body: seq<string>, acc: map<string, string>)
    ensures Settle(body, acc).Raised? <==> exists j :: 0 <= j < |body| && ':' !in RemoveSpaces(body[j])
    ensures Settle(body, acc).Raised? ==> Settle(body, acc).error == IndexError
    decreases |body|
  {
    if |body| > 0 {
      if ':' in RemoveSpaces(body[0]) {
        var kv := ParseSetting(body[0]).value;
        SettleRaises(body[1..], acc[kv.0 := kv.1]);
        if exists j :: 0 <= j < |body[1..]| && ':' !in RemoveSpaces(body[1..][j]) {
          var j :| 0 <= j < |body[1..]| && ':' !in RemoveSpaces(body[1..][j]);
          assert body[j + 1] == body[1..][j];
        }
        if exists j :: 0 <= j < |body| && ':' !in RemoveSpaces(body[j]) {
          var j :| 0 <= j < |body| && ':' !in RemoveSpaces(body[j]);
          assert body[1..][j - 1] == body[j];
        }
      }
    }
  }
}
