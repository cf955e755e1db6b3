/** What the platform parsers of mqtt_stat/stats/network share: the command's
    outcome as input, the parser's outcome as output, and the first-match
    line scan that the macOS and Windows parsers each write out. */
module NetworkCommon {
  import opened Text

  /** What `subprocess.check_output(...).decode()` produced: the text,
      `CalledProcessError` when the command exited non-zero, or `NotUtf8`
      when its output is not valid UTF-8 and `.decode()` raises. */
  datatype CommandResult = Output(text: string) | CalledProcessError | NotUtf8

  /** What `get_network_name` did: returned a string, returned `None`
      (the loop fell through), or raised. */
  datatype NameResult =
    | Name(ssid: string)
    | NoName
    | IndexError
    | NotImplementedError
    | UnicodeDecodeError

  const NotConnected: string := "Not connected to a network."

  /** `line.split(":")[1].strip()`: the stripped text between the first and
      the second colon, or `IndexError` when the line has no colon. */
  function SecondField(line: string): NameResult
  {
    var fields := Split(line, ':');
    if |fields| < 2 then IndexError else Name(Strip(fields[1]))
  }

  /** `for line in lines: if marker in line: return SecondField(line)`,
      falling through to `None`. */
  function ScanLines(lines: seq<string>, marker: string): (r: NameResult)
    ensures r != NotImplementedError && r != UnicodeDecodeError
    ensures r.Name? || r == IndexError ==> exists i :: 0 <= i < |lines| && Contains(lines[i], marker)
  {
    if lines == [] then NoName
    else if Contains(lines[0], marker) then SecondField(lines[0])
    else ScanLines(lines[1..], marker)
  }

  /** The scan answers from the first matching line, whatever follows it. */
  lemma {:induction false} ScanFirstMatch(lines: seq<string>, marker: string, i: nat)
    requires i < |lines| && Contains(lines[i], marker)
    requires forall j :: 0 <= j < i ==> !Contains(lines[j], marker)
    ensures ScanLines(lines, marker) == SecondField(lines[i])
  {
    if i > 0 {
      assert !Contains(lines[0], marker);
      forall j | 0 <= j < i - 1
        ensures !Contains(lines[1..][j], marker)
      {
        assert lines[1..][j] == lines[j + 1];
      }
      ScanFirstMatch(lines[1..], marker, i - 1);
    }
  }

  /** The scan returns `None` exactly when no line matches. */
  lemma {:induction false} ScanNoMatch(lines: seq<string>, marker: string)
    ensures ScanLines(lines, marker) == NoName ==> forall j :: 0 <= j < |lines| ==> !Contains(lines[j], marker)
    ensures (forall j :: 0 <= j < |lines| ==> !Contains(lines[j], marker)) ==> ScanLines(lines, marker) == NoName
  {
    if lines != [] {
      ScanNoMatch(lines[1..], marker);
      if !Contains(lines[0], marker) {
        assert ScanLines(lines, marker) == ScanLines(lines[1..], marker);
        forall j | 1 <= j < |lines|
          ensures lines[j] == lines[1..][j - 1]
        {
        }
      }
    }
  }

  /** The field of a line `a:b[:c...]` with no colon in `a`: the stripped text
      up to the next colon. An SSID with a colon in it is cut at that colon. */
  lemma {:induction false} SecondFieldOf(a: string, b: string)
    requires ':' !in a
    ensures SecondField(a + [':'] + b) == Name(Strip(Split(b, ':')[0]))
    ensures ':' !in b ==> SecondField(a + [':'] + b) == Name(Strip(b))
  {
    SplitAtFirst(a, b, ':');
    if ':' !in b {
      SplitNoSep(b, ':');
    }
  }

  /** A matching line without a colon raises `IndexError`. */
  lemma {:induction false} SecondFieldNoColon(line: string)
    requires ':' !in line
    ensures SecondField(line) == IndexError
  {
    SplitNoSep(line, ':');
  }

  /** A colon-free SSID followed by a carriage return comes back without it. */
  lemma {:induction false} SecondFieldDropsCarriageReturn(a: string, ssid: string)
    requires ':' !in a && ':' !in ssid
    requires ssid != [] && !IsSpace(ssid[0]) && !IsSpace(ssid[|ssid| - 1])
    ensures SecondField(a + [':'] + ssid + ['\r']) == Name(ssid)
  {
    var tail := ssid + ['\r'];
    assert ':' !in tail;
    assert a + [':'] + ssid + ['\r'] == a + [':'] + tail;
    SecondFieldOf(a, tail);
    StripDropsTrailing(ssid, '\r');
  }
}
