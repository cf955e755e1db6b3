/** `LinuxNetworkInfo.get_network_name` (mqtt_stat/stats/network/linux.py):
    the stripped output of
    `nmcli -t -f active,ssid dev wifi | egrep '^yes' | cut -d: -f2`,
    or a fixed message when that is empty or the command fails. */
module LinuxNetwork {
  import opened Text
  import opened NetworkCommon

  function LinuxNetworkName(r: CommandResult): (name: NameResult)
    ensures r.NotUtf8? <==> name == UnicodeDecodeError
    ensures !r.NotUtf8? ==> name.Name? && name.ssid != []
    ensures !r.NotUtf8? ==> !IsSpace(name.ssid[0]) && !IsSpace(name.ssid[|name.ssid| - 1])
  {
    assert NotConnected[0] == 'N' && NotConnected[|NotConnected| - 1] == '.';
    match r
    case CalledProcessError => Name(NotConnected)
    case NotUtf8 => UnicodeDecodeError
    case Output(text) =>
      StripShape(text);
      var s := Strip(text);
      if s != [] then Name(s) else Name(NotConnected)
  }

  /** Output with something besides whitespace comes back stripped; output
      that is empty or all whitespace gives the fixed message. */
  lemma {:induction false} LinuxStripOrFallback(text: string)
    ensures !AllSpace(text) ==> LinuxNetworkName(Output(text)) == Name(Strip(text))
    ensures AllSpace(text) ==> LinuxNetworkName(Output(text)) == Name(NotConnected)
  {
    StripEmptyIff(text);
  }

  /** A failed command gives the fixed message. */
  lemma {:induction false} LinuxCommandFailed()
    ensures LinuxNetworkName(CalledProcessError) == Name(NotConnected)
  {
  }

  // ---------------------------------------------------------------------
  // The shell pipeline

  /** `cut -d: -f2` on one line: the second field, or the whole line when it
      has no delimiter. */
  function CutField2(line: string): string
  {
    var fields := Split(line, ':');
    if |fields| >= 2 then fields[1] else line
  }

  /** `egrep '^yes' | cut -d: -f2` over the lines nmcli prints: each line that
      begins with "yes" contributes its second field and a newline. */
  function NmcliPipeline(lines: seq<string>): string
  {
    if lines == [] then ""
    else (if "yes" <= lines[0] then CutField2(lines[0]) + "\n" else "") + NmcliPipeline(lines[1..])
  }

  lemma {:induction false} PipelineAppend(a: seq<string>, b: seq<string>)
    ensures NmcliPipeline(a + b) == NmcliPipeline(a) + NmcliPipeline(b)
  {
    if a == [] {
      assert a + b == b;
    } else {
      assert (a + b)[0] == a[0];
      assert (a + b)[1..] == a[1..] + b;
      PipelineAppend(a[1..], b);
    }
  }

  /** No active line: the pipeline prints nothing. */
  lemma {:induction false} PipelineNoActive(lines: seq<string>)
    requires forall j :: 0 <= j < |lines| ==> !("yes" <= lines[j])
    ensures NmcliPipeline(lines) == ""
  {
    if lines != [] {
      PipelineNoActive(lines[1..]);
    }
  }

  /** With no active Wi-Fi connection the agent reports the fixed message. */
  lemma {:induction false} LinuxNotConnected(lines: seq<string>)
    requires forall j :: 0 <= j < |lines| ==> !("yes" <= lines[j])
    ensures LinuxNetworkName(Output(NmcliPipeline(lines))) == Name(NotConnected)
  {
    PipelineNoActive(lines);
  }

  /** `cut -d: -f2` of `yes:<ssid>` is the SSID when it has no colon. */
  lemma {:induction false} CutActiveLine(ssid: string)
    requires ':' !in ssid
    ensures CutField2("yes:" + ssid) == ssid
  {
    assert "yes:" + ssid == "yes" + [':'] + ssid;
    SplitAtFirst("yes", ssid, ':');
    SplitNoSep(ssid, ':');
  }

  /** A slice of the lines that leaves out the active one prints nothing. */
  lemma {:induction false} NoActiveSlice(lines: seq<string>, lo: nat, hi: nat, i: nat)
    requires lo <= hi <= |lines| && !(lo <= i < hi)
    requires forall j :: 0 <= j < |lines| && j != i ==> !("yes" <= lines[j])
    ensures NmcliPipeline(lines[lo..hi]) == ""
  {
    forall j | 0 <= j < hi - lo
      ensures !("yes" <= lines[lo..hi][j])
    {
      assert lines[lo..hi][j] == lines[lo + j];
    }
    PipelineNoActive(lines[lo..hi]);
  }

  /** Only the active line contributes to the pipeline's output. */
  lemma {:induction false} PipelineOnlyActive(lines: seq<string>, i: nat)
    requires i < |lines| && "yes" <= lines[i]
    requires forall j :: 0 <= j < |lines| && j != i ==> !("yes" <= lines[j])
    ensures NmcliPipeline(lines) == CutField2(lines[i]) + "\n"
  {
    var before, after := lines[0..i], lines[i + 1..|lines|];
    assert lines == before + [lines[i]] + after;
    PipelineAppend(before + [lines[i]], after);
    PipelineAppend(before, [lines[i]]);
    NoActiveSlice(lines, 0, i, i);
    NoActiveSlice(lines, i + 1, |lines|, i);
    assert [lines[i]][1..] == [];
  }

  /** One active connection `yes:<ssid>` with a colon-free SSID that has no
      surrounding whitespace: the agent reports exactly that SSID. */
  lemma {:induction false} LinuxSingleActive(lines: seq<string>, i: nat, ssid: string)
    requires i < |lines| && lines[i] == "yes:" + ssid
    requires forall j :: 0 <= j < |lines| && j != i ==> !("yes" <= lines[j])
    requires ':' !in ssid && ssid != [] && !IsSpace(ssid[0]) && !IsSpace(ssid[|ssid| - 1])
    ensures NmcliPipeline(lines) == ssid + "\n"
    ensures LinuxNetworkName(Output(NmcliPipeline(lines))) == Name(ssid)
  {
    assert "yes" <= lines[i];
    PipelineOnlyActive(lines, i);
    CutActiveLine(ssid);
    StripDropsTrailing(ssid, '\n');
  }
}
