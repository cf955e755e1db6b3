/** `MacOSNetworkInfo.get_network_name` (mqtt_stat/stats/network/mac_os.py):
    scans the `airport -I` output for the first line containing " SSID". */
module MacNetwork {
  import opened Text
  import opened NetworkCommon

  /** The marker, with its leading space: a `BSSID` line does not carry it. */
  const Marker: string := " SSID"

  function MacNetworkName(r: CommandResult): NameResult
  {
    match r
    case CalledProcessError => Name(NotConnected)
    case NotUtf8 => UnicodeDecodeError
    case Output(text) => ScanLines(Split(text, '\n'), Marker)
  }

  /** The answer comes from the first line holding " SSID": the stripped text
      between its first and second colon. */
  lemma {:induction false} MacAnswersFromFirstMatch(text: string, i: nat)
    requires i < |Split(text, '\n')| && Contains(Split(text, '\n')[i], Marker)
    requires forall j :: 0 <= j < i ==> !Contains(Split(text, '\n')[j], Marker)
    ensures MacNetworkName(Output(text)) == SecondField(Split(text, '\n')[i])
  {
    ScanFirstMatch(Split(text, '\n'), Marker, i);
  }

  /** Without a line holding " SSID" the parser returns `None`. */
  lemma {:induction false} MacNoMatch(text: string)
    ensures MacNetworkName(Output(text)) == NoName
        ==> forall j :: 0 <= j < |Split(text, '\n')| ==> !Contains(Split(text, '\n')[j], Marker)
    ensures (forall j :: 0 <= j < |Split(text, '\n')| ==> !Contains(Split(text, '\n')[j], Marker))
        ==> MacNetworkName(Output(text)) == NoName
  {
    ScanNoMatch(Split(text, '\n'), Marker);
  }

  /** A failed command reports "Not connected to a network.". */
  lemma {:induction false} MacCommandFailed()
    ensures MacNetworkName(CalledProcessError) == Name(NotConnected)
  {
  }

  /** `BSSID` alone does not match: the letter before `SSID` is `B`, not a space. */
  lemma {:induction false} BssidIsNotMarker(pad: string, rest: string)
    requires forall k :: 0 <= k < |pad| ==> pad[k] == ' '
    requires !Contains(rest, Marker)
    ensures !Contains(pad + "BSSID" + rest, Marker)
  {
    var s := pad + "BSSID" + rest;
    if Contains(s, Marker) {
      var i := ContainsAt(s, Marker);
      assert Marker[0] == ' ' && Marker[1] == 'S';
      assert s[i] == ' ' && s[i + 1] == 'S' by { assert s[i..i + 5] == Marker; }
      assert forall k :: 0 <= k < |pad| ==> s[k] == ' ';
      assert s[|pad|..|pad| + 5] == "BSSID";
      assert i >= |pad| + 5;
      assert s[i..i + 5] == rest[i - |pad| - 5..i - |pad| - 5 + 5];
      OccursContains(rest, Marker, i - |pad| - 5);
    }
  }
}
