/** `WindowsNetworkInfo.get_network_name` (mqtt_stat/stats/network/win.py):
    scans the `netsh wlan show interfaces` output for the first line
    containing "SSID". */
module WinNetwork {
  import opened Text
  import opened NetworkCommon

  /** The marker, without a leading space: a `BSSID` line carries it too. */
  const Marker: string := "SSID"

  function WinNetworkName(r: CommandResult): NameResult
  {
    match r
    case CalledProcessError => Name(NotConnected)
    case NotUtf8 => UnicodeDecodeError
    case Output(text) => ScanLines(Split(text, '\n'), Marker)
  }

  /** The answer comes from the first line holding "SSID"; earlier lines win. */
  lemma {:induction false} WinAnswersFromFirstMatch(text: string, i: nat)
    requires i < |Split(text, '\n')| && Contains(Split(text, '\n')[i], Marker)
    requires forall j :: 0 <= j < i ==> !Contains(Split(text, '\n')[j], Marker)
    ensures WinNetworkName(Output(text)) == SecondField(Split(text, '\n')[i])
  {
    ScanFirstMatch(Split(text, '\n'), Marker, i);
  }

  /** Without a line holding "SSID" the parser returns `None`. */
  lemma {:induction false} WinNoMatch(text: string)
    ensures WinNetworkName(Output(text)) == NoName
        ==> forall j :: 0 <= j < |Split(text, '\n')| ==> !Contains(Split(text, '\n')[j], Marker)
    ensures (forall j :: 0 <= j < |Split(text, '\n')| ==> !Contains(Split(text, '\n')[j], Marker))
        ==> WinNetworkName(Output(text)) == NoName
  {
    ScanNoMatch(Split(text, '\n'), Marker);
  }

  /** A failed command reports "Not connected to a network.". */
  lemma {:induction false} WinCommandFailed()
    ensures WinNetworkName(CalledProcessError) == Name(NotConnected)
  {
  }

  /** A `BSSID` line matches too, so whichever of the two lines comes first decides. */
  lemma {:induction false} BssidLineMatches(before: string, after: string)
    ensures Contains(before + "BSSID" + after, Marker)
  {
    assert before + "BSSID" + after == (before + "B") + Marker + after;
    ContainsInfix(before + "B", Marker, after);
  }

  /** netsh ends its lines with "\r\n": the first matching line, split at '\n',
      keeps the '\r', and the strip removes it. */
  lemma {:induction false} WinDropsCarriageReturn(text: string, i: nat, key: string, ssid: string)
    requires i < |Split(text, '\n')| && Split(text, '\n')[i] == key + [':'] + ssid + ['\r']
    requires Contains(key, Marker) && ':' !in key && ':' !in ssid
    requires ssid != [] && !IsSpace(ssid[0]) && !IsSpace(ssid[|ssid| - 1])
    requires forall j :: 0 <= j < i ==> !Contains(Split(text, '\n')[j], Marker)
    ensures WinNetworkName(Output(text)) == Name(ssid)
  {
    var line := key + [':'] + ssid + ['\r'];
    assert line == key + ([':'] + ssid + ['\r']);
    ContainsIff(key, Marker);
    var k := ContainsAt(key, Marker);
    assert line[k..k + |Marker|] == key[k..k + |Marker|];
    OccursContains(line, Marker, k);
    ScanFirstMatch(Split(text, '\n'), Marker, i);
    SecondFieldDropsCarriageReturn(key, ssid);
  }
}
