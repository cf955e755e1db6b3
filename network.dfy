/** The OS dispatch of mqtt_stat/stats/network/__init__.py: the abstract
    `NetworkInfo`, the factory that picks a platform implementation from the
    OS name, and the module-level `get_network_name`. The OS name and the
    command output are inputs. */
module Network {
  import opened Wrappers
  import opened NetworkCommon
  import MacNetwork
  import WinNetwork
  import LinuxNetwork

  datatype Platform = Windows | MacOS | Linux

  /** An instance of `NetworkInfo`: the base class or one of its subclasses. */
  datatype NetworkInfo = BaseNetworkInfo | PlatformInfo(platform: Platform)

  const UnsupportedPrefix: string := "Unsupported operating system: "

  /** The `platform.system()` name each implementation is chosen for. */
  function OsName(p: Platform): string
  {
    match p
    case Windows => "Windows"
    case MacOS => "Darwin"
    case Linux => "Linux"
  }

  /** `get_network_info_class()`: an implementation for exactly the three OS
      names, otherwise the `ValueError` whose message ends with the name. */
  function GetNetworkInfoClass(osName: string): (r: Result<NetworkInfo, string>)
    ensures r.Ok? <==> osName == "Windows" || osName == "Darwin" || osName == "Linux"
    ensures r.Ok? ==> r.value.PlatformInfo? && OsName(r.value.platform) == osName
    ensures r.Err? ==> UnsupportedPrefix <= r.error && r.error[|UnsupportedPrefix|..] == osName
  {
    if osName == "Windows" then Ok(PlatformInfo(Windows))
    else if osName == "Darwin" then Ok(PlatformInfo(MacOS))
    else if osName == "Linux" then Ok(PlatformInfo(Linux))
    else Err(UnsupportedPrefix + osName)
  }

  /** Each platform's OS name selects that platform. */
  lemma {:induction false} SelectRoundTrip(p: Platform)
    ensures GetNetworkInfoClass(OsName(p)) == Ok(PlatformInfo(p))
  {
  }

  /** `info.get_network_name()` over the command's outcome: the base class
      raises `NotImplementedError`, each subclass runs its own parser. */
  function GetNetworkName(info: NetworkInfo, out: CommandResult): (r: NameResult)
    ensures r == NotImplementedError <==> info == BaseNetworkInfo
    ensures info != BaseNetworkInfo ==> (r == UnicodeDecodeError <==> out.NotUtf8?)
  {
    match info
    case BaseNetworkInfo => NotImplementedError
    case PlatformInfo(Windows) => WinNetwork.WinNetworkName(out)
    case PlatformInfo(MacOS) => MacNetwork.MacNetworkName(out)
    case PlatformInfo(Linux) => LinuxNetwork.LinuxNetworkName(out)
  }

  /** The module-level `get_network_name()`: `NETWORK_INFO` is chosen once, when
      the module is imported (the import itself raises for an unsupported OS),
      and every call goes to that one instance. */
  function ModuleNetworkName(osName: string, out: CommandResult): (r: Result<NameResult, string>)
  {
    match GetNetworkInfoClass(osName)
    case Ok(info) => Ok(GetNetworkName(info, out))
    case Err(e) => Err(e)
  }

  /** The module-level call answers as the parser of the OS it runs on, and
      never with the base class's `NotImplementedError`. */
  lemma {:induction false} ModuleDelegates(p: Platform, out: CommandResult)
    ensures ModuleNetworkName(OsName(p), out) == Ok(GetNetworkName(PlatformInfo(p), out))
    ensures ModuleNetworkName(OsName(p), out).value != NotImplementedError
    ensures p == Linux && !out.NotUtf8? ==> ModuleNetworkName(OsName(p), out).value.Name?
  {
    SelectRoundTrip(p);
  }

  /** On every platform a failed command reports "Not connected to a network.",
      and output that is not UTF-8 raises `UnicodeDecodeError`, which the
      parsers do not catch. */
  lemma {:induction false} CommandFailedEverywhere(p: Platform)
    ensures GetNetworkName(PlatformInfo(p), CalledProcessError) == Name(NotConnected)
    ensures GetNetworkName(PlatformInfo(p), NotUtf8) == UnicodeDecodeError
  {
  }
}
