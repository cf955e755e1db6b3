# MQTTStat in Dafny

MQTTStat is a small agent that answers status requests over MQTT. It connects to a broker with a last-will message, announces itself with a retained birth message and subscribes to a command topic. On request it publishes the device's Wi-Fi SSID and battery state, or sounds an alarm whose volume ramps up. This project models the parts of the agent that hold statable logic, and proves properties of that model:

- **Audio** (`audio.dfy`):
  - `VolumeControl` is a class over a `Sound` cell. It has validating setters for the increment, the maximum and the volume, plus the capped and clamped volume updates.
  - `alarm` is a method with the ramp loop `v := min(v + inc, max)`. The ramp itself is the recursive function `RampVolume`, with lemmas about it.
- **Client** (`client.dfy`):
  - The paho client is a `Paho` object holding an append-only log of requests: will registrations, publications and subscriptions.
  - `MqttClient`'s constructor and callbacks append to that log. `LogInvariant` states what every log keeps: the will comes first and only there, and the birth message is the only retained publication.
  - The will is the Will Message of section 3.1.2.5 of MQTT Version 3.1.1, and the retained flag is the RETAIN flag of its section 3.3.1.3.
- **Network** (`network_*.dfy`, `text.dfy`):
  - The per-OS SSID parsers are pure functions of the command's output. The Linux shell pipeline `egrep '^yes' | cut -d: -f2` is also modelled.
  - The OS dispatch is a pure case split.
  - `text.dfy` models the Python string operations the parsers use: `split` with a one-character separator, `in`, and `strip`.
- **GUI** (`gui.dfy`, `gui_errors.dfy`): the build-once `AlarmWindow` is a class, and the error messages are pure string functions.
- **Config** (`config.dfy`):
  - The file system is a value `Store` of directories and JSON files. `open`, `os.makedirs` and `json.load` are functions on it that return the error Python raises.
  - `ConfigManager` is a class whose setters and loads assign its fields. The store goes in and comes back out as a value.

Where the source raises an exception, the model returns an error value (`Result`, `Outcome`, `NameResult`) naming it. The command output, the OS name, the battery reading and the inbound payload are inputs.

## Model

| member | source | states |
|---|---|---|
| Audio.IncrementCheck | mqtt_stat/audio/__init__.py:94-97 | an increment passes exactly when 0 < v < max; a non-positive one is reported as such first |
| Audio.MaxCheck | mqtt_stat/audio/__init__.py:113-118 | a maximum passes exactly when 0 < v <= 1 and it exceeds the increment, with the checks in source order |
| Audio.VolumeCheck | mqtt_stat/audio/__init__.py:146-150 | a volume passes exactly when 0 <= v <= max; the upper bound is tested first |
| Audio.Clamp | mqtt_stat/audio/__init__.py:195 | `max(0, min(max, v))` lies in [0, max], is v inside the range, and is the violated bound outside it |
| Audio.EffectiveIncrement | mqtt_stat/audio/__init__.py:175 | `None` and 0 fall back to the stored increment; any other value is used as given |
| Audio.VolumeControl.Init | mqtt_stat/audio/__init__.py:72-82 | the allocation stores the sound, start, maximum and increment, and the increment lies strictly between 0 and the maximum |
| Audio.VolumeControl.New | mqtt_stat/audio/__init__.py:64-83 | construction succeeds exactly when the defaulted increment is strictly between 0 and the defaulted maximum, otherwise raises the setter's error; the maximum is unchecked; the sound's volume is left unchanged |
| Audio.VolumeControl.NewApplyingStart | mqtt_stat/audio/__init__.py:81-83 | the same checks, and on success the sound plays at the start volume |
| Audio.StartVolumeIgnored | mqtt_stat/audio/__init__.py:82-83 | a sound at 1.0 stays at 1.0 after a control asked to start at 0.1 is built on it |
| Audio.StartVolumeApplied | mqtt_stat/audio/__init__.py:81-83 | with the start applied, that sound is at 0.1 |
| Audio.VolumeControl.SetIncrement | mqtt_stat/audio/__init__.py:89-99 | a rejected increment raises the check's error and changes nothing; an accepted one is stored; 0 < increment < max is preserved |
| Audio.VolumeControl.SetMaxVolume | mqtt_stat/audio/__init__.py:108-121 | a maximum is stored exactly when 0 < v <= 1 and v > increment, otherwise the check's error is raised and nothing changes |
| Audio.VolumeControl.AssignVolume | mqtt_stat/audio/__init__.py:141-152 | the sound takes v exactly when 0 <= v <= max; otherwise it raises and the sound is unchanged |
| Audio.VolumeControl.DecreaseVolume | mqtt_stat/audio/__init__.py:154-168 | the volume drops by d when the result stays in [0, max]; a drop below 0 raises VolumeBelowZero and leaves the volume as it was |
| Audio.VolumeControl.IncreaseVolume | mqtt_stat/audio/__init__.py:173-177 | the volume becomes min(max, old + (i or increment)), never above max; only a negative step below 0 raises |
| Audio.VolumeControl.SetVolume | mqtt_stat/audio/__init__.py:179-195 | never raises; the volume becomes max(0, min(max, v)) and lies in [0, max] |
| Audio.AlarmParamsError | mqtt_stat/audio/__init__.py:395-403 | the parameters pass exactly when interval > 0 and increment, start and maximum lie in [0, 1]; the interval is checked first, then the increment, the start and the maximum in that order, each failure naming its argument; an increment of 0 and a start above the maximum both pass |
| Audio.RampPrefix | mqtt_stat/audio/__init__.py:407-419 | the first n volumes played are the ramp's first n values |
| Audio.RampClosedForm | mqtt_stat/audio/__init__.py:416-419 | from the second pass on, the ramp equals min(start + n * inc, max) |
| Audio.RampCapped | mqtt_stat/audio/__init__.py:418-419 | from the second pass on, the volume never exceeds the maximum |
| Audio.RampNonDecreasing | mqtt_stat/audio/__init__.py:416-419 | with a non-negative increment the ramp never decreases from the second pass on, nor at all when start <= max |
| Audio.RampCanDropOnce | mqtt_stat/audio/__init__.py:395-419 | a start above the maximum passes the checks, and the second pass is quieter than the first |
| Audio.RampReachesMax | mqtt_stat/audio/__init__.py:416-419 | with a positive increment the ramp is at the maximum once n * inc >= max - start |
| Audio.RampInUnitRange | mqtt_stat/audio/__init__.py:399-419 | with accepted parameters every volume of the ramp lies in [0, 1] |
| Audio.Alarm | mqtt_stat/audio/__init__.py:374-432 | invalid parameters raise before any play; otherwise a bound sound is played at exactly the ramp's volumes until the stop event, and an unbound one raises at the first play, which is swallowed |
| Audio.FindAlarmAsWritten | mqtt_stat/audio/__init__.py:369 | `find_service`'s alarm plays nothing as written, and reports a failed play whenever it ran at all |
| Audio.FindAlarm | mqtt_stat/audio/__init__.py:405-419 | with a sound bound the same alarm plays once per pass, from 0.05 (index 0), at full volume from the 20th pass (index 19) on |
| Audio.FindServiceParamsAccepted | mqtt_stat/client/__init__.py:80 | `find_service`'s parameters pass `alarm`'s checks, and the ramp reaches 1.0 at index 19, the 20th pass |
| Client.LookupCommand | mqtt_stat/client/__init__.py:66-74 | the table answers for exactly "get_status" and "find" |
| Client.StatusReply | mqtt_stat/client/__init__.py:82-91 | the reply has exactly the keys status="responded", network_ssid, battery_level and battery_charging; no battery raises TypeError before the network is read; a raising parser raises |
| Client.AppendKeepsInvariant | mqtt_stat/client/__init__.py:45-49 | appending to a log keeps the will-first, only-birth-retained invariant exactly when no appended request is a will or another retained publication |
| Client.MqttClient.constructor | mqtt_stat/client/__init__.py:36-49 | stores the topics and registers exactly one will, {"status": "offline"} on the LWT topic with QoS 1 and retained; nothing is published or subscribed |
| Client.MqttClient.Publish | mqtt_stat/client/__init__.py:134-135 | appends one publication on the reply topic, QoS 1, not retained |
| Client.MqttClient.GetStatus | mqtt_stat/client/__init__.py:82-94 | publishes exactly the status reply on the reply topic, or raises and publishes nothing |
| Client.MqttClient.FindService | mqtt_stat/client/__init__.py:76-80 | requests one alarm with interval 1.5, increment 0.05, start 0.05 and the default maximum |
| Client.MqttClient.ExecuteCommand | mqtt_stat/client/__init__.py:51-74 | an unknown command changes nothing; a known one with non-empty data raises TypeError; "find" and "get_status" with empty data run their handler |
| Client.MqttClient.OnConnect | mqtt_stat/client/__init__.py:96-110 | rc == 0 publishes the retained online birth message with QoS 1 and then subscribes to the listen topic, in that order; any other rc does nothing |
| Client.MqttClient.OnMessage | mqtt_stat/client/__init__.py:112-132 | a payload whose bytes `json.loads` cannot decode to text raises UnicodeDecodeError, which the JSON handler does not catch; non-JSON is dropped; a non-object raises AttributeError; status "needed" raises AttributeError and "alert" NameError before any reply; nothing is published or dispatched |
| Client.Session | mqtt_stat/client/__init__.py:36-110 | a refused then an accepted connection, a status request and an unknown command leave exactly the will, birth, subscription and reply, in that order |
| NetworkCommon.ScanLines | mqtt_stat/stats/network/mac_os.py:14-16 | the scan never answers NotImplementedError or UnicodeDecodeError, and an answer or an IndexError comes from a line holding the marker |
| NetworkCommon.ScanFirstMatch | mqtt_stat/stats/network/mac_os.py:14-16 | the scan answers from the first line holding the marker, whatever follows |
| NetworkCommon.ScanNoMatch | mqtt_stat/stats/network/mac_os.py:14-16 | the scan falls through to `None` exactly when no line holds the marker |
| NetworkCommon.SecondFieldOf | mqtt_stat/stats/network/mac_os.py:16 | the field is the stripped text between the first and second colon; an SSID with a colon is cut there |
| NetworkCommon.SecondFieldNoColon | mqtt_stat/stats/network/mac_os.py:16 | a matching line without a colon raises IndexError |
| NetworkCommon.SecondFieldDropsCarriageReturn | mqtt_stat/stats/network/win.py:16 | a trailing carriage return after the SSID is stripped away |
| MacNetwork.MacAnswersFromFirstMatch | mqtt_stat/stats/network/mac_os.py:12-16 | the macOS parser answers from the first line holding " SSID" |
| MacNetwork.MacNoMatch | mqtt_stat/stats/network/mac_os.py:14-16 | the macOS parser returns `None` exactly when no line holds " SSID" |
| MacNetwork.MacCommandFailed | mqtt_stat/stats/network/mac_os.py:17-18 | a failed command gives "Not connected to a network." |
| MacNetwork.BssidIsNotMarker | mqtt_stat/stats/network/mac_os.py:15 | a space-indented BSSID line does not hold " SSID" unless the rest of the line does |
| WinNetwork.WinAnswersFromFirstMatch | mqtt_stat/stats/network/win.py:12-16 | the Windows parser answers from the first line holding "SSID" |
| WinNetwork.WinNoMatch | mqtt_stat/stats/network/win.py:14-16 | the Windows parser returns `None` exactly when no line holds "SSID" |
| WinNetwork.WinCommandFailed | mqtt_stat/stats/network/win.py:17-18 | a failed command gives "Not connected to a network." |
| WinNetwork.BssidLineMatches | mqtt_stat/stats/network/win.py:15 | a BSSID line holds "SSID", so whichever comes first decides |
| WinNetwork.WinDropsCarriageReturn | mqtt_stat/stats/network/win.py:14-16 | a first matching `key:ssid\r` line gives exactly the SSID |
| LinuxNetwork.LinuxNetworkName | mqtt_stat/stats/network/linux.py:11-15 | output that is not UTF-8 raises UnicodeDecodeError, and exactly that; otherwise the result is a non-empty name with no whitespace at either end |
| LinuxNetwork.LinuxStripOrFallback | mqtt_stat/stats/network/linux.py:12-13 | output with a non-space is returned stripped; empty or all-space output gives the fixed message |
| LinuxNetwork.LinuxCommandFailed | mqtt_stat/stats/network/linux.py:14-15 | a failed command gives "Not connected to a network." |
| LinuxNetwork.PipelineAppend | mqtt_stat/stats/network/linux.py:10 | the pipeline works line by line: its output over a + b is its output over a, then over b |
| LinuxNetwork.PipelineNoActive | mqtt_stat/stats/network/linux.py:10 | with no line beginning "yes" the pipeline prints nothing |
| LinuxNetwork.LinuxNotConnected | mqtt_stat/stats/network/linux.py:10-13 | with no active connection the agent reports the fixed message |
| LinuxNetwork.CutActiveLine | mqtt_stat/stats/network/linux.py:10 | `cut -d: -f2` of "yes:ssid" is the SSID when it has no colon |
| LinuxNetwork.PipelineOnlyActive | mqtt_stat/stats/network/linux.py:10 | only the line beginning "yes" contributes to the output |
| LinuxNetwork.LinuxSingleActive | mqtt_stat/stats/network/linux.py:10-13 | one active "yes:ssid" line gives exactly that SSID |
| Network.GetNetworkInfoClass | mqtt_stat/stats/network/__init__.py:13-29 | an implementation exists for exactly "Windows", "Darwin" and "Linux", each the one for that OS; any other name raises with the name at the end of the message |
| Network.SelectRoundTrip | mqtt_stat/stats/network/__init__.py:17-27 | each platform's OS name selects that platform |
| Network.GetNetworkName | mqtt_stat/stats/network/__init__.py:8-10 | NotImplementedError comes exactly from the base class; on a platform, UnicodeDecodeError comes exactly from output that is not UTF-8 |
| Network.ModuleDelegates | mqtt_stat/stats/network/__init__.py:32-37 | the module-level call answers as the parser of the OS chosen at import, never with NotImplementedError |
| Network.CommandFailedEverywhere | mqtt_stat/stats/network/win.py:17-18 | on every platform a failed command reports "Not connected to a network." and output that is not UTF-8 raises UnicodeDecodeError |
| Text.SplitHasSecond | mqtt_stat/stats/network/mac_os.py:16 | `split(":")[1]` exists exactly when the line holds a colon |
| Text.StripEmptyIff | mqtt_stat/stats/network/linux.py:12-13 | `strip()` gives "" exactly when the text is all whitespace |
| GuiErrors.GuiErrorMessage | mqtt_stat/GUI/errors.py:43-48 | the message starts with the prefix; it is the bare prefix exactly when the message is not truthy, and otherwise the prefix, a space and the message |
| GuiErrors.NotBuilt | mqtt_stat/GUI/errors.py:57-68 | `None` gives the default "not yet been built" text, "" gives the bare prefix, and other text is appended |
| GuiErrors.AlreadyBuilt | mqtt_stat/GUI/errors.py:85-97 | the same, with the "already been built" default |
| GuiErrors.CustomNotBuiltMessage | mqtt_stat/GUI/errors.py:12-15 | `WindowNotBuiltError("Custom message")` reads "A GUI error has occurred: Custom message" |
| GuiErrors.MessageInjective | mqtt_stat/GUI/errors.py:43-44 | different non-empty messages give different errors |
| Gui.AlarmLayout | mqtt_stat/GUI/__init__.py:110-125 | two rows: the "Alarm Controller" text, then one button keyed STOP_BUTTON that binds the return key |
| Gui.AlarmWindow.constructor | mqtt_stat/GUI/__init__.py:32-40 | a new window is not built, even with auto_build set, and keeps its two flags |
| Gui.AlarmWindow.GetLayout | mqtt_stat/GUI/__init__.py:68-75 | a built window returns its stored layout; an unbuilt one raises WindowNotBuiltError with the documented message |
| Gui.AlarmWindow.Build | mqtt_stat/GUI/__init__.py:107-128 | an unbuilt window stores the alarm layout and becomes built; a built one raises WindowAlreadyBuiltError and keeps its layout; built never returns to false |
| Gui.BuildOnce | mqtt_stat/GUI/__init__.py:68-128 | a fresh window refuses its layout, builds once, refuses a second build, and then yields the first layout |
| Config.ReadFile | mqtt_stat/config/__init__.py:322-323 | a read succeeds exactly on a file and yields its contents |
| Config.WriteFile | mqtt_stat/config/__init__.py:378-379 | a write succeeds exactly when the path is not a directory and its directory exists, and then replaces that one file; a failed write changes nothing |
| Config.MakeDirs | mqtt_stat/config/__init__.py:44 | `os.makedirs` succeeds exactly when the path is new and not under a file, makes it a directory and keeps every file |
| Config.CreateMissingDirectories | mqtt_stat/config/__init__.py:15-47 | `None` exactly when the parent already exists, and then nothing changes; a missing parent under no file is made with its ancestors and returned; under a file, NotADirectoryError and nothing changes; files are never touched |
| Config.CreateMissingDirectoriesSettles | mqtt_stat/config/__init__.py:43-47 | a second call after a successful one returns `None` and does nothing |
| Config.MergeConfigs | mqtt_stat/config/__init__.py:300 | the merge has every key of both, the user's value where the user has one and the default elsewhere |
| Config.MergeDiffersIff | mqtt_stat/config/__init__.py:300-303 | the merge differs from the user's config exactly when the defaults hold a key it lacks |
| Config.MergeSettles | mqtt_stat/config/__init__.py:300-303 | merging the defaults into a merge changes nothing |
| Config.Load | mqtt_stat/config/__init__.py:268-308 | errors change nothing; with no file the defaults are written and returned and the stored config is untouched; with a file the merge is stored and returned |
| Config.LoadMerges | mqtt_stat/config/__init__.py:293-308 | over an existing file the load returns and stores the merge, and rewrites the file exactly when a default key is missing |
| Config.LoadSettles | mqtt_stat/config/__init__.py:300-306 | a second load right after a successful one writes nothing and returns the same config |
| Config.LoadCreatesFromDefaults | mqtt_stat/config/__init__.py:284-291 | a missing file in an existing directory is created from the defaults, which are returned, and nothing is stored |
| Config.CreateDefaultConfigAsWritten | mqtt_stat/config/__init__.py:384-393 | on success the file exists afterwards; on failure nothing changes |
| Config.CreateDefaultConfigFailsInExistingDir | mqtt_stat/config/__init__.py:389-390 | a missing file in an existing directory raises FileExistsError |
| Config.CreateDefaultConfig | mqtt_stat/config/__init__.py:384-393 | on success the file holds the defaults |
| Config.CreateDefaultConfigInExistingDir | mqtt_stat/config/__init__.py:388-392 | the corrected version writes the defaults in that case |
| Config.ConfigManager.constructor | mqtt_stat/config/__init__.py:111-127 | the path is the file in the given directory or the default one; the flags are stored; no config is held |
| Config.ConfigManager.New | mqtt_stat/config/__init__.py:129-132 | without auto_load nothing is loaded; with it the load runs and its error is raised from the constructor |
| Config.ConfigManager.SetAutoLoad | mqtt_stat/config/__init__.py:161-164 | a non-bool raises ValueError and changes nothing; any bool, False included, stores True |
| Config.ConfigManager.SetCreateMissingDirs | mqtt_stat/config/__init__.py:256-260 | a non-bool raises TypeError and changes nothing; a bool is stored |
| Config.ConfigManager.SetConfigFilepath | mqtt_stat/config/__init__.py:205-213 | a Path or str is stored; anything else raises TypeError and changes nothing |
| Config.ConfigManager.LoadConfig | mqtt_stat/config/__init__.py:268-308 | the store and result are the load's, and the stored config changes only when the load assigns it |
| Config.ConfigManager.GetConfig | mqtt_stat/config/__init__.py:166-174 | a held config is returned without loading; otherwise a load runs, and after the load that creates the file the result is still `None` |
| Config.ConfigManager.DeleteConfig | mqtt_stat/config/__init__.py:176-183 | the deleter changes nothing |
| Config.ConfigManager.ReloadConfig | mqtt_stat/config/__init__.py:414-426 | a reload is a load; when it does not assign, the old config survives |
| Config.ConfigManager.Get | mqtt_stat/config/__init__.py:408-409 | a held config answers the key or `None`; otherwise the load runs and any answer comes from the object it stored; before any config exists, on a missing file, it raises |
| Config.ConfigManager.PrepareConfigPath | mqtt_stat/config/__init__.py:428-460 | an existing file raises FileExistsError before anything else; otherwise the config's directory is made when allowed; files are never touched |
| Config.ConfigManager.CreateBlankConfigAsWritten | mqtt_stat/config/__init__.py:325-352 | an existing file raises FileExistsError before anything else |
| Config.ConfigManager.CreateBlankConfigNeverWrites | mqtt_stat/config/__init__.py:341-352 | as written, no file is ever created or changed, and in a missing directory the run fails |
| Config.ConfigManager.CreateBlankConfig | mqtt_stat/config/__init__.py:325-352 | the guard as written; on success the config file exists |
| Config.ConfigManager.CreateBlankConfigWrites | mqtt_stat/config/__init__.py:336-352 | corrected, a free and reachable path receives the defaults |
| Config.ConfigManager.AssessConfig | mqtt_stat/config/__init__.py:262-266 | as written: an existing file is left alone; otherwise the written `create_blank_config` runs, so the files never change, and with the directory present nothing happens at all |
| Config.ConfigManager.AssessConfigIntended | mqtt_stat/config/__init__.py:262-266 | over the corrected `create_blank_config`: an existing file is left alone; otherwise a successful run leaves the config file in place |
| Config.ConfigManager.AssessConfigIntendedWrites | mqtt_stat/config/__init__.py:262-266 | on a free, reachable path the corrected assessment writes exactly the defaults, where the written one creates no file |

## Left out

- Threading and the terminal: `start_alarm`, `rearm_alarm`, the global stop event, `input()` and `sleep`. `Audio.Alarm` takes the number of passes before the stop event is set as a parameter.
- Playback: `pygame.time.wait` and pygame's own clamping and quantising of volumes. Volumes are exact reals, with no float rounding.
- `AlarmAsset`, the asset decryption and the key store (mqtt_stat/audio/__init__.py:213-336 and the asset modules). They are file, keyring and Fernet calls.
- Audio.Alarm: whether the module-level name `sound` is bound is a parameter. The module as shown never binds it.
- The paho transport: `connect` and `loop_forever` sit inside `publish` because of their indentation. `Client.MqttClient.Publish` records only the publication. `run` is a nested function that is never bound, and the base class `mqtt_stat.shared.MQTTClient` is not part of this model.
- Client.MqttClient.OnMessage: `json.loads` picks the payload's encoding (UTF-8, UTF-16 or UTF-32) from a byte-order mark or the pattern of null bytes. That detection is folded into the input: the payload arrives already classified as undecodable, not JSON, or a decoded value.
- Client.MqttClient.OnMessage: if the unseen base class defined `respond_to_needed_status`, the "needed" branch would not raise. The model assumes it does not, since the handler is not defined in the class shown.
- Client.MqttClient.OnConnect: the subscription goes through the client passed to the callback. The model takes it to be the agent's own paho client.
- JSON serialisation: payloads are JSON values, not the strings `json.dumps` makes. Invalid JSON in a config file is not modelled; files hold JSON values.
- `get_battery_info` and the subprocess calls are inputs: the battery reading, and the command output, its failure, or output that is not UTF-8 (on which `.decode()` raises `UnicodeDecodeError`). The bytes themselves and the decoding are not modelled.
- Paths: `expanduser`, `resolve`, relative paths and platformdirs' default directory. The default directory is a constructor parameter.
- Config.ConfigManager.constructor: it models the assignments only. The debug line at mqtt_stat/config/__init__.py:113 reads the misspelt attribute `config_filepathpath`. Whether that raises depends on the logging base class, which is not part of this model.
- `merge_configs` reads the file and discards it. The model reads the file once: the second read would give the same result.
- `create_user_config`, `load_file` and `load_default_config` are covered by `Config.ReadFile`. `set` is `pass` and has nothing to state. The import-time `CONFIG_MAN` and its load are not modelled, and `print` and logging are left out.
- Config.ConfigManager.SetConfigFilepath: the path is stored as given, without resolving.
- Non-string truthiness: only string messages are modelled for the GUI errors. PySimpleGUI elements are plain values, and the window is never shown or run.
- nmcli's escaping of colons inside an SSID is not modelled.

## Findings

| source | as written | input that shows it | evidently intended | confidence | as-written member | corrected member |
|---|---|---|---|---|---|---|
| mqtt_stat/config/__init__.py:346-352 | `create_blank_config` passes the config's directory to `create_missing_directories`, which makes only that directory's parent. The save is indented inside `if not parent_fp.exists()`. | a free config path in an existing directory: nothing is written; in a missing directory: the save fails | make the config's own directory (as `prepare_config_path` does) and save the defaults in either case | medium, not executed | Config.ConfigManager.CreateBlankConfigNeverWrites | Config.ConfigManager.CreateBlankConfigWrites |
| mqtt_stat/config/__init__.py:262-266 | `assess_config` relies on `create_blank_config` to create a missing config file, which as written never writes it | a free config path in an existing directory: the assessment returns and no file exists | a missing config file is created from the defaults | medium, not executed | Config.ConfigManager.AssessConfig | Config.ConfigManager.AssessConfigIntendedWrites |
| mqtt_stat/config/__init__.py:389-390 | `create_default_config` calls `os.makedirs` on the directory whenever the file is missing | a missing file in an existing directory raises FileExistsError | make the directory only when it is missing | high, not executed | Config.CreateDefaultConfigFailsInExistingDir | Config.CreateDefaultConfigInExistingDir |
| mqtt_stat/audio/__init__.py:82-83 | `sound.set_volume(self.volume)` writes back what the sound already reports; the start volume goes to an unused field | a sound at 1.0 and the default start 0.1: it stays at 1.0 | the sound starts at the start volume | high, not executed | Audio.StartVolumeIgnored | Audio.StartVolumeApplied |
| mqtt_stat/audio/__init__.py:369 | `play_sound` uses a module-level `sound` that is never bound; the NameError is caught by `alarm` | `find_service`'s alarm: nothing is ever played | play the loaded alarm sound | high, not executed | Audio.FindAlarmAsWritten | Audio.FindAlarm |
