# OPlus EDL Toolkit: process runner and status panel, modelled in Dafny

This project models the sequential logic around the toolkit's process runner
(`src-tauri/src/command_util.rs`) and the status panel's state handler
(`src/composables/useStatusPanelEventHandler.js`), and proves what that logic
promises.

- `types.dfy` (module `Types`): `byte`, `Option`, `Result`.
- `command_util.dfy` (module `CommandUtil`):
  - the serial-port selection of `update_port`: a loop over the enumerated ports, proved against the fold `UpdatePortResult`;
  - `Config::setup_env`, which builds the connection strings and tool paths step by step on a `Config` value;
  - the two drain loops of `exec_cmd_with_progress`: one method `Drain` over a sequence of read outcomes, appending to a `SharedText` buffer and emitting progress events on an `App` event log;
  - command validation (`Prepare`), result composition (`Outcome`) and the whole run (`ExecCmdWithProgress`, specified by `ExecResult` and `ProgressCount`);
  - the debug command line and the `...OK` / `...Error` wrapper of `exec_cmd_with_msg`.
- `status_panel.dfy` (module `StatusPanelEventHandler`):
  - locale resolution as a function;
  - the composable's refs as fields of the classes `StatusPanel` and `ViewRefs`;
  - `updatePort`, `handleSelectLangChange` and the `onMounted` handler as methods.

The operating system and the front-end framework are inputs:
- the port enumeration is a sequence of `SerialPortInfo`;
- a spawned child is what a `System` function answers for an `Invocation`: whether the spawn failed, each pipe's sequence of reads (or its absence), and the wait outcome;
- `env::current_exe` is an optional `Path`, and `Path::to_str` is a function parameter;
- `decode_bytes` is a `Decoder` parameter about which nothing is assumed. So no lemma claims that decoding chunk by chunk equals decoding the concatenation;
- vue-i18n's `t` is a function of the current locale and the message key.

The drain's chunk buffer is a local that is cleared after every append. `Drain`'s
postcondition fixes the captured text as the in-order concatenation of
`decode(chunk) + "\n"` over the chunks actually read. So each decode sees only
the bytes of its own read. A buffer that was not cleared would make the decoder
see earlier bytes, and the postcondition would fail. Because every chunk adds a
newline, the failure text of a run carries those newlines. A failing tool that
writes `disk full` in one read yields the error `disk full\n`.

## Model

| member | source | states |
|---|---|---|
| CommandUtil.UpdatePort | src-tauri/src/command_util.rs:115-136 | the loop's `(port, product)` is the fold over the enumeration, with `("Not found", "N/A")` when no port name was kept |
| CommandUtil.ScanPortsNoUsb | src-tauri/src/command_util.rs:117-130 | non-USB ports never touch `port` or `product` |
| CommandUtil.ScanPortsName | src-tauri/src/command_util.rs:119-122 | after the loop `port` is the name of the last USB port in enumeration order |
| CommandUtil.ScanPortsProduct | src-tauri/src/command_util.rs:119-126 | after the loop `product` is the product of the last USB port that reported one |
| CommandUtil.ScanPortsNoProduct | src-tauri/src/command_util.rs:118-126 | `product` stays `""` when no USB port reports a product |
| CommandUtil.UpdatePortNoUsb | src-tauri/src/command_util.rs:119-132 | with no USB port the result is `("Not found", "N/A")` |
| CommandUtil.UpdatePortLastUsbWins | src-tauri/src/command_util.rs:119-134 | non-USB ports are ignored and the last USB port's name is returned; with no product reported anywhere the product is `""` |
| CommandUtil.UpdatePortLastProduct | src-tauri/src/command_util.rs:119-134 | the product is that of the last USB port that had one, at or before the port whose name is returned |
| CommandUtil.UpdatePortUnnamedLastUsb | src-tauri/src/command_util.rs:122-132 | a last USB port with an empty name gives `("Not found", "N/A")` even when earlier USB ports had names |
| CommandUtil.Join | src-tauri/src/command_util.rs:77-81 | joining a component gives a path whose parent is the original path |
| CommandUtil.SetupEnv | src-tauri/src/command_util.rs:50-112 | no port or no executable path leaves the all-default config, with `Info` even when `debug` is set; otherwise the Windows strings are `--port=\\.\` + port and `\\.\` + port, the Linux strings are `--port=` + port and the bare port, `is_connect` holds, the log level is `Debug` exactly when `debug` is set, and the four tool paths are under `<exe dir>/tools` with their fallbacks |
| CommandUtil.ChunksAreLeadingReads | src-tauri/src/command_util.rs:205-208 | the chunks a drain processes are exactly the leading non-empty reads, in order, and the read after them is a zero-length read or an error |
| CommandUtil.ChunksOfLeadingReads | src-tauri/src/command_util.rs:205-208 | conversely, leading non-empty reads followed by a zero-length read, an error or nothing are exactly the chunks processed |
| CommandUtil.DrainTextAppend | src-tauri/src/command_util.rs:212-214 | appending chunks appends their decoded text, so the buffer grows in read order |
| CommandUtil.DrainTextSnoc | src-tauri/src/command_util.rs:210-214 | one more chunk appends the decoding of its own bytes and `"\n"` at the end of the buffer |
| CommandUtil.DrainEventsSnoc | src-tauri/src/command_util.rs:216 | one more stdout chunk adds one progress event at the end of the log; a stderr chunk adds none |
| CommandUtil.DrainTextEmpty | src-tauri/src/command_util.rs:213-214 | a captured buffer is empty exactly when its stream yielded no chunk, even when chunks decode to `""` |
| CommandUtil.Drain | src-tauri/src/command_util.rs:201-243 | the buffer gains the concatenation of `decode(chunk) + "\n"` over the chunks read, each decoded alone; the stdout drain emits one `update_working_percentage` event with payload `"0"` per chunk and the stderr drain emits none |
| CommandUtil.Prepare | src-tauri/src/command_util.rs:177-189 | an empty command is `Err("[Error] cmd is empty")`; otherwise executable followed by arguments is the command again, and the working directory is the given one or `"."` |
| CommandUtil.Outcome | src-tauri/src/command_util.rs:256-264 | success returns all of stdout; failure returns stderr when it is non-empty and stdout otherwise |
| CommandUtil.ExecCmdWithProgress | src-tauri/src/command_util.rs:176-265 | the returned value and the emitted progress events are those of the run's specification, with fresh buffers on every run |
| CommandUtil.ExecEmptyCommand | src-tauri/src/command_util.rs:177-179 | an empty command fails with `[Error] cmd is empty` and emits nothing, whatever the system would do |
| CommandUtil.ExecSpawnsCommand | src-tauri/src/command_util.rs:180-195 | a non-empty command spawns `cmd[0]` with `cmd[1..]` in the chosen directory; a spawn failure yields `Failed to spawn command: ` plus the reason, a missing stdout pipe yields `[Error] Failed to capture stdout` and then a missing stderr pipe `[Error] Failed to capture stderr`, and with both pipes their reads and the exit are what the run goes on with |
| CommandUtil.ExecSuccess | src-tauri/src/command_util.rs:250-257 | a successful exit returns every stdout chunk, decoded and newline-terminated, in read order |
| CommandUtil.ExecFailureText | src-tauri/src/command_util.rs:253-264 | a failing exit returns the stderr text when stderr yielded any chunk, and the stdout text otherwise |
| CommandUtil.CmdLineFront | src-tauri/src/command_util.rs:145-148 | the logged line is `" " + cmd[0]` followed by the line of the rest, so every element is preceded by one space |
| CommandUtil.CmdLineAppend | src-tauri/src/command_util.rs:145-148 | the line of a concatenation is the concatenation of the lines |
| CommandUtil.CmdLineExample | src-tauri/src/command_util.rs:145-148 | the command `a b c` is logged as `" a b c"` |
| CommandUtil.BuildCmdLine | src-tauri/src/command_util.rs:145-148 | the loop builds exactly the logged command line |
| CommandUtil.ExecCmdWithMsg | src-tauri/src/command_util.rs:138-162 | the inner result is passed through unchanged; the log gains the command line (debug only), then the run's progress events, then `<msg>...OK` or `<msg>...Error` as the result is `Ok` or `Err` |
| StatusPanelEventHandler.LeadingLettersIsLongestLetterPrefix | src/composables/useStatusPanelEventHandler.js:54-55 | the language code is the longest prefix of ASCII letters, `""` when the locale starts with anything else |
| StatusPanelEventHandler.LeadingLettersOfTaggedLocale | src/composables/useStatusPanelEventHandler.js:54-55 | letters followed by a non-letter or the end give exactly those letters |
| StatusPanelEventHandler.ResolveLocaleAsWrittenEscapes | src/composables/useStatusPanelEventHandler.js:56-57 | as written, a locale named like an inherited `Object.prototype` property is selected although it is no language |
| StatusPanelEventHandler.ResolveLocale | src/composables/useStatusPanelEventHandler.js:52-62 | the selected language is always a `displayLang` key; an exact key is kept verbatim; otherwise the locale's leading letters are chosen when they are a key, and `'en'` when they are not |
| StatusPanelEventHandler.ResolveLocaleAgreesOutsidePrototypeNames | src/composables/useStatusPanelEventHandler.js:56-62 | resolution as written and with own keys agree on every locale whose name and letter prefix are not inherited property names |
| StatusPanelEventHandler.ResolveLocaleIdempotent | src/composables/useStatusPanelEventHandler.js:56-57 | resolving a resolved language gives it back |
| StatusPanelEventHandler.ResolveLocaleRegionalVariant | src/composables/useStatusPanelEventHandler.js:54-59 | `en` or `ru` followed by a separator and any region resolves to `en` or `ru` |
| StatusPanelEventHandler.ResolveLocaleExamples | src/composables/useStatusPanelEventHandler.js:53-59 | `zh-TW` stays itself, `ru-RU` gives `ru` and `en_US` gives `en` |
| StatusPanelEventHandler.ResolveLocaleFallbackExamples | src/composables/useStatusPanelEventHandler.js:53-62 | `zh-HK` (prefix `zh`), `ZH-CN` (matching is case-sensitive) and `1en` (empty prefix) fall back to `en` |
| StatusPanelEventHandler.TableColumnsKeys | src/composables/useStatusPanelEventHandler.js:22-31 | the table has the 8 keys chk, lun, partName, partSize, partStart, partNum, imgPath, sel in that order |
| StatusPanelEventHandler.TableColumnsWidths | src/composables/useStatusPanelEventHandler.js:22-31 | the 8 column widths sum to 100% |
| StatusPanelEventHandler.TabListShape | src/composables/useStatusPanelEventHandler.js:32-37 | the tab list has the 4 keys tab_part, tab_edl, tab_adv, tab_setting in order |
| StatusPanelEventHandler.StatusPanel.constructor | src/composables/useStatusPanelEventHandler.js:7-10 | the initial state is `portStatus` "EDL device not found", `portName` "N/A", `portNum` "" and `selectedLang` 'en' |
| StatusPanelEventHandler.StatusPanel.HandleSelectLangChange | src/composables/useStatusPanelEventHandler.js:20-38 | `locale` becomes `selectedLang`, and both tables are rebuilt with labels translated in the new locale |
| StatusPanelEventHandler.StatusPanel.UpdatePort | src/composables/useStatusPanelEventHandler.js:40-50 | `portNum` is the answered number; a number of "Not found" gives the error status and forces `portName` to "N/A"; otherwise the connected status and the answered name |
| StatusPanelEventHandler.StatusPanel.OnMounted | src/composables/useStatusPanelEventHandler.js:52-64 | with a system locale, the selected language is its resolution, always a `displayLang` key, and the language-change handler has run for it; with a null locale nothing is selected and the tables are untouched |

## Findings

| source | as written | input that shows it | evidently intended | confidence | as-written member | corrected member |
|---|---|---|---|---|---|---|
| src/composables/useStatusPanelEventHandler.js:56-59 | `key in displayLang` also holds for the names every object inherits from `Object.prototype` | system locale `toString`, or `valueOf-1` whose letter prefix is `valueOf`, is selected as the language | choose only among the four own keys of `displayLang` | low: no real locale has such a name; not executed | StatusPanelEventHandler.ResolveLocaleAsWrittenEscapes (about ResolveLocaleAsWritten) | StatusPanelEventHandler.ResolveLocale |

`StatusPanel.OnMounted` uses the corrected `ResolveLocale`.

## Left out

- Concurrency: the two drain tasks, the mutexes and the joins are not modelled. The two drains run one after the other, stdout first, and the wait outcome is examined after both. Within a stream the order of chunks is kept. The order between streams is not observable in the result, and only stdout emits events.
- Wait failure: the drain tasks are then neither joined nor stopped. The model lets them run to the end of their reads before the error is returned, so their progress events are in the log. When exactly those events appear relative to the return is not modelled.
- Reads: a drain's reads are a finite sequence. A sequence that ends without a zero-length read or an error stands for a stream whose later reads are not modelled.
- `decode_bytes`: GBK on Windows and lossy UTF-8 on Linux. It is the `Decoder` parameter.
- Process spawning: `Command`, `Stdio` piping and the `CREATE_NO_WINDOW` flag are OS calls. Only their error messages are kept.
- `update_port`: the panic of `available_ports().expect` is left out. Of a USB port's information only the product name is kept (not vid, pid, serial number or manufacturer).
- `println!` output is left out. So are the results of `app.emit`, which the source ignores.
- Paths: a `Path` is a sequence of components. Roots, drive prefixes, separators and the rendering of `to_str` are not modelled, and `to_str` is a function parameter.
- The Tauri command that connects `update_port` to the front end's `invoke("update_port")` is not part of this model. `StatusPanel.UpdatePort` takes the answered pair as parameters. JavaScript's `==` on two strings is string equality.
- Column widths are percentages as numbers, not the strings `'5%'`, `'10%'` and `'40%'`.
- Vue reactivity, the OS-locale plugin and the asynchronous `onMounted` are left out. The plugin's answer, a locale or null, is a parameter of `OnMounted`.
- StatusPanel.OnMounted: selects with the corrected `ResolveLocale`, so it does not reproduce the source on a locale named like an inherited `Object.prototype` property. For `toString` the source selects `toString` and the model selects `en`. `ResolveLocaleAsWritten` models the source's choice, and `ResolveLocaleAgreesOutsidePrototypeNames` proves the two agree on every other locale. On a null locale the thrown exception is modelled as leaving `selectedLang` at its value and the tables unbuilt; the unhandled rejection itself is not modelled.
- `src/locales/zh_CN.js` is a static translation table with no behaviour. Translations come from the `Translate` parameter.
