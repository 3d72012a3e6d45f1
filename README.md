# TypeWinner, modelled in Dafny

TypeWinner is a typing bot for TypeRacer. A desktop window starts Chrome under
Puppeteer. The automation then watches the game page. When the traffic light
turns to "go" it types the race passage. When a typing-test challenge appears
it sends the challenge image to a Groq vision model and types the text that
comes back. The keystrokes are paced and imperfect: every character may be
preceded by an error burst of wrong lowercase letters that are then erased.
The delays come from a configuration that the window's sliders update while a
race is running.

The repository ships the same logic three times:

- the Electron main process (`src/main`);
- an older Electron copy (`src/backend`);
- a Tauri back end (`src-tauri`) that starts a Node script (`puppeteer-node.cjs`) doing the browser work.

This project models the shared core of all three:

- **Typing simulator** (`random.dfy`, `keyboard.dfy`, `typing.dfy`).
  - `getRandomInt` works over a stream of `Math.random()` draws.
  - The page is a text buffer plus a log of the inputs it received.
  - `typeText`, `doError` and `shouldDoError` are methods with their loops, proved against a specification function `TypeRun` of the draws and of a configuration timeline.
  - Lemmas about `TypeRun` give the net buffer effect, the key counts, the delay bounds and the case with no errors.
  - The three copies of the simulator are identical: `src/main/utils/typing.ts:12-45`, `src/backend/utils/typing.ts:12-44` and `src/main/utils/puppeteer-node.cjs:50-81`.
- **Typing configuration** (`settings.dfy`).
  - The Electron `updateTypeSpeed`/`updateErrRate` handlers, as a class over the `typeConfig` record.
  - The Tauri commands, with their `u32` cells, the configuration file they write, and the API-key file.
  - The Node script's `readConfig`.
- **Paths and lookups** (`paths.dfy`, `chrome.dfy`, `launch.dfy`).
  - Configuration and data directories, and the Chrome binary lookup.
  - The search for the Node script and the preparation steps of `open_browser`.
- **Recognition** (`base64.dfy`, `json.dfy`, `grok.dfy`).
  - The request's data URL, with a proved base64 round trip.
  - The Rust `and_then` extraction chain and the JavaScript `?.`/`??` expression, and where they differ.
  - The Electron key file and Groq client. The older copy (`src/backend/main.ts`, `src/backend/utils/grok.ts`) stands in for `src/main/main.ts`, whose key handlers are the same; `src/main/utils/grok.ts` is not part of this model.
- **Automation handlers** (`session.dfy`).
  - The challenge-URL filter and the traffic-light listener.
  - `solveChallenge` and `gameStarted`.
  - The browser and page event handlers of each copy.

Everything outside the program is an oracle passed in as a parameter:

| oracle | what it stands for |
|---|---|
| `Draws` | the `Math.random()` draws |
| `Timeline` | the configuration a keystroke reads |
| `Present` | `exists` |
| `Env` | the environment variables |
| `Dirs` | the platform directories |
| `MakeDirs` | `create_dir_all` |
| `Parser` | `JSON.parse` |
| render function | `to_string_pretty` |
| send/create functions | the HTTP call and the Groq SDK |
| read/write outcomes | file read and write results |

The code and the system's specification disagree on two points. The model follows the code in both.

- **The error draw.** `getRandomInt(0, 100)` returns an integer in 0..100 with both ends included, not in [0, 100). Error rate 0 therefore never bursts, and error rate 100 still skips the burst when the draw is 100 (`Typing.FullRateCanSkip`).
- **When the configuration is read.** It is read at every keystroke, including those inside a burst, not only at character boundaries. The timeline is indexed by the number of inputs the page has received. `Typing.TypeRunAgree` shows that a change taking effect after some input leaves every iteration finished before it unchanged.

## Model

| member | source | states |
|---|---|---|
| Random.GetRandomInt | src/main/utils/commons.ts:56-60 | for a draw in [0, 1) the result lies in [ceil(min), floor(max)] whenever that range is not empty |
| Random.GetRandomIntReaches | src/main/utils/commons.ts:56-60 | every integer of [ceil(min), floor(max)] is the result of some draw, so the bound is exact |
| Random.RandomInt | src/main/utils/puppeteer-node.cjs:39-43 | with integer bounds min <= max the result lies in [min, max] |
| Random.RandomIntInRange | src/backend/utils/commons.ts:38-42 | the rounding `getRandomInt` applies keeps every draw inside [min, max], which is the property the typing model assumes of its rounding |
| Random.ErrorChar | src/main/utils/typing.ts:21-23 | the wrong character is a lowercase letter 'a'..'z' |
| Random.ErrorCharReaches | src/main/utils/typing.ts:21-23 | every lowercase letter is the wrong character of some draw |
| Random.Rng.Next | src/main/utils/typing.ts:22 | `Math.random()` returns the next draw of the stream, which lies in [0, 1), and advances the cursor by one |
| Random.Rng.Int | src/main/utils/commons.ts:56-60 | `getRandomInt` consumes exactly one draw and stays in [min, max] when min <= max |
| Keyboard.ReplayTyped | src/main/utils/typing.ts:20-27 | typed keys extend the buffer by one character each and keep what was there |
| Keyboard.ReplayErased | src/main/utils/typing.ts:29-33 | m Backspaces delete exactly the last m characters |
| Keyboard.ReplayCancels | src/main/utils/typing.ts:20-33 | n typed keys followed by n Backspaces leave the buffer unchanged |
| Keyboard.Page.Type | src/main/utils/typing.ts:41-43 | `page.keyboard.type` appends the input to the log and the character to the buffer |
| Keyboard.Page.PressBackspace | src/main/utils/typing.ts:30-32 | `press('Backspace')` is logged and removes the last character, or nothing from an empty buffer |
| Keyboard.Page.Click | src/main/utils/puppeteer.ts:94 | a click is logged and leaves the text alone |
| Typing.KeyDelay | src/main/utils/typing.ts:41-43 | a keystroke delay lies in [minDelay, maxDelay] of the configuration read for it, when that range is not empty |
| Typing.ErrorsAmount | src/main/utils/typing.ts:18 | a burst has between 1 and 5 wrong letters |
| Typing.WrongKeys | src/main/utils/typing.ts:20-27 | the first loop of `doError` sends exactly `count` keystrokes |
| Typing.Backspaces | src/main/utils/typing.ts:29-33 | the second loop of `doError` sends exactly `count` Backspaces |
| Typing.WrongKeysAt | src/main/utils/typing.ts:20-27 | the t-th wrong key uses draws i+2t (letter) and i+2t+1 (delay) and the configuration read after k+t inputs |
| Typing.BackspacesAt | src/main/utils/typing.ts:29-33 | the t-th Backspace uses draw i+t and the configuration read after k+t inputs |
| Typing.BurstShape | src/main/utils/typing.ts:17-34 | a burst is n wrong lowercase letters followed by exactly n Backspaces, 1 <= n <= 5 |
| Typing.BurstReplay | src/main/utils/typing.ts:17-34 | on the buffer model any burst leaves the text as it found it |
| Typing.BurstCounts | src/main/utils/typing.ts:17-34 | a burst presses as many Backspaces as it types wrong keys |
| Typing.BurstPaced | src/main/utils/typing.ts:24-32 | every key of a burst has a delay within the configuration read when it is sent |
| Typing.CharStepBursts | src/main/utils/typing.ts:12-15 | a burst precedes a character exactly when the draw `getRandomInt(0, 100)` is below the error rate of that moment |
| Typing.CharStepShape | src/main/utils/typing.ts:36-44 | each iteration sends nothing or a burst, then its own character |
| Typing.StepReplay | src/main/utils/typing.ts:36-44 | on the buffer model one iteration types its character and nothing else |
| Typing.StepCounts | src/main/utils/typing.ts:36-44 | one iteration types one key more than the Backspaces it presses |
| Typing.CharStepPaced | src/main/utils/typing.ts:36-44 | every input of one iteration is a keystroke whose delay fits the configuration read for it |
| Typing.ZeroRateNeverBursts | src/main/utils/typing.ts:6-15 | with the initial error rate 0 no draw causes a burst |
| Typing.FullRateCanSkip | src/main/utils/typing.ts:12-15 | with error rate 100 the draw 100 (which `getRandomInt(0, 100)` can return) still skips the burst |
| Typing.TypeRunSteps | src/main/utils/typing.ts:36-45 | a run has one step per character, in text order, each ending with that character |
| Typing.TypeRunFlat | src/main/utils/typing.ts:36-45 | a run's inputs are its steps' inputs, in order |
| Typing.SpelledReplay | src/main/utils/typing.ts:36-45 | steps that spell a text, replayed after a buffer, leave the buffer followed by the text |
| Typing.SpelledCounts | src/main/utils/typing.ts:36-45 | steps that spell a text type one key per character plus one per Backspace |
| Typing.TypeRunBuffer | src/main/utils/typing.ts:36-45 | after the first n iterations the buffer is the initial buffer followed by the first n characters of the text |
| Typing.TypeRunCounts | src/main/utils/typing.ts:36-45 | the number of typed keys is the number of characters plus the number of Backspaces |
| Typing.TypeRunPaced | src/main/utils/typing.ts:17-45 | every input of a run is a keystroke whose delay lies in the [minDelay, maxDelay] of the configuration read when it was sent |
| Typing.WrongKeysAgree | src/main/utils/typing.ts:20-27 | the wrong keys depend on the configuration only at the input counts where they are sent |
| Typing.BackspacesAgree | src/main/utils/typing.ts:29-33 | the Backspaces depend on the configuration only at the input counts where they are sent |
| Typing.BurstAgree | src/main/utils/typing.ts:17-34 | two timelines that agree while a burst is sent give the same burst |
| Typing.CharStepAgree | src/main/utils/typing.ts:12-44 | one iteration reads `typeConfig` only at the input counts it covers: timelines that agree there give the same iteration |
| Typing.TypeRunAgree | src/main/utils/typing.ts:12-45 | an update of `typeConfig` during a run changes only the keystrokes sent after it: timelines that agree until the last input of the first n iterations give the same n iterations, inputs and draws |
| Typing.TypeRunWithoutErrors | src/main/utils/typing.ts:12-45 | with error rate 0 throughout, the run is exactly the text's characters, one keystroke each, and no Backspace; an empty text sends nothing |
| Typing.ShouldDoErrorNow | src/main/utils/typing.ts:12-15 | `shouldDoError` takes one draw and answers whether it is below the error rate read now |
| Typing.DoError | src/main/utils/typing.ts:17-34 | `doError` sends exactly the burst of the specification, takes 1 + 3n draws and leaves the buffer as it was |
| Typing.TypeWrongLetters | src/main/utils/typing.ts:20-27 | the first loop sends the n wrong keys of the specification, takes 2n draws and adds n characters to the buffer |
| Typing.PressBackspaces | src/main/utils/typing.ts:29-33 | the second loop sends the n Backspaces of the specification, takes n draws and removes the last n characters |
| Typing.TypeChar | src/main/utils/typing.ts:37-43 | one loop iteration sends the step of the specification and appends its character to the buffer |
| Typing.TypeText | src/main/utils/typing.ts:36-45 | `typeText` sends exactly `TypeRun`'s inputs, uses its draws, and leaves the buffer followed by the text |
| Base64.ValueOfLetter | src-tauri/src/utils/grok.rs:14 | each six-bit value's letter decodes back to that value |
| Base64.Encode | src-tauri/src/utils/grok.rs:14 | padded standard base64 has 4 characters per started group of 3 bytes |
| Base64.DecodeEncode | src-tauri/src/utils/grok.rs:14 | decoding the encoding gives back every byte string |
| Base64.DataUrlCarriesImage | src-tauri/src/utils/grok.rs:34 | the data URL is the PNG prefix followed by text that decodes to the image |
| Chrome.FirstExisting | src-tauri/src/utils/chrome.rs:16 | `find(exists)` is None exactly when no candidate exists; otherwise it is the first existing candidate |
| Chrome.CheckChromeExists | src-tauri/src/utils/chrome.rs:45-47 | true exactly when one of the platform's candidates exists |
| Chrome.MacAndOtherLookup | src-tauri/src/utils/chrome.rs:19-42 | macOS gives the fixed app path exactly when it exists; other systems give None |
| Chrome.LinuxLookup | src-tauri/src/utils/chrome.rs:29-37 | Linux gives the first of the three paths that exists, in the listed order |
| Chrome.WindowsDefaultLookup | src-tauri/src/utils/chrome.rs:4-17 | Windows without the variables looks under `C:\Program Files` first, then `C:\Program Files (x86)` |
| Chrome.JsAndRustAgree | src/main/utils/commons.ts:7-44 | the Electron and Tauri lookups give the same answer unless a Program Files variable is set but empty |
| Chrome.EmptyProgramFilesDiffers | src/main/utils/commons.ts:12-14 | with `PROGRAMFILES` set to "" Electron falls back to the default root and Tauri does not |
| Paths.GetConfigDir | src-tauri/src/utils/config.rs:3-7 | the platform configuration directory joined with `TypeWinner`, or the "Config directory not found" error |
| Paths.GetDataDir | src-tauri/src/utils/config.rs:9-13 | the platform data directory joined with `TypeWinner`, or the "Data directory not found" error |
| Paths.GetApiKeyPath | src-tauri/src/utils/config.rs:15-20 | `grokKey` in the configuration directory; fails when that directory is unknown or cannot be created |
| Paths.GetTypeConfigPath | src-tauri/src/utils/config.rs:22-27 | `typeConfig.json` in the configuration directory, with the same failures |
| Paths.KeyAndConfigSideBySide | src-tauri/src/utils/config.rs:15-27 | the key file and the configuration file are found or missed together and differ only in the last component |
| Paths.DevelopmentUrl | src/main/utils/commons.ts:46-52 | in development with `PORT` set to a port number, the page is `http://localhost:<PORT>/<file>` |
| Paths.PortOfDigits | src/main/utils/commons.ts:48-49 | a port number other than 80 appears in the URL as `:` followed by its digits |
| Paths.DefaultDevelopmentUrl | src/main/utils/commons.ts:47-51 | with `PORT` unset or empty the page is `http://localhost:1212/<file>` |
| Grok.RequestCarriesImage | src-tauri/src/utils/grok.rs:21-44 | the request's image URL is the image's data URL, which decodes to the image |
| Grok.GetTextFromImg | src-tauri/src/utils/grok.rs:12-67 | a send failure or an undecodable body gives an error with its message; otherwise Ok of the extraction chain |
| Grok.InitGroq | src-tauri/src/utils/grok.rs:5-9 | `init_groq` always succeeds |
| Grok.ExtractFromCompletion | src-tauri/src/utils/grok.rs:54-64 | content that parses to an object with a string `text` yields that text, even "" |
| Grok.ExtractTextNone | src-tauri/src/utils/grok.rs:54-64 | every missing or mistyped link of the chain yields None |
| Grok.JsGetTextFromImg | src/backend/utils/grok.ts:17-47 | no client gives `null`; a settled call never yields `null` text |
| Grok.JsAgreesWithRust | src/backend/utils/grok.ts:46 | where the Rust chain finds a text, the JavaScript expression finds the same text |
| Grok.MissingContentIsEmpty | src/backend/utils/grok.ts:46 | missing content parses as `{}` and yields "" in JavaScript, where Rust yields None |
| Grok.MalformedContentRejects | src/backend/utils/grok.ts:46 | content that is not JSON rejects in JavaScript and yields None in Rust |
| Grok.ScriptClient | src/main/utils/puppeteer-node.cjs:34-37 | the Node script builds a client exactly when its key argument is non-empty |
| Grok.KeyStore.constructor | src/backend/utils/grok.ts:13-15 | after a load that did not throw, a client exists exactly when the key file does, built from its content |
| Grok.KeyStore.Load | src/backend/utils/grok.ts:13-15 | loading fails with the read's error exactly when the key file exists and reading it throws; otherwise the client agrees with the key file |
| Grok.KeyStore.InitGroq | src/backend/utils/grok.ts:9-11 | `initGroq` replaces the client and touches no file |
| Grok.KeyStore.GetApiKey | src/backend/main.ts:57-62 | null exactly when the key file is absent; otherwise its content, or a rejection with the error of a read that throws |
| Grok.KeyStore.SaveApiKey | src/backend/main.ts:53-56 | a written key is read back by `getApiKey` and the client is rebuilt with it; a failed write changes nothing |
| Settings.SpeedUpdateMeaning | src/main/main.ts:47-50 | the speed update keeps the error rate; the slider can be recovered from the delays; the delay gap equals the speed gap; ordered speeds in [0, 400] give exactly the ordered delays in [0, 400] |
| Settings.FasterIsShorter | src/main/main.ts:47-50 | a faster slider setting never gives longer delays |
| Settings.UpdatesCommute | src/main/main.ts:47-53 | the two handlers touch disjoint fields and commute; the last update of each kind wins |
| Settings.InitialSliderKeepsDelays | src/renderer/App.tsx:12 | the initial slider range 375..380 maps to the initial delays 20..25 |
| Settings.TypeSettings.constructor | src/main/utils/typing.ts:6-10 | the record starts as 20, 25, 0 |
| Settings.TypeSettings.UpdateTypeSpeed | src/main/main.ts:47-50 | minDelay becomes 400 - max, maxDelay becomes 400 - min, the error rate is kept |
| Settings.TypeSettings.UpdateErrRate | src/main/main.ts:51-53 | the error rate is set and both delays are kept |
| Settings.WrappingSub | src-tauri/src/commands.rs:329-330 | `u32` subtraction in a release build: the difference, plus 2^32 when it would be negative |
| Settings.SpeedUpdate32Agrees | src-tauri/src/commands.rs:329-330 | with speeds up to 400 the Tauri update equals the Electron one; above 400 the minimum delay wraps to 2^32 + 400 - max, far above any valid delay |
| Settings.WriteOutcome | src-tauri/src/commands.rs:333-340 | the write succeeds exactly when the path was found and the write did not fail; a path error is returned as is, a write error with its prefix |
| Settings.AfterWrite | src-tauri/src/commands.rs:333-340 | only a successful write changes the files, and only at that path |
| Settings.TauriState.constructor | src-tauri/src/main.rs:20-28 | the managed configuration starts as 20, 25, 0 |
| Settings.TauriState.UpdateTypeSpeed | src-tauri/src/commands.rs:323-343 | the cells take the wrapped speed update even when the write fails; the file then holds the rendered new configuration, or is unchanged on error |
| Settings.TauriState.UpdateErrRate | src-tauri/src/commands.rs:346-364 | the error rate is set, the delays are kept, and the configuration file is written as above |
| Settings.TauriState.WriteConfig | src-tauri/src/commands.rs:333-340 | writes the current three values as JSON to the configuration path and reports the outcome; the cells are unchanged |
| Settings.TauriState.GetApiKey | src-tauri/src/commands.rs:45-55 | a path error propagates; Ok(None) exactly when the key file is absent; otherwise the content, or the "Failed to read API key: " error |
| Settings.TauriState.SaveApiKey | src-tauri/src/commands.rs:37-43 | writes the key to its path, leaves the configuration alone, and after success `get_api_key` returns that key |
| Settings.ReadConfig | src/main/utils/puppeteer-node.cjs:12-30 | an unreadable file, bad JSON or `null` give exactly 20, 25, 0; otherwise the three fields as read, undefined when absent |
| Settings.ConfigOfRead | src/main/utils/puppeteer-node.cjs:12-30 | the typing code gets a numeric configuration exactly when all three fields were read as numbers, and it reads back as those fields |
| Settings.ReadsWhatTauriWrote | src/main/utils/puppeteer-node.cjs:12-30 | the Node script reads back the configuration the Tauri side wrote, and the typing code gets exactly that configuration |
| Settings.ReadConfigMissingFields | src/main/utils/puppeteer-node.cjs:12-30 | a non-object or a missing field reads as undefined, not as the default, and then the typing code gets no numeric configuration |
| Launch.Parent | src-tauri/src/commands.rs:113 | `Path::parent` drops the last component, and is None for the empty path or a root alone |
| Launch.ResourceCandidatesWith | src-tauri/src/commands.rs:116-141 | the resource candidates in order: next to the executable, under `resources`, then the platform-specific ones |
| Launch.ThreeUpLeavesBundle | src-tauri/src/commands.rs:127-134 | as written, for an executable in `<bundle>/Contents/MacOS` the macOS `Resources` directory lies outside the bundle |
| Launch.ThreeUpExample | src-tauri/src/commands.rs:127-134 | for `/Applications/TypeWinner.app` the code looks in `/Applications/Resources`; the corrected lookup uses the bundle's `Contents/Resources` |
| Launch.BundleResourcesInsideBundle | src-tauri/src/commands.rs:121-134 | the corrected lookup finds `<bundle>/Contents/Resources` |
| Launch.CorrectionOnlyMovesBundleCandidates | src-tauri/src/commands.rs:116-141 | the correction changes nothing off macOS and keeps the first two candidates everywhere |
| Launch.FindScript | src-tauri/src/commands.rs:107-183 | for the macOS directory as written or corrected: a found script exists; a resource candidate is preferred; the dev candidates are tried only when none exists; otherwise the not-found error names both directories |
| Launch.FindScriptFailsOnlyWhenNothingExists | src-tauri/src/commands.rs:147-181 | the search fails exactly when no candidate of either list exists, and a result is one of the candidates |
| Launch.FindScriptInstalledExample | src-tauri/src/commands.rs:107-183 | for `/Applications/TypeWinner.app` with only `/Applications/Resources/puppeteer-node.cjs` present, the search as written finds it and the corrected search fails |
| Launch.FindScriptInBundleExample | src-tauri/src/commands.rs:107-183 | with only the bundle's `Contents/Resources/puppeteer-node.cjs` present, the corrected search finds it and the search as written fails |
| Launch.Prepare | src-tauri/src/commands.rs:89-183 | for either macOS directory, the failures in the code's order: "Chrome not found", the data directory, the key path, the script search; on success the key is read exactly when its file exists and can be read |
| Launch.KeyArgument | src-tauri/src/commands.rs:250 | a missing key is passed as "" |
| Launch.KeyReachesScript | src-tauri/src/commands.rs:245-250 | without a readable key the Node script builds no client; a non-empty key reaches the script's client |
| Launch.OpenBrowser | src-tauri/src/commands.rs:85-250 | for either macOS directory, the configuration cells are unchanged; a preparation error changes no file; otherwise the configuration file is written, a write error is returned, and success gives the Node arguments |
| Session.ChallengeUrlMeaning | src/main/utils/puppeteer.ts:47-51 | the response filter lets through exactly the URLs made of the challenge prefix followed by anything |
| Session.Includes | src/main/utils/puppeteer.ts:57-60 | `includes` is true exactly when the substring occurs at some position |
| Session.MatchesZero | src/main/utils/puppeteer.ts:53-70 | a batch has no race start exactly when none of its records is one |
| Session.MatchesAppend | src/main/utils/puppeteer.ts:53-70 | records are counted one by one, with no de-duplication |
| Session.RaceListenerTs | src/main/utils/puppeteer.ts:53-70 | with a passage, `gameStarted` is called once per matching record with its text; without one, nothing is called and the callback throws exactly when a record matches |
| Session.RaceListenerNode | src/main/utils/puppeteer-node.cjs:178-197 | `gameStarted` is called once per matching record, only with a non-empty passage |
| Session.ItemChars | src/main/utils/typing.ts:36-44 | an array whose items are all one-character strings spells those characters in order; any other array spells nothing |
| Session.ChallengeText | src/main/utils/puppeteer.ts:90-96 | a string answer is typed exactly when it is non-empty; an array of one-character strings is typed as the string it spells, `[]` as nothing before the submit; only a resolved string or array is ever typed |
| Session.NoClicks | src/main/utils/typing.ts:36-45 | `typeText` sends keystrokes only, never a click |
| Session.SubmitComesLast | src/main/utils/puppeteer.ts:90-96 | the submit click is the last input and the only click, and the buffer ends as the text typed |
| Session.FocusComesFirst | src/main/utils/puppeteer.ts:78-85 | the click on the input is the first input and the only click, and the buffer ends as the text typed |
| Session.Session.constructor | src/main/utils/puppeteer.ts:24 | a session starts with no effects and its primary page open |
| Session.Session.OnDisconnected | src/main/utils/puppeteer.ts:25-27 | the Electron copies send `enableBrowser`; the Node script exits with 0 |
| Session.Session.OnTargetCreated | src/main/utils/puppeteer.ts:28-35 | a new page other than the primary one is closed, and the primary page never is |
| Session.Session.OnPageClosed | src/main/utils/puppeteer.ts:36-38 | the Electron main copy closes the browser; the Node script also exits with 0; the older copy does nothing |
| Session.Session.OnRequest | src/main/utils/puppeteer.ts:44-46 | every request is continued |
| Session.Session.OnFrameNavigated | src/main/utils/puppeteer.ts:72-76 | the race listener is reinstalled only after a main-frame navigation |
| Session.Session.SolveChallenge | src/main/utils/puppeteer.ts:90-96 | without text nothing is sent; with text the log gains exactly the typing run followed by the submit click |
| Session.Session.OnResponse | src/main/utils/puppeteer.ts:47-51 | only a challenge URL leads to solving, with the text the recognition gave |
| Session.Session.GameStarted | src/main/utils/puppeteer.ts:78-85 | typing starts only after the input was found, clicked and focused; the log is the click followed by the typing run |

## Findings

| source | as written | input that shows it | evidently intended | confidence | as-written member | corrected member |
|---|---|---|---|---|---|---|
| src-tauri/src/commands.rs:127-134 | on macOS the resources directory is `exe_dir.parent().parent().parent()` joined with `Resources` | executable in `/Applications/TypeWinner.app/Contents/MacOS`: the code looks in `/Applications/Resources`, outside the bundle | the bundle's own `Contents/Resources` (the sibling of `Contents/MacOS`), as the comment at line 121 says | high, not executed | Launch.ThreeUpLeavesBundle | Launch.BundleResourcesInsideBundle |

`Launch.ResourceCandidatesAsWritten` lists the candidates the code builds, and
`Launch.ThreeUpExample` shows the concrete case. `Launch.ResourceCandidates`
uses the corrected directory. `Launch.FindScript`, `Launch.Prepare` and
`Launch.OpenBrowser` take the macOS directory as a parameter: `ThreeUp` is
`open_browser` as written, `InBundle` the corrected search.
`Launch.FindScriptInstalledExample` and `Launch.FindScriptInBundleExample` show
the two searches giving opposite answers for the installed app. Off macOS both
lists are the same (`Launch.CorrectionOnlyMovesBundleCandidates`).

## Left out

- Floating point: draws are exact reals in [0, 1). `Math.ceil`, `Math.floor` and the product in `getRandomInt` are exact, with no rounding error.
- The typing model's rounding is any function that keeps draws in [min, max] (`Random.InRange`), of which `getRandomInt`'s own rounding is one (`Random.RandomIntInRange`). The lemma about error rate 100 uses the real formula.
- Keystroke delivery and wall-clock waiting: only the delay values are modelled.
- Puppeteer and Chrome are not modelled, beyond the logged inputs, closed pages, messages and exits: launch, `goto`, request interception, `evaluate`, `exposeFunction`, `waitForSelector` and `waitForFunction`.
- `waitForSelector` and `waitForFunction` are booleans saying whether the element was found and focused.
- The launch options (`chromeUserData` directory, flags) are not modelled.
- HTTP, the Groq SDK, `JSON.parse`, `serde_json` text handling and `to_string_pretty` are oracles.
- `Settings.ReadsWhatTauriWrote` assumes that parsing the rendered text gives the written object back.
- Typing with a configuration that is not three numbers is not modelled (`Settings.ConfigOfRead` gives none). In the Node script an undefined `minDelay` or `maxDelay` makes every delay `NaN` (src/main/utils/puppeteer-node.cjs:39-43), and an undefined `errorRate` makes `randomInt < undefined` false, so no error burst ever happens (lines 50-53).
- The Debug formatting of paths in the script-not-found message is not modelled: the error carries the two directories as values. Path normalisation (`..` components) and lossy string conversion are not modelled either.
- URL parsing in `resolveHtmlPath` is modelled only for a plain port number and a relative file name. The production `file://` branch is a parameter.
- Session.ChallengeText: an array answer holding anything other than one-character strings (longer strings, numbers, objects) is typed element by element in the source, each element through `keyboard.type`; the model sends nothing for it. A truthy object, number or `true` is not iterable, so the source throws before any key and before the submit, as the model has it.
- The process spawn, the Node lookup and the child-monitor task of `open_browser` (src-tauri/src/commands.rs:207-317) are not modelled, because they are OS processes. The same goes for `quit`, `open_external` and the `browser-opening` event.
- The Node script's `fs.watchFile` polling (src/main/utils/puppeteer-node.cjs:46-48) is not modelled. A configuration change reaches the typing only through the timeline.
- The Electron start-up `mkdir` (src/main/main.ts:10-12) is not modelled. The key file is a map entry that is present or absent.
- Concurrency is not modelled: overlapping typing runs (a challenge while a race is typing), and handlers interleaving at `await`. Each run is modelled sequentially.
- The Tauri commands lock their mutexes in opposite orders. `update_type_speed` holds min and max and then takes the error rate. `update_err_rate` holds the error rate and then takes min. Two concurrent calls can deadlock; this is not modelled.
- The race listener runs once per batch. Nothing stops two traffic-light records from starting two overlapping typing runs; `Session.MatchesAppend` counts every record.
- In `src/backend/utils/puppeteer.ts` the `targetcreated` handler (lines 27-34) reads `page` before its `const` declaration at line 36. A page created before that line would throw. `Session.Session.OnTargetCreated` models the handler once `page` is defined.
- A failed file write leaves the file unchanged (`Settings.AfterWrite`). A partial write is not modelled.
- Settings.TauriState.UpdateTypeSpeed: models the release-build wrap-around of `u32` subtraction, not the debug-build panic for a speed above 400.
- The window UI, IPC, preload scripts, slider clamping and the Tauri builder in src-tauri/src/main.rs are not modelled; only its default configuration is used.
