# A verified model of the wsobs.js relay core

`wsobs.js` is a small relay. Browsers send it HTTP commands and hold socket.io connections to
it. It forwards the commands to OBS Studio's obs-websocket control endpoint and pushes the
state it caches back to the browsers. This project models three parts of it in Dafny and
proves their properties:

- **`extractVideoId`** (module `VideoId`) turns a YouTube watch link, a live-chat pop-out link,
  a `youtu.be` short link or a bare token into a video identifier, or into `''`.
  - Each of the three regular expressions is a predicate that says where it matches.
  - A scan finds the leftmost match, which is what `String.prototype.match` reports.
  - The greedy quantifiers work as in JavaScript. `[^&]+` and `[^?]+` take the longest
    non-empty run. The `.*` of `live_chat\?.*v=` stops at a line terminator and backs off to
    the *last* `v=`.
  - `trim` removes the ECMAScript WhiteSpace and LineTerminator characters.
  - Module `VideoIdExamples` works through one input per rule, plus the fallback and inputs
    that yield nothing.
- **The audio-source cache** holds `{name, muted, volume}` records, kept in the order the
  endpoint lists them.
  - Module `AudioCache` specifies:
    - the lookup `find` performs (the first record with the name);
    - the field assignments on the record it returns;
    - the toggle-all rule: the target state, the list after the loop, and the commands and
      broadcasts in order.
  - The handlers in `Relay.Server` are proved against these functions.
  - The two toggle-all loops are `while` loops with invariants: `ScanAllMuted`, which stops at
    the first unmuted source, and `MuteEach`.
- **The handlers and the initial sync** (module `Relay`) model the relay's state.
  - The module-level state (`obsConnected`, `currentScene`, `scenes`, `audioSources`) is the
    fields of one `Server` object.
  - Every `obs.send` and every `io.emit` is appended, in order, to its `log` field.
  - What the endpoint answers is a parameter chosen by the caller: whether a command is
    accepted, the reply to a query, or which `SetMute` of a toggle-all is rejected.
  - `Precheck` is the order of a handler's checks: a missing field gives 400, then a lost
    connection gives 503.
  - `InitialSync` is the message sequence a newly connected browser receives.

Two behaviours a reader might expect from the names of the routes and functions do not hold for
the code, and the model follows the code:

- One might expect any link ending in an identifier, such as `https://y/AbC123`, to yield it.
  The code yields `''`. The short-link rule needs the literal
  `youtu.be/`, and the fallback refuses anything containing `/`
  (`VideoIdExamples.OtherHostHasNoId`).
- One might expect toggling all audio twice to flip the reported `mutedState` each time. It
  does not always. With no cached
  source the target is `false` both times (`AudioCache.ToggleAllTwice`).

## Model

| member | source | states |
|---|---|---|
| VideoId.IsWhitespace | wsobs.js:44 | definition: the characters `trim` removes, the ECMAScript WhiteSpace and LineTerminator sets |
| VideoId.WatchAt | wsobs.js:46 | definition: `[?&]v=` starts at the position and at least one non-`&` character follows it |
| VideoId.VeeAt | wsobs.js:49 | definition: the tail `v=` of the live-chat pattern starts at the position and at least one non-`&` character follows it |
| VideoId.LiveChatVia | wsobs.js:49 | definition: `live_chat?` starts at the position, and a `v=` tail follows after a stretch with no line terminator |
| VideoId.ShortAt | wsobs.js:52 | definition: `youtu.be/` starts at the position and at least one non-`?` character follows it |
| VideoId.LooksLikeId | wsobs.js:55 | definition: the fallback test, no space, no `/` and more than five characters |
| VideoId.LineTerminators | wsobs.js:49 | definition: the four characters the regular-expression `.` does not match, line feed, carriage return, U+2028 and U+2029 |
| VideoId.LeadingWs | wsobs.js:44 | the count of leading characters `trim` removes: all of them are whitespace and the next one is not |
| VideoId.TrailingWs | wsobs.js:44 | the same for the trailing characters |
| VideoId.Trim | wsobs.js:44 | the result neither starts nor ends with whitespace, and it is the input with only whitespace removed before and after it |
| VideoId.TrimIdempotent | wsobs.js:44 | trimming a trimmed string changes nothing |
| VideoId.RunEnd | wsobs.js:46-53 | a greedy run of non-stop characters ends at the first stop character or at the end of the input |
| VideoId.LastVee | wsobs.js:49 | the largest position in a range where `v=` followed by a non-`&` character occurs, or none |
| VideoId.LiveChatVee | wsobs.js:49 | where the live-chat pattern tried at one position places its `v=`: the last position that leaves no line terminator inside `.*`, or none |
| VideoId.Leftmost | wsobs.js:46-53 | the leftmost position at which a pattern matches, or no position at all |
| VideoId.Capture | wsobs.js:46-53 | a captured group holds no stop character and is non-empty when the first character after the prefix is not a stop |
| VideoId.Classify | wsobs.js:46-59 | the first-match-wins cascade: a rule decides only if every earlier rule matches nowhere; it decides at its leftmost match, and its capture is the greedy run after the prefix; otherwise the fallback test decides |
| VideoId.ExtractVideoId | wsobs.js:41-60 | `''` for an empty input; otherwise `''` exactly when no rule and not the fallback decides on the trimmed input; watch and live-chat results hold no `&`; a short-link result holds no `?`; a fallback result is the trimmed input |
| VideoId.ExtractIgnoresSurroundingWhitespace | wsobs.js:41-57 | every rule, including the length test, sees the trimmed input: trimming first gives the same result |
| VideoIdExamples.WatchDecides | wsobs.js:46-47 | a trimmed input whose first watch match is at a given position yields the `&`-free run after `v=` there |
| VideoIdExamples.LiveChatDecides | wsobs.js:49-50 | an input with no watch match whose first live-chat match and last `v=` are given yields the `&`-free run after that `v=` |
| VideoIdExamples.ShortDecides | wsobs.js:52-53 | an input with no watch or live-chat match and a first short-link match yields the `?`-free run after `youtu.be/` |
| VideoIdExamples.BareDecides | wsobs.js:55-57 | with no rule matching and the fallback test passing, the result is the trimmed input |
| VideoIdExamples.NothingDecides | wsobs.js:55-59 | with no rule matching and the fallback test failing, the result is `''` |
| VideoIdExamples.WatchLink | wsobs.js:46-47 | `https://x/watch?v=AbC123` yields `AbC123` |
| VideoIdExamples.LiveChatTakesLastVee | wsobs.js:49-50 | `live_chat? v=AA v=BB` yields `BB`: the greedy `.*` reaches the last `v=` |
| VideoIdExamples.ShortLink | wsobs.js:52-53 | `https://youtu.be/AbC123?t=5` yields `AbC123` |
| VideoIdExamples.BareIdTrimmed | wsobs.js:44-57 | a bare token with surrounding spaces yields the token without them |
| VideoIdExamples.OtherHostHasNoId | wsobs.js:52-59 | `https://y/AbC123` yields `''` |
| VideoIdExamples.TextHasNoId | wsobs.js:55-59 | `hello world` yields `''` |
| Messages.Round | wsobs.js:156 | `Math.round` gives the integer nearest its argument, a half rounded up |
| Messages.ToPercent | wsobs.js:156 | the cached percentage is the rounded hundredfold of the reported fraction, within 0..100 for a fraction within 0..1 |
| Messages.ToLevel | wsobs.js:936 | definition: `volume / 100`, the fraction broadcast for a cached percentage (also line 1013) |
| Messages.PercentRoundTrip | wsobs.js:1010-1013 | broadcasting a cached percentage as a fraction and converting it back gives the same percentage |
| AudioCache.Patch | wsobs.js:862-863 | definition: the record with the given fields replaced and the others kept |
| AudioCache.FindByName | wsobs.js:860 | `find` by name gives the first record with that name, or nothing when no record has it |
| AudioCache.UpdateByName | wsobs.js:860-864 | assigning fields of the found record changes only the first record with the name, only in the given fields, keeps every name and the length, and changes nothing when no record has the name |
| AudioCache.UpdateThenFind | wsobs.js:1007-1009 | after an update by name, a lookup of that name finds the same record, now carrying the given fields |
| AudioCache.AllMuted | wsobs.js:918-925 | definition: every cached source is muted, vacuously so with none |
| AudioCache.ToggleAllTarget | wsobs.js:918-927 | the target is to mute exactly when some cached source is unmuted; with no source it is `false` |
| AudioCache.MutedUpTo | wsobs.js:929-939 | after the loop has handled its first `k` sources, those carry the target flag with name and volume kept, and the rest are untouched |
| AudioCache.SourceEffects | wsobs.js:930-937 | definition: for a source whose flag differs from the target, a `SetMute` and then an `AudioUpdated` broadcast with its volume as a fraction; otherwise nothing |
| AudioCache.MuteEffects | wsobs.js:929-939 | definition: the effects of the first `k` sources, one after another in list order |
| AudioCache.DifferingAt | wsobs.js:930 | the positions among the first `k` whose flag differs from the target, strictly increasing, and a position is among them exactly when its flag differs |
| AudioCache.Differing | wsobs.js:930 | definition: the differing sources in list order; its contract bounds its length by `k` |
| AudioCache.DifferingInOrder | wsobs.js:929-939 | the `m`-th differing source is the source at the `m`-th differing position, so every differing source appears once, in list order, and nothing else does |
| AudioCache.PairedAppend | wsobs.js:930-937 | one more differing source adds its command and then its broadcast to the pairing |
| AudioCache.MuteEffectsPairs | wsobs.js:929-939 | the loop issues, for each differing source in list order, one `SetMute` and then one `AudioUpdated` broadcast carrying its volume as a fraction, and nothing else |
| AudioCache.MuteEffectsNoneIff | wsobs.js:929-939 | the loop issues nothing exactly when every source already has the target flag |
| AudioCache.ToggleAllTwice | wsobs.js:918-939 | after a complete toggle-all, the next target is the opposite one, unless there is no source, when it stays `false` |
| AudioCache.ToggleAllSettles | wsobs.js:929-939 | running the loop again with the same target after it completed issues nothing |
| AudioCache.StopIndex | wsobs.js:929-943 | the loop stops early exactly when a source with a differing flag has its `SetMute` rejected, and then at that source |
| Relay.MissingField | wsobs.js:882 | definition: a field the route requires is absent, `!sceneName` or `!sourceName`, or for set-volume also `volume === undefined` (lines 825, 848, 882); toggle-all has none |
| Relay.Precheck | wsobs.js:882-888 | the check order every handler shares (also lines 825-831, 848-854, 914-916): 400 exactly when a required field is missing, whatever the connection; 503 exactly when nothing is missing and the endpoint is not connected; toggle-all never answers 400 |
| Relay.SyncRank | wsobs.js:1031-1039 | definition: the status ranks first, the scene list second, the audio list third |
| Relay.InitialSync | wsobs.js:1030-1049 | the status comes first; the scene list is included exactly when connected and there are scenes; the audio list is included exactly when connected and there are sources; nothing else, and in that order |
| Relay.ScenesOf | wsobs.js:131-135 | one scene per listed entry, with its name and index, marked active exactly when it is the current scene |
| Relay.Reported | wsobs.js:153-157 | definition: the record cached for an answered query, with the reported flag and the percentage of the reported fraction |
| Relay.AnsweredAt | wsobs.js:150-161 | the listed positions whose `GetVolume` answered, strictly increasing |
| Relay.AnsweredAtExactly | wsobs.js:150-161 | a listed position is among the answered ones exactly when its query answered |
| Relay.Collected | wsobs.js:146-162 | definition: the records of the answered sources among the first `n`, in listed order; its contract bounds its length by `n` |
| Relay.AlignedAppend | wsobs.js:153-157 | one more answered source extends the alignment by its reported record |
| Relay.CollectedInOrder | wsobs.js:146-162 | the `m`-th cached record is the one reported for the `m`-th answered position, with its name, flag and percentage, so a source is dropped exactly when its query failed and the listed order is kept |
| Relay.CollectedAll | wsobs.js:146-162 | when every listed query answers, the cache holds every listed source, position by position, with its reported flag and percentage |
| Relay.VolumeQueries | wsobs.js:149-151 | one `GetVolume` per listed source, in the listed order |
| Relay.MuteEach | wsobs.js:929-939 | the second toggle-all loop leaves the list as `MutedUpTo` up to the stop index, issues the effects of `MuteEffects`, plus the rejected `SetMute` when it was aborted, and reports whether it was aborted |
| Relay.Server.constructor | wsobs.js:34-37 | start-up state: disconnected, no current scene, no scenes, no sources, nothing logged |
| Relay.Server.SyncClient | wsobs.js:1030-1049 | the messages a connecting browser receives, and those it receives again on `getInitialData`, are `InitialSync` of the current state |
| Relay.Server.SwitchScene | wsobs.js:821-842 | a failed precheck answers its status and changes nothing; otherwise `SetCurrentScene` is sent, and only if accepted is the scene cached and broadcast and 200 answered, else 500 |
| Relay.Server.ToggleAudio | wsobs.js:844-876 | a failed precheck changes nothing; otherwise `ToggleMute`, then `GetVolume`; a failure of either answers 500 with the cache unchanged; on success the cache is updated by name with the reported flag and percentage, the reported flag and fraction are broadcast even for an uncached name, and the flag is answered |
| Relay.Server.SetSourceVolume | wsobs.js:878-910 | a failed precheck changes nothing; otherwise `SetVolume` is sent; on acceptance only the cached volume of the first matching record changes, and the broadcast carries its mute flag, or `false` for an uncached name |
| Relay.Server.ScanAllMuted | wsobs.js:918-925 | the first toggle-all loop reports whether every cached source is muted |
| Relay.Server.ToggleAllAudio | wsobs.js:912-945 | 503 with nothing changed when disconnected; otherwise the target is `ToggleAllTarget`, the list and log are those of `MuteEach`, 500 when a `SetMute` is rejected, and on success every flag equals the target with names, volumes and length kept |
| Relay.Server.OnMuteStateChanged | wsobs.js:1006-1016 | the first record with the name takes the new flag, its volume kept, and is broadcast with its volume as a fraction; an unknown name changes and broadcasts nothing |
| Relay.Server.OnVolumeChanged | wsobs.js:1018-1028 | the first record with the name takes the new percentage, its flag kept, and the reported fraction is broadcast; an unknown name changes and broadcasts nothing |
| Relay.Server.OnSwitchScenes | wsobs.js:1001-1004 | the switched-to scene is cached and broadcast |
| Relay.Server.OnConnectionOpened | wsobs.js:978-987 | connected; the status is broadcast, then the cached scenes if there are any |
| Relay.Server.OnConnectionClosed | wsobs.js:989-992 | disconnected and broadcast; the cached scenes and sources are kept |
| Relay.Server.LoadScenes | wsobs.js:129-143 | `GetSceneList` is sent; on a reply the scene cache and current scene are rebuilt and the scenes, the status and the current scene are broadcast in that order; on failure nothing else changes |
| Relay.Server.LoadAudioSources | wsobs.js:145-165 | `GetSourcesList` is sent; on a reply one `GetVolume` per listed source, the cache rebuilt as `Collected`, then one broadcast of it; on failure the old cache stays |

## Left out

- HTTP routing, response bodies and static serving: only the status code a handler answers is modelled.
- The socket.io transport: a broadcast is an entry appended to `log`, and a message to one browser is a returned value.
- The obs-websocket client: every `obs.send` is a logged command, and its outcome is a parameter chosen by the caller, so nothing about the endpoint's own behaviour is assumed.
- `autoConnectOBS` as a whole: its guard flag, the environment lookup, the `connect` call and the 3- and 5-second reconnect timers are timer- and I/O-driven. Its two cache refreshes are modelled as `LoadScenes` and `LoadAudioSources`, run in sequence after a successful connect.
- Relay.Server.LoadAudioSources: a `GetSourcesList` reply without an iterable `sources` is not modelled. The code empties the cache at line 147, the loop at line 149 then throws, and the catch at line 165 leaves the cache empty with nothing broadcast. The model's `names` is either a list or `None`, and `None` keeps the old cache.
- The readline prompt, command-line and environment handling, console output, the SIGINT handler, the HTML page and the `/chat`, `GET /api/scenes` and `GET /api/status` routes: these are I/O and presentation, not logic.
- Interleaving of concurrent requests and notifications across the handlers' `await`s: each method runs to completion.
- Floating point: volumes reported by the endpoint are exact `real`s, so rounding noise of `volume * 100` and `volume / 100` is not modelled.
- VideoId.LooksLikeId: counts characters, whereas JavaScript's `length` counts UTF-16 code units, so a token with characters outside the Basic Multilingual Plane can pass the `length > 5` test in JavaScript with fewer characters.
- Request bodies: an absent or falsy string field is `""`, and an absent volume is `None`. Non-string values, `volume: null` and string volumes passed through `parseFloat` are not modelled.
- Relay.Server.ToggleAllAudio: the returned `mutedState` is the target even when the handler answers 500, where the response body does not carry it.
