# Flite text-to-speech application, modelled in Dafny

This project models the decision logic of `app_flite.c`, the Asterisk
plugin behind the `Flite(text[,intkeys])` dialplan application. A request
takes some text and looks it up in an optional cache keyed by the MD5 of the
text. On a miss, the text is synthesized with a Flite voice, resampled to
the configured rate if needed, and saved to a temporary raw file. The file
may be copied into the cache. It is then played to the channel and deleted.

The model has five modules:

- `CStrings` (`cstrings.dfy`): the C string primitives the plugin relies on.
  These are `snprintf` truncation, the `%li` rendering of a non-negative
  number, and `strcasecmp`.
- `FliteConfig` (`config.dfy`): `read_config`. The module globals are a
  class, `Settings`, whose `ReadConfig` method assigns them step by step as
  the C code does. `ReadConfig` is proved equal to a reference function,
  `Resolve`.
- `FliteVoices` (`voices.dfy`): the two if-chains of `flite_exec`. One picks
  the voice to register, the other the voice to unregister. Both are
  functions into `Kal | Kal16 | Awb | Rms | Slt`.
- `FliteNames` (`names.dfy`): the temp name, raw temp name and cache path,
  each built with `snprintf` into its 20-, 26- or 2048-byte buffer.
- `FliteApp` (`exec.dfy`): `flite_exec` itself.
  - `FliteExec` is a method with the same branches and early returns as the
    C function. Every host or library call is an outcome in a `Host` value,
    and every effect on the channel, on Flite or on files is appended to an
    effect log.
  - The method is proved equal to a reference function, `Handle`. The
    properties of a request are proved as lemmas about `Handle`.

`FliteExec` takes the module globals as one `Config` value, read once for
the whole request; this assumes no reload runs during the request (see
"## Left out"). That value is what `Settings.Current()` returns
after `ReadConfig`. `Admissible` collects what a request may rely on:
- the rate is 8000 or 16000, as `ReadConfig` guarantees;
- the MD5 is 32 lower-case hex characters;
- the random value is non-negative.

The temp file is deleted even after it has been copied into the cache
(`app_flite.c:233-249`).

## Model

| member | source | states |
|---|---|---|
| CStrings.Snprintf | app_flite.c:162 | snprintf stores fewer characters than the buffer size: all of the formatted text when it fits, and exactly its first size - 1 characters when it does not |
| CStrings.DecimalDigits | app_flite.c:184 | `%li` of a non-negative value is a non-empty run of digits, with a leading zero only for zero |
| CStrings.DecimalLength | app_flite.c:184 | a value below 10^k prints in at most k digits, so `% 99999999` leaves at most 8 |
| CStrings.ParseDecimalDigits | app_flite.c:184 | reading the printed digits back gives the value printed |
| CStrings.DecimalDigitsInjective | app_flite.c:184 | distinct values print differently |
| CStrings.StrCaseEqual | app_flite.c:145 | strcasecmp returns 0 exactly when the two strings agree after ASCII tolower |
| FliteConfig.Resolve | app_flite.c:84-118 | the resolved rate is always 8000 or 16000; a missing or invalid file gives the defaults; a supported samplerate is kept; an absent or unsupported one (such as atoi's 0) falls back to 8000 |
| FliteConfig.Settings.ReadConfig | app_flite.c:84-118 | after the step-by-step assignments and the clamp, the globals hold exactly Resolve(load), and the rate invariant holds whatever they held before |
| FliteConfig.EmptySectionIsDefault | app_flite.c:88-91 | a file with no [general] keys leaves rate 8000, cache off, cachedir /tmp and voice kal |
| FliteConfig.UsecacheOverridesOnlyItself | app_flite.c:99-100 | a usecache key changes usecache and no other setting |
| FliteConfig.CachedirOverridesOnlyItself | app_flite.c:102-103 | a cachedir key changes cachedir and no other setting |
| FliteConfig.VoiceOverridesOnlyItself | app_flite.c:105-106 | a voice key changes the voice name and no other setting |
| FliteConfig.SamplerateOverridesOnlyItself | app_flite.c:108-116 | a samplerate key sets the rate when it is supported, and 8000 otherwise, and changes nothing else |
| FliteVoices.RegisteredVoice | app_flite.c:192-206 | the register chain gives Kal16 exactly for kal at 16000, Awb, Rms and Slt exactly for their own names, and Kal for everything else |
| FliteVoices.FallsBackToDefault | app_flite.c:202-206 | the "Unsupported voice" branch is taken exactly when the chain gives Kal other than by its first branch, kal at 8000 |
| FliteVoices.UnregisteredVoice | app_flite.c:217-226 | the unregister chain releases Awb, Rms and Slt exactly for their own names, Kal16 exactly for kal at 16000, and Kal for everything else |
| FliteVoices.FallbackExactlyForUnknownNames | app_flite.c:202-206 | at a supported rate, the "Unsupported voice" branch is taken exactly for names other than kal, awb, rms and slt |
| FliteVoices.UnregisterMatchesRegister | app_flite.c:217-226 | the unregister chain releases the voice the register chain chose, for every name and every rate |
| FliteNames.TmpName | app_flite.c:184 | the temp name is "/tmp/flite_" followed by the digits of random % 99999999, and fits the 20-byte buffer with nothing cut off |
| FliteNames.TmpNameEncodesRandom | app_flite.c:184 | the digits after the prefix read back as random % 99999999 |
| FliteNames.TmpNameCollision | app_flite.c:184 | two random values give the same temp name exactly when they agree modulo 99999999 |
| FliteNames.RawTmpName | app_flite.c:185-188 | the raw name is assigned exactly at the two supported rates: temp name + ".sln" at 8000, + ".sln16" at 16000; it fits the 26-byte buffer |
| FliteNames.CachePath | app_flite.c:160-162 | the cache path is built exactly when len(cachedir) + 32 + 6 <= 2048, is cachedir + "/" + md5, and fits the 2048-byte buffer |
| FliteNames.CachePathSeparatesDigests | app_flite.c:159-162 | within one directory, two hashes give the same cache path exactly when they are equal |
| FliteApp.InterruptKeys | app_flite.c:145-146 | an interrupt argument equal to "any" in any letter case becomes every key; any other argument, or none, is kept |
| FliteApp.Run | app_flite.c:137-250 | the reference definition of a request with its file names given: the cache is marked for filling only for a request with text when the cache is active and the file is missing, and cachefile is set only for a request with text, to the cache path |
| FliteApp.Handle | app_flite.c:137-250 | a request with the file names it builds; cachefile is either empty or cachedir + "/" + md5, and fits the 2048-byte buffer |
| FliteApp.SettingsAdmitRequests | app_flite.c:112-116 | the rate invariant read_config leaves behind makes every request admissible, so the raw temp name at lines 185-188 is always assigned |
| FliteApp.FliteExecWithSettings | app_flite.c:120-251 | flite_exec reading the globals that read_config set behaves as Handle on those settings, needing of the configuration only the invariant ReadConfig establishes |
| FliteApp.FliteExec | app_flite.c:120-251 | the result, writecache, cachefile and effect log of the imperative handler equal those of the reference Handle on every input |
| FliteApp.LookupCount | app_flite.c:166-178 | a cache hit answers a channel that is not up, streams the cache file once, and waits and stops only when streaming started |
| FliteApp.SynthesizedCount | app_flite.c:191-226 | synthesis adds one voice registration, one synthesis, one save and one release, and a resample only when the wave's rate differs |
| FliteApp.PlayedBackCount | app_flite.c:233-249 | playback adds a cache copy only when writecache is set, an answer only when the channel is not up, one stream of the temp file and one delete |
| FliteApp.PlayedBackEnds | app_flite.c:241-249 | playback streams the temp file and ends with its deletion |
| FliteApp.RunCount | app_flite.c:137-250 | how many effects of each kind a request has, as the sum of what its cache lookup, synthesis and playback add on the path it takes |
| FliteApp.RunMember | app_flite.c:162-249 | every synthesis in a request uses its text and the registered voice; every release uses the unregister chain's voice; every save uses the raw temp name; every copy goes from the temp name to the cache path; every stream plays the cache file or the temp file |
| FliteApp.EmptyDataFails | app_flite.c:137-140 | an empty argument returns -1 with no effect |
| FliteApp.EmptyTextDoesNothing | app_flite.c:148-152 | text that is empty after quote stripping returns 0 with no effect: nothing synthesized or played |
| FliteApp.CacheDecision | app_flite.c:158-166 | cachefile is set exactly when the request has text, the cache is on and the guard passes, and is then cachedir + "/" + md5; writecache is set exactly when, in addition, the cache file does not exist |
| FliteApp.CacheHitServes | app_flite.c:166-178 | a cache hit that streams returns the wait result, answers only a channel that is not up, plays only the cache file, and neither synthesizes nor marks the cache |
| FliteApp.CacheStreamFailureFallsThrough | app_flite.c:170-173 | a cache hit whose stream fails goes on to synthesis, with writecache still unset |
| FliteApp.SynthesisOnlyWhenNeeded | app_flite.c:208 | Flite synthesizes exactly once when the request has text and was not served from the cache, never otherwise, always the request's text with the registered voice |
| FliteApp.VoiceReleasedIsVoiceRegistered | app_flite.c:191-226 | a voice is registered and released exactly once per synthesis, and the voice released is the voice registered |
| FliteApp.SavedUnderRawTmpName | app_flite.c:185-188 | the wave is saved under the temp name with ".sln" at 8000 Hz and ".sln16" at 16000 Hz |
| FliteApp.SaveFailureStopsRequest | app_flite.c:215-231 | a failed save returns its error, and the last effect is the release of the registered voice |
| FliteApp.SavedFileIsPlayedThenDeleted | app_flite.c:239-250 | after a successful save the temp file is streamed and the last effect is its deletion; the result is the stream error, or the wait result when streaming started |
| FliteApp.TempFileDeletedOnce | app_flite.c:228-249 | the temp file is deleted exactly once when the save succeeded, and never otherwise |
| FliteApp.StreamedFiles | app_flite.c:166-247 | a file is streamed once on a cache hit and once after a successful save; a failed save streams nothing of its own |
| FliteApp.CacheFilledOnlyFromSavedWave | app_flite.c:233-237 | the cache is filled exactly when writecache is set, synthesis ran and the save succeeded, always by copying the temp name to the cache path |
| FliteApp.AnsweredAtMostOnce | app_flite.c:166-240 | a channel that is not up is answered exactly once on every path that streams, and a channel that is up is never answered |

## Left out

- Flite itself (the voice internals, `flite_text_to_wave`, `cst_wave_resample`, `delete_wave`) is a foreign library doing signal processing. `flite_init` and the `register_cmu_us_*` call together are the `RegisterVoice` effect. Synthesis is an effect, and the only thing taken from the wave is its sample rate (`Host.waveRate`).
- `ast_md5_hash` is a foreign call. Its result is an input, `Host.digest`, assumed to be 32 lower-case hex characters. Hash collisions are not modelled.
- Config file parsing (`ast_config_load`, `ast_variable_retrieve`, `ast_true`, `atoi`) is host library code. Its results are optional inputs in `General`.
- Argument splitting (`AST_STANDARD_APP_ARGS`) and `ast_strip_quoted` are host code. The text after stripping and the interrupt argument are inputs in `Args`.
- The channel operations (`ast_answer`, `ast_streamfile`, `ast_waitstream`, `ast_stopstream`) are telephony I/O. Only their result codes are modelled, as `Host` fields, plus the channel state on entry.
- The file operations (`ast_filecopy`, `ast_filedelete`, `cst_wave_save_raw`) act on real storage. They are entries of the effect log, and the results the code reads from them are `Host` fields. `ast_fileexists` is not an effect: only its result is read, as `Host.cacheFormats`.
- `ast_random` is an input, `Host.random`, assumed non-negative.
- The module lifecycle (`load_module`, `unload_module`, `reload`, application registration, `ast_config_destroy`) is host plugin plumbing.
- Log and debug messages are not modelled.
- FliteApp.FliteExec: a reload during a request is not modelled. `reload` (app_flite.c:253-257) destroys the config and reruns `read_config` without a lock, while `flite_exec` reads `target_sample_rate` and `voice_name` again at lines 185-188, 192-200, 212 and 217-223. The model reads the settings once, so the register/unregister pairing (`UnregisterMatchesRegister`, `VoiceReleasedIsVoiceRegistered`) and the assigned raw temp name (`SettingsAdmitRequests`) hold only when no reload runs during the request; a reload can also leave `cachedir` and `voice_name` pointing into freed memory.
- FliteApp.FliteExec: `ast_answer` is assumed to bring the channel up. The second state check before playback therefore answers only a channel that was neither up on entry nor answered on a cache hit. A failed answer that leaves the channel down is not modelled.
- AST_DIGIT_ANY is taken as "0123456789#*ABCD". The header `asterisk/file.h` that defines it is not part of this model.
- Strings are C strings without an embedded NUL, and each `char` of a Dafny string stands for one byte of the C string, so `|cachedir|` is `strlen(cachedir)`. Integer widths do not matter on the paths modelled: the lengths and the `% 99999999` value are far from any overflow.
