/** flite_exec, the handler behind the Flite(text[,intkeys]) dialplan
    application. Every call it makes into the host or into Flite is taken as
    an outcome in Host, and what it does to the channel, to Flite and to
    files is recorded, in order, as a sequence of effects. */
module FliteApp {
  import opened CStrings
  import opened FliteConfig
  import opened FliteVoices
  import opened FliteNames

  /** AST_DIGIT_ANY: every key a caller can press. */
  const DigitAny: string := "0123456789#*ABCD"

  /** The interrupt keys handed to ast_waitstream: the argument as given,
      except that "any" in any letter case becomes every key. */
  function InterruptKeys(arg: Option<string>): (keys: Option<string>)
    ensures keys.Some? <==> arg.Some?
    ensures arg.Some? && Lower(arg.value) == "any" ==> keys == Some(DigitAny)
    ensures arg.Some? && Lower(arg.value) != "any" ==> keys == arg
  {
    if arg.Some? && StrCaseEqual(arg.value, "any") then Some(DigitAny) else arg
  }

  /** What flite_exec does outside its own variables. */
  datatype Effect =
    | Answer                                 // ast_answer
    | StreamFile(path: string)               // ast_streamfile
    | WaitStream(keys: Option<string>)       // ast_waitstream
    | StopStream                             // ast_stopstream
    | RegisterVoice(voice: Voice)            // flite_init, register_cmu_us_*
    | Synthesize(text: string, voice: Voice) // flite_text_to_wave
    | Resample(rate: int)                    // cst_wave_resample
    | SaveRaw(path: string)                  // cst_wave_save_raw
    | UnregisterVoice(voice: Voice)          // unregister_cmu_us_*
    | CopyFile(from: string, to: string)     // ast_filecopy
    | DeleteFile(path: string)               // ast_filedelete

  /** The kinds of effect, for counting them in a log. */
  datatype Kind = KAnswer | KStream | KWait | KStop | KRegister | KSynthesize
                | KResample | KSave | KUnregister | KCopy | KDelete

  function KindOf(e: Effect): Kind {
    match e
    case Answer => KAnswer
    case StreamFile(_) => KStream
    case WaitStream(_) => KWait
    case StopStream => KStop
    case RegisterVoice(_) => KRegister
    case Synthesize(_, _) => KSynthesize
    case Resample(_) => KResample
    case SaveRaw(_) => KSave
    case UnregisterVoice(_) => KUnregister
    case CopyFile(_, _) => KCopy
    case DeleteFile(_) => KDelete
  }

  /** How many effects of kind k a log holds. */
  function Count(effects: seq<Effect>, k: Kind): nat {
    if effects == [] then 0
    else (if KindOf(effects[0]) == k then 1 else 0) + Count(effects[1..], k)
  }

  /** Counting distributes over putting two logs one after the other. */
  lemma {:induction false} CountConcat(a: seq<Effect>, b: seq<Effect>, k: Kind)
    ensures Count(a + b, k) == Count(a, k) + Count(b, k)
  {
    if a == [] {
      assert a + b == b;
    } else {
      assert (a + b)[1..] == a[1..] + b;
      CountConcat(a[1..], b, k);
    }
  }

  function Indicator(b: bool): nat {
    if b then 1 else 0
  }

  /** Counting a one-element log. */
  lemma CountSingle(e: Effect, k: Kind)
    ensures Count([e], k) == Indicator(KindOf(e) == k)
  {
    assert [e][1..] == [];
  }

  /** Counting a two-element log. */
  lemma CountPair(a: Effect, b: Effect, k: Kind)
    ensures Count([a, b], k) == Indicator(KindOf(a) == k) + Indicator(KindOf(b) == k)
  {
    assert [a] + [b] == [a, b];
    CountConcat([a], [b], k);
  }

  /** Counting four logs put one after the other. */
  lemma CountConcat4(a: seq<Effect>, b: seq<Effect>, c: seq<Effect>, d: seq<Effect>, k: Kind)
    ensures Count(a + b + c + d, k) == Count(a, k) + Count(b, k) + Count(c, k) + Count(d, k)
  {
    CountConcat(a, b, k);
    CountConcat(a + b, c, k);
    CountConcat(a + b + c, d, k);
  }

  /** Counting five logs put one after the other. */
  lemma CountConcat5(a: seq<Effect>, b: seq<Effect>, c: seq<Effect>, d: seq<Effect>, e: seq<Effect>, k: Kind)
    ensures Count(a + b + c + d + e, k) == Count(a, k) + Count(b, k) + Count(c, k) + Count(d, k) + Count(e, k)
  {
    CountConcat4(a, b, c, d, k);
    CountConcat(a + b + c + d, e, k);
  }

  /** The outcomes of the host and library calls one request makes. */
  datatype Host = Host(
    channelUp: bool,     // chan->_state == AST_STATE_UP on entry
    digest: string,      // ast_md5_hash of the text
    cacheFormats: int,   // ast_fileexists on the cache path
    cacheStreamRes: int, // ast_streamfile of the cache file
    cacheWaitRes: int,   // ast_waitstream after it
    random: int,         // ast_random()
    waveRate: int,       // sample rate of the wave Flite synthesizes
    saveRes: int,        // cst_wave_save_raw
    streamRes: int,      // ast_streamfile of the temp file
    waitRes: int)        // ast_waitstream after it

  /** The request: the raw argument string, and the text (after
      ast_strip_quoted) and interrupt argument AST_STANDARD_APP_ARGS split
      from it. */
  datatype Args = Args(data: string, text: string, interrupt: Option<string>)

  /** What flite_exec returns, the two locals the cache logic sets, and the
      effects it had. */
  datatype Outcome = Outcome(res: int, writecache: bool, cachefile: string, effects: seq<Effect>)

  /** What every request may rely on: read_config's rate invariant, and the
      shapes of ast_md5_hash's and ast_random's results. */
  predicate Admissible(cfg: Config, host: Host) {
    SupportedRate(cfg.rate) && IsDigest(host.digest) && host.random >= 0
  }

  /** The request gets past both argument checks. */
  predicate HasText(args: Args) {
    args.data != [] && args.text != []
  }

  /** The cache is on and its guard passes, so the cache path is built. */
  predicate CacheActive(cfg: Config) {
    cfg.usecache && CacheGuard(cfg.cachedir)
  }

  /** The cache file exists. */
  predicate CacheHit(cfg: Config, host: Host) {
    CacheActive(cfg) && host.cacheFormats > 0
  }

  /** The request is answered from the cache alone. */
  predicate ServedFromCache(cfg: Config, args: Args, host: Host) {
    HasText(args) && CacheHit(cfg, host) && host.cacheStreamRes == 0
  }

  /** The request reaches Flite. */
  predicate Synthesizes(cfg: Config, args: Args, host: Host) {
    HasText(args) && !ServedFromCache(cfg, args, host)
  }

  /** cachefile as the cache logic leaves it: the path when the cache is
      active, else still empty. */
  function CacheFile(cfg: Config, host: Host): string
    requires IsDigest(host.digest)
  {
    if CacheActive(cfg) then CachePath(cfg.cachedir, host.digest).value else []
  }

  /** The answer flite_exec gives the channel when it is not up yet. */
  function Answered(up: bool): seq<Effect> {
    if up then [] else [Answer]
  }

  /** ast_streamfile, then ast_waitstream and ast_stopstream only when
      streaming started. */
  function Played(path: string, streamRes: int, keys: Option<string>): seq<Effect> {
    [StreamFile(path)] + (if streamRes == 0 then [WaitStream(keys), StopStream] else [])
  }

  /** ast_filecopy of the temp file into the cache, when it is to be filled. */
  function Copied(writecache: bool, tmpName: string, cachefile: string): seq<Effect> {
    if writecache then [CopyFile(tmpName, cachefile)] else []
  }

  /** The cache lookup: on a hit, answer and stream the cache file. */
  function Lookup(hit: bool, up: bool, cachefile: string, streamRes: int, keys: Option<string>): seq<Effect> {
    if hit then Answered(up) + Played(cachefile, streamRes, keys) else []
  }

  /** After the effects before: register a voice, synthesize the text with
      it, resample if needed, save the raw wave and release a voice. */
  function Synthesized(before: seq<Effect>, text: string, voice: Voice, released: Voice,
                       resample: bool, rate: int, rawTmpName: string): seq<Effect>
  {
    before + [RegisterVoice(voice), Synthesize(text, voice)]
    + (if resample then [Resample(rate)] else [])
    + [SaveRaw(rawTmpName), UnregisterVoice(released)]
  }

  /** After the effects before: fill the cache if marked, answer if still
      needed, play the temp file and delete it. */
  function PlayedBack(before: seq<Effect>, writecache: bool, up: bool, tmpName: string,
                      cachefile: string, streamRes: int, keys: Option<string>): seq<Effect>
  {
    before + Copied(writecache, tmpName, cachefile) + Answered(up)
    + Played(tmpName, streamRes, keys) + [DeleteFile(tmpName)]
  }

  /** The three file names a request builds: the cache path (empty when
      the cache is not active), the temp base name and the raw temp name. */
  datatype Names = Names(cachefile: string, tmpName: string, rawTmpName: string)

  function NamesFor(cfg: Config, host: Host): Names
    requires Admissible(cfg, host)
  {
    var tmpName := TmpName(host.random);
    Names(CacheFile(cfg, host), tmpName, RawTmpName(tmpName, cfg.rate).value)
  }

  /** A request run with the given file names: the argument checks, the
      cache lookup, synthesis, then filling the cache, playing the temp file
      and deleting it. */
  function Run(cfg: Config, args: Args, host: Host, names: Names): (o: Outcome)
    ensures o.writecache ==> HasText(args) && CacheActive(cfg) && host.cacheFormats <= 0
    ensures o.cachefile != [] ==> HasText(args) && o.cachefile == names.cachefile
  {
    if args.data == [] then Outcome(-1, false, [], [])
    else if args.text == [] then Outcome(0, false, [], [])
    else
      var keys := InterruptKeys(args.interrupt);
      var hit := CacheHit(cfg, host);
      var writecache := CacheActive(cfg) && host.cacheFormats <= 0;
      var lookup := Lookup(hit, host.channelUp, names.cachefile, host.cacheStreamRes, keys);
      if hit && host.cacheStreamRes == 0 then
        Outcome(host.cacheWaitRes, false, names.cachefile, lookup)
      else
        var synthesized :=
          Synthesized(lookup, args.text, RegisteredVoice(cfg.voice, cfg.rate),
                      UnregisteredVoice(cfg.voice, cfg.rate), host.waveRate != cfg.rate, cfg.rate,
                      names.rawTmpName);
        if host.saveRes != 0 then
          Outcome(host.saveRes, writecache, names.cachefile, synthesized)
        else
          Outcome(if host.streamRes != 0 then host.streamRes else host.waitRes, writecache, names.cachefile,
                  PlayedBack(synthesized, writecache, host.channelUp || hit, names.tmpName,
                             names.cachefile, host.streamRes, keys))
  }

  /** The reference outcome of one request. */
  function Handle(cfg: Config, args: Args, host: Host): (o: Outcome)
    requires Admissible(cfg, host)
    ensures o.cachefile == [] || o.cachefile == cfg.cachedir + "/" + host.digest
    ensures |o.cachefile| < MaxLen
  {
    Run(cfg, args, host, NamesFor(cfg, host))
  }

  /** flite_exec(chan, data), with the module globals passed as their value
      cfg (they do not change while a request runs) and every host and Flite
      call answered from host. */
  method FliteExec(cfg: Config, args: Args, host: Host)
    returns (res: int, writecache: bool, cachefile: string, effects: seq<Effect>)
    requires Admissible(cfg, host)
    ensures Outcome(res, writecache, cachefile, effects) == Handle(cfg, args, host)
  {
    res := 0;
    writecache := false;
    cachefile := [];
    effects := [];

    if args.data == [] {
      res := -1;
      return;
    }

    var keys := InterruptKeys(args.interrupt);

    if args.text == [] {
      return;
    }

    var up := host.channelUp;

    // cache mechanism
    if cfg.usecache {
      var path := CachePath(cfg.cachedir, host.digest);
      if path.Some? {
        cachefile := path.value;
        if host.cacheFormats <= 0 {
          writecache := true;
        } else {
          if !up {
            effects := effects + [Answer];
            up := true;
          }
          assert effects == Answered(host.channelUp);
          res := host.cacheStreamRes;
          effects := effects + [StreamFile(cachefile)];
          if res == 0 {
            res := host.cacheWaitRes;
            effects := effects + [WaitStream(keys), StopStream];
            assert effects == Lookup(true, host.channelUp, cachefile, host.cacheStreamRes, keys);
            return;
          }
        }
      }
    }
    ghost var lookup := effects;
    assert lookup == Lookup(CacheHit(cfg, host), host.channelUp, cachefile, host.cacheStreamRes, keys);
    assert up == (host.channelUp || CacheHit(cfg, host));

    // temp file names
    var tmpName := TmpName(host.random);
    var rawTmpName := RawTmpName(tmpName, cfg.rate).value;

    // invoke Flite
    var voice := RegisteredVoice(cfg.voice, cfg.rate);
    effects := effects + [RegisterVoice(voice), Synthesize(args.text, voice)];
    ghost var registered := effects;
    if host.waveRate != cfg.rate {
      effects := effects + [Resample(cfg.rate)];
    }
    assert effects == registered + (if host.waveRate != cfg.rate then [Resample(cfg.rate)] else []);
    res := host.saveRes;
    effects := effects + [SaveRaw(rawTmpName), UnregisterVoice(UnregisteredVoice(cfg.voice, cfg.rate))];
    assert effects == Synthesized(lookup, args.text, voice, UnregisteredVoice(cfg.voice, cfg.rate),
                                  host.waveRate != cfg.rate, cfg.rate, rawTmpName);

    if res != 0 {
      return;
    }
    ghost var synthesized := effects;

    // save file to cache if set
    if writecache {
      effects := effects + [CopyFile(tmpName, cachefile)];
    }
    assert effects == synthesized + Copied(writecache, tmpName, cachefile);
    ghost var copied := effects;

    if !up {
      effects := effects + [Answer];
      up := true;
    }
    assert effects == copied + Answered(host.channelUp || CacheHit(cfg, host));
    ghost var answered := effects;

    res := host.streamRes;
    effects := effects + [StreamFile(tmpName)];
    if res == 0 {
      res := host.waitRes;
      effects := effects + [WaitStream(keys), StopStream];
    }
    assert effects == answered + Played(tmpName, host.streamRes, keys);

    effects := effects + [DeleteFile(tmpName)];
  }

  /** The rate invariant ReadConfig leaves in the settings is what makes a
      request admissible, and with it the raw temp name is always assigned. */
  lemma SettingsAdmitRequests(settings: Settings, host: Host)
    requires settings.Valid() && IsDigest(host.digest) && host.random >= 0
    ensures Admissible(settings.Current(), host)
    ensures RawTmpName(TmpName(host.random), settings.Current().rate).Some?
  {
  }

  /** flite_exec as the loaded module runs it, reading the globals that
      read_config left in the settings. */
  method FliteExecWithSettings(settings: Settings, args: Args, host: Host)
    returns (res: int, writecache: bool, cachefile: string, effects: seq<Effect>)
    requires settings.Valid() && IsDigest(host.digest) && host.random >= 0
    ensures Outcome(res, writecache, cachefile, effects) == Handle(settings.Current(), args, host)
  {
    SettingsAdmitRequests(settings, host);
    res, writecache, cachefile, effects := FliteExec(settings.Current(), args, host);
  }

  // How many effects of each kind every phase adds.

  /** The kinds the cache lookup adds: on a hit, an answer when the channel
      is not up, and the cache file played. */
  function LookupKinds(hit: bool, up: bool, streamRes: int, k: Kind): nat {
    if !hit then 0
    else Indicator(!up && k == KAnswer) + Indicator(k == KStream)
         + Indicator(streamRes == 0 && (k == KWait || k == KStop))
  }

  /** The kinds synthesis adds: one each of register, synthesize, save and
      unregister, and a resample when the rates differ. */
  function SynthesisKinds(resample: bool, k: Kind): nat {
    Indicator(k == KRegister || k == KSynthesize || k == KSave || k == KUnregister)
    + Indicator(k == KResample && resample)
  }

  /** The kinds playback adds: a copy when the cache is to be filled, an
      answer when the channel is not up, the temp file played, one delete. */
  function PlaybackKinds(writecache: bool, up: bool, streamRes: int, k: Kind): nat {
    Indicator(k == KCopy && writecache) + Indicator(k == KAnswer && !up)
    + Indicator(k == KStream) + Indicator(streamRes == 0 && (k == KWait || k == KStop))
    + Indicator(k == KDelete)
  }

  lemma AnsweredCount(up: bool, k: Kind)
    ensures Count(Answered(up), k) == Indicator(k == KAnswer && !up)
  {
    CountSingle(Answer, k);
  }

  lemma CopiedCount(writecache: bool, tmpName: string, cachefile: string, k: Kind)
    ensures Count(Copied(writecache, tmpName, cachefile), k) == Indicator(k == KCopy && writecache)
  {
    CountSingle(CopyFile(tmpName, cachefile), k);
  }

  lemma PlayedCount(path: string, streamRes: int, keys: Option<string>, k: Kind)
    ensures Count(Played(path, streamRes, keys), k)
      == Indicator(k == KStream) + Indicator(streamRes == 0 && (k == KWait || k == KStop))
  {
    CountConcat([StreamFile(path)], if streamRes == 0 then [WaitStream(keys), StopStream] else [], k);
    CountPair(WaitStream(keys), StopStream, k);
  }

  lemma LookupCount(hit: bool, up: bool, cachefile: string, streamRes: int, keys: Option<string>, k: Kind)
    ensures Count(Lookup(hit, up, cachefile, streamRes, keys), k) == LookupKinds(hit, up, streamRes, k)
  {
    if hit {
      CountConcat(Answered(up), Played(cachefile, streamRes, keys), k);
      PlayedCount(cachefile, streamRes, keys, k);
    }
  }

  lemma SynthesizedCount(before: seq<Effect>, text: string, voice: Voice, released: Voice,
                         resample: bool, rate: int, rawTmpName: string, k: Kind)
    ensures Count(Synthesized(before, text, voice, released, resample, rate, rawTmpName), k)
      == Count(before, k) + SynthesisKinds(resample, k)
  {
    CountPair(RegisterVoice(voice), Synthesize(text, voice), k);
    ResampledCount(resample, rate, k);
    CountPair(SaveRaw(rawTmpName), UnregisterVoice(released), k);
    CountConcat4(before, [RegisterVoice(voice), Synthesize(text, voice)], if resample then [Resample(rate)] else [],
                 [SaveRaw(rawTmpName), UnregisterVoice(released)], k);
  }

  lemma ResampledCount(resample: bool, rate: int, k: Kind)
    ensures Count(if resample then [Resample(rate)] else [], k) == Indicator(k == KResample && resample)
  {
    CountSingle(Resample(rate), k);
  }

  lemma PlayedBackCount(before: seq<Effect>, writecache: bool, up: bool, tmpName: string,
                        cachefile: string, streamRes: int, keys: Option<string>, k: Kind)
    ensures Count(PlayedBack(before, writecache, up, tmpName, cachefile, streamRes, keys), k)
      == Count(before, k) + PlaybackKinds(writecache, up, streamRes, k)
  {
    CopiedCount(writecache, tmpName, cachefile, k);
    AnsweredCount(up, k);
    PlayedCount(tmpName, streamRes, keys, k);
    CountSingle(DeleteFile(tmpName), k);
    CountConcat5(before, Copied(writecache, tmpName, cachefile), Answered(up), Played(tmpName, streamRes, keys),
                 [DeleteFile(tmpName)], k);
  }

  /** How many effects of each kind one request has, whatever the names. */
  lemma RunCount(cfg: Config, args: Args, host: Host, names: Names, k: Kind)
    ensures Count(Run(cfg, args, host, names).effects, k)
      == if !HasText(args) then 0
         else LookupKinds(CacheHit(cfg, host), host.channelUp, host.cacheStreamRes, k)
              + (if ServedFromCache(cfg, args, host) then 0
                 else SynthesisKinds(host.waveRate != cfg.rate, k))
              + (if ServedFromCache(cfg, args, host) || host.saveRes != 0 then 0
                 else PlaybackKinds(CacheActive(cfg) && host.cacheFormats <= 0,
                                    host.channelUp || CacheHit(cfg, host), host.streamRes, k))
  {
    var o := Run(cfg, args, host, names);
    if HasText(args) {
      var keys := InterruptKeys(args.interrupt);
      var hit := CacheHit(cfg, host);
      var lookup := Lookup(hit, host.channelUp, names.cachefile, host.cacheStreamRes, keys);
      LookupCount(hit, host.channelUp, names.cachefile, host.cacheStreamRes, keys, k);
      if ServedFromCache(cfg, args, host) {
        assert o.effects == lookup;
      } else {
        var voice := RegisteredVoice(cfg.voice, cfg.rate);
        var released := UnregisteredVoice(cfg.voice, cfg.rate);
        var resample := host.waveRate != cfg.rate;
        var synthesized := Synthesized(lookup, args.text, voice, released, resample, cfg.rate, names.rawTmpName);
        SynthesizedCount(lookup, args.text, voice, released, resample, cfg.rate, names.rawTmpName, k);
        if host.saveRes != 0 {
          assert o.effects == synthesized;
        } else {
          var writecache := CacheActive(cfg) && host.cacheFormats <= 0;
          assert o.effects == PlayedBack(synthesized, writecache, host.channelUp || hit,
                                         names.tmpName, names.cachefile, host.streamRes, keys);
          PlayedBackCount(synthesized, writecache, host.channelUp || hit,
                          names.tmpName, names.cachefile, host.streamRes, keys, k);
        }
      }
    }
  }

  // What every phase can add.

  lemma LookupMember(hit: bool, up: bool, cachefile: string, streamRes: int, keys: Option<string>, e: Effect)
    requires e in Lookup(hit, up, cachefile, streamRes, keys)
    ensures e == Answer || e == StreamFile(cachefile) || e == WaitStream(keys) || e == StopStream
  {
  }

  lemma SynthesizedMember(before: seq<Effect>, text: string, voice: Voice, released: Voice,
                          resample: bool, rate: int, rawTmpName: string, e: Effect)
    requires e in Synthesized(before, text, voice, released, resample, rate, rawTmpName)
    ensures e in before || e == RegisterVoice(voice) || e == Synthesize(text, voice)
            || e == Resample(rate) || e == SaveRaw(rawTmpName) || e == UnregisterVoice(released)
  {
  }

  lemma PlayedBackMember(before: seq<Effect>, writecache: bool, up: bool, tmpName: string,
                         cachefile: string, streamRes: int, keys: Option<string>, e: Effect)
    requires e in PlayedBack(before, writecache, up, tmpName, cachefile, streamRes, keys)
    ensures e in before || e == CopyFile(tmpName, cachefile) || e == Answer || e == StreamFile(tmpName)
            || e == WaitStream(keys) || e == StopStream || e == DeleteFile(tmpName)
  {
  }

  /** Playback streams the temp file and ends by deleting it. */
  lemma PlayedBackEnds(before: seq<Effect>, writecache: bool, up: bool, tmpName: string,
                       cachefile: string, streamRes: int, keys: Option<string>)
    ensures var effects := PlayedBack(before, writecache, up, tmpName, cachefile, streamRes, keys);
      StreamFile(tmpName) in effects && effects[|effects| - 1] == DeleteFile(tmpName)
  {
    var played := before + Copied(writecache, tmpName, cachefile) + Answered(up);
    assert (played + Played(tmpName, streamRes, keys))[|played|] == StreamFile(tmpName);
  }

  /** What any one effect of a request can be: synthesis uses the request's
      text and the registered voice, the voice released is the one for the
      configured name, the wave is saved under the raw temp name, and the
      cache is filled from the temp file. */
  lemma RunMember(cfg: Config, args: Args, host: Host, names: Names, e: Effect)
    requires e in Run(cfg, args, host, names).effects
    ensures e.Synthesize? ==> e == Synthesize(args.text, RegisteredVoice(cfg.voice, cfg.rate))
    ensures e.RegisterVoice? ==> e.voice == RegisteredVoice(cfg.voice, cfg.rate)
    ensures e.UnregisterVoice? ==> e.voice == UnregisteredVoice(cfg.voice, cfg.rate)
    ensures e.SaveRaw? ==> e.path == names.rawTmpName
    ensures e.CopyFile? ==> e == CopyFile(names.tmpName, names.cachefile)
    ensures e.StreamFile? ==> e.path == names.cachefile || e.path == names.tmpName
  {
    var o := Run(cfg, args, host, names);
    var keys := InterruptKeys(args.interrupt);
    var hit := CacheHit(cfg, host);
    var lookup := Lookup(hit, host.channelUp, names.cachefile, host.cacheStreamRes, keys);
    if ServedFromCache(cfg, args, host) {
      assert o.effects == lookup;
      LookupMember(hit, host.channelUp, names.cachefile, host.cacheStreamRes, keys, e);
    } else {
      var voice := RegisteredVoice(cfg.voice, cfg.rate);
      var released := UnregisteredVoice(cfg.voice, cfg.rate);
      var resample := host.waveRate != cfg.rate;
      var synthesized := Synthesized(lookup, args.text, voice, released, resample, cfg.rate, names.rawTmpName);
      if host.saveRes == 0 {
        var writecache := CacheActive(cfg) && host.cacheFormats <= 0;
        assert o.effects == PlayedBack(synthesized, writecache, host.channelUp || hit,
                                       names.tmpName, names.cachefile, host.streamRes, keys);
        PlayedBackMember(synthesized, writecache, host.channelUp || hit,
                         names.tmpName, names.cachefile, host.streamRes, keys, e);
      } else {
        assert o.effects == synthesized;
      }
      if e in synthesized {
        SynthesizedMember(lookup, args.text, voice, released, resample, cfg.rate, names.rawTmpName, e);
        if e in lookup {
          LookupMember(hit, host.channelUp, names.cachefile, host.cacheStreamRes, keys, e);
        }
      }
    }
  }

  // Properties of a request, stated over the reference outcome that
  // FliteExec computes.

  /** An empty argument string is refused with -1 before anything happens. */
  lemma EmptyDataFails(cfg: Config, args: Args, host: Host)
    requires Admissible(cfg, host) && args.data == []
    ensures Handle(cfg, args, host) == Outcome(-1, false, [], [])
  {
  }

  /** Text that is empty after quote stripping returns 0 and does nothing. */
  lemma EmptyTextDoesNothing(cfg: Config, args: Args, host: Host)
    requires Admissible(cfg, host) && args.data != [] && args.text == []
    ensures Handle(cfg, args, host) == Outcome(0, false, [], [])
  {
  }

  /** The cache path is set exactly when the cache is on and the guard
      passes, and the cache is marked for filling exactly when, in
      addition, the file is not there; otherwise both stay empty. */
  lemma CacheDecision(cfg: Config, args: Args, host: Host)
    requires Admissible(cfg, host)
    ensures var o := Handle(cfg, args, host);
      (o.cachefile != [] <==> HasText(args) && CacheActive(cfg)) &&
      (o.cachefile != [] ==> o.cachefile == cfg.cachedir + "/" + host.digest) &&
      (o.writecache <==> HasText(args) && CacheActive(cfg) && host.cacheFormats <= 0)
  {
  }

  /** A cache hit that streams returns the wait result; there is no
      synthesis, no temp file and no cache write. */
  lemma CacheHitServes(cfg: Config, args: Args, host: Host)
    requires Admissible(cfg, host) && ServedFromCache(cfg, args, host)
    ensures var o := Handle(cfg, args, host);
      o.res == host.cacheWaitRes && !o.writecache &&
      o.effects == Answered(host.channelUp)
                   + [StreamFile(o.cachefile), WaitStream(InterruptKeys(args.interrupt)), StopStream]
  {
  }

  /** A cache hit whose stream fails goes on to synthesis, without marking
      the cache for filling. */
  lemma CacheStreamFailureFallsThrough(cfg: Config, args: Args, host: Host)
    requires Admissible(cfg, host) && HasText(args) && CacheHit(cfg, host) && host.cacheStreamRes != 0
    ensures var o := Handle(cfg, args, host);
      !o.writecache && Synthesize(args.text, RegisteredVoice(cfg.voice, cfg.rate)) in o.effects
  {
  }

  /** Flite synthesizes once when the cache did not serve the request and
      never otherwise, always the request's text with the registered voice. */
  lemma SynthesisOnlyWhenNeeded(cfg: Config, args: Args, host: Host)
    requires Admissible(cfg, host)
    ensures var o := Handle(cfg, args, host);
      Count(o.effects, KSynthesize) == Indicator(Synthesizes(cfg, args, host)) &&
      forall e :: e in o.effects && e.Synthesize? ==>
        e == Synthesize(args.text, RegisteredVoice(cfg.voice, cfg.rate))
  {
    var names := NamesFor(cfg, host);
    RunCount(cfg, args, host, names, KSynthesize);
    forall e | e in Handle(cfg, args, host).effects && e.Synthesize?
      ensures e == Synthesize(args.text, RegisteredVoice(cfg.voice, cfg.rate))
    {
      RunMember(cfg, args, host, names, e);
    }
  }

  /** The voice released after synthesis is the voice registered for it,
      and each happens once per synthesis. */
  lemma VoiceReleasedIsVoiceRegistered(cfg: Config, args: Args, host: Host)
    requires Admissible(cfg, host)
    ensures var o := Handle(cfg, args, host);
      Count(o.effects, KRegister) == Count(o.effects, KUnregister) == Indicator(Synthesizes(cfg, args, host)) &&
      forall e :: e in o.effects && (e.RegisterVoice? || e.UnregisterVoice?) ==>
        e.voice == RegisteredVoice(cfg.voice, cfg.rate)
  {
    var names := NamesFor(cfg, host);
    RunCount(cfg, args, host, names, KRegister);
    RunCount(cfg, args, host, names, KUnregister);
    forall e | e in Handle(cfg, args, host).effects && (e.RegisterVoice? || e.UnregisterVoice?)
      ensures e.voice == RegisteredVoice(cfg.voice, cfg.rate)
    {
      RunMember(cfg, args, host, names, e);
      UnregisterMatchesRegister(cfg.voice, cfg.rate);
    }
  }

  /** The wave is saved under the temp name with the extension of the
      configured rate. */
  lemma SavedUnderRawTmpName(cfg: Config, args: Args, host: Host)
    requires Admissible(cfg, host)
    ensures forall p :: SaveRaw(p) in Handle(cfg, args, host).effects ==>
      p == TmpName(host.random) + (if cfg.rate == 8000 then ".sln" else ".sln16")
  {
    var names := NamesFor(cfg, host);
    forall p | SaveRaw(p) in Handle(cfg, args, host).effects
      ensures p == TmpName(host.random) + (if cfg.rate == 8000 then ".sln" else ".sln16")
    {
      RunMember(cfg, args, host, names, SaveRaw(p));
    }
  }

  /** A failed save returns its error at once, right after the voice is
      released: nothing is copied, played or deleted after it. */
  lemma SaveFailureStopsRequest(cfg: Config, args: Args, host: Host)
    requires Admissible(cfg, host) && Synthesizes(cfg, args, host) && host.saveRes != 0
    ensures var o := Handle(cfg, args, host);
      o.res == host.saveRes &&
      o.effects[|o.effects| - 1] == UnregisterVoice(RegisteredVoice(cfg.voice, cfg.rate))
  {
    var names := NamesFor(cfg, host);
    var lookup := Lookup(CacheHit(cfg, host), host.channelUp, names.cachefile, host.cacheStreamRes,
                         InterruptKeys(args.interrupt));
    var released := UnregisteredVoice(cfg.voice, cfg.rate);
    var synthesized := Synthesized(lookup, args.text, RegisteredVoice(cfg.voice, cfg.rate), released,
                                   host.waveRate != cfg.rate, cfg.rate, names.rawTmpName);
    assert Handle(cfg, args, host).effects == synthesized;
    assert synthesized[|synthesized| - 1] == UnregisterVoice(released);
    UnregisterMatchesRegister(cfg.voice, cfg.rate);
  }

  /** After a successful save the temp file is streamed and then deleted,
      whether or not streaming worked, and the result is that of streaming. */
  lemma SavedFileIsPlayedThenDeleted(cfg: Config, args: Args, host: Host)
    requires Admissible(cfg, host) && Synthesizes(cfg, args, host) && host.saveRes == 0
    ensures var o := Handle(cfg, args, host);
      StreamFile(TmpName(host.random)) in o.effects &&
      o.effects[|o.effects| - 1] == DeleteFile(TmpName(host.random)) &&
      o.res == (if host.streamRes != 0 then host.streamRes else host.waitRes)
  {
    var names := NamesFor(cfg, host);
    var keys := InterruptKeys(args.interrupt);
    var hit := CacheHit(cfg, host);
    var lookup := Lookup(hit, host.channelUp, names.cachefile, host.cacheStreamRes, keys);
    var synthesized := Synthesized(lookup, args.text, RegisteredVoice(cfg.voice, cfg.rate),
                                   UnregisteredVoice(cfg.voice, cfg.rate), host.waveRate != cfg.rate,
                                   cfg.rate, names.rawTmpName);
    var writecache := CacheActive(cfg) && host.cacheFormats <= 0;
    assert Handle(cfg, args, host).effects
      == PlayedBack(synthesized, writecache, host.channelUp || hit, names.tmpName, names.cachefile,
                    host.streamRes, keys);
    PlayedBackEnds(synthesized, writecache, host.channelUp || hit, names.tmpName, names.cachefile,
                   host.streamRes, keys);
  }

  /** The temp file is deleted once when the wave was saved, and never
      otherwise: a failed save leaves nothing to delete. */
  lemma TempFileDeletedOnce(cfg: Config, args: Args, host: Host)
    requires Admissible(cfg, host)
    ensures Count(Handle(cfg, args, host).effects, KDelete)
      == Indicator(Synthesizes(cfg, args, host) && host.saveRes == 0)
  {
    RunCount(cfg, args, host, NamesFor(cfg, host), KDelete);
  }

  /** A file is streamed once on a cache hit, and once more when the saved
      wave is played; a failed save plays nothing of its own. */
  lemma StreamedFiles(cfg: Config, args: Args, host: Host)
    requires Admissible(cfg, host)
    ensures Count(Handle(cfg, args, host).effects, KStream)
      == Indicator(HasText(args) && CacheHit(cfg, host)) + Indicator(Synthesizes(cfg, args, host) && host.saveRes == 0)
  {
    RunCount(cfg, args, host, NamesFor(cfg, host), KStream);
  }

  /** The cache is filled, from the temp file, exactly when it was marked
      for filling and the save succeeded. */
  lemma CacheFilledOnlyFromSavedWave(cfg: Config, args: Args, host: Host)
    requires Admissible(cfg, host)
    ensures var o := Handle(cfg, args, host);
      Count(o.effects, KCopy) == Indicator(Synthesizes(cfg, args, host) && o.writecache && host.saveRes == 0) &&
      forall e :: e in o.effects && e.CopyFile? ==> e == CopyFile(TmpName(host.random), o.cachefile)
  {
    var names := NamesFor(cfg, host);
    RunCount(cfg, args, host, names, KCopy);
    forall e | e in Handle(cfg, args, host).effects && e.CopyFile?
      ensures e == CopyFile(TmpName(host.random), Handle(cfg, args, host).cachefile)
    {
      RunMember(cfg, args, host, names, e);
    }
  }

  /** A channel that is not up is answered once, and one that is up never;
      a request that fails before any streaming does not answer. */
  lemma AnsweredAtMostOnce(cfg: Config, args: Args, host: Host)
    requires Admissible(cfg, host)
    ensures Count(Handle(cfg, args, host).effects, KAnswer)
      == Indicator(!host.channelUp && HasText(args) && (CacheHit(cfg, host) || host.saveRes == 0))
  {
    RunCount(cfg, args, host, NamesFor(cfg, host), KAnswer);
  }
}
