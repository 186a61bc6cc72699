/** Configuration of the Flite application: the module globals
    target_sample_rate, usecache, cachedir and voice_name, and read_config,
    which sets them from defaults and the [general] section of flite.conf. */
module FliteConfig {
  import opened CStrings

  const DefaultRate: int := 8000
  const DefaultVoice: string := "kal"
  const DefaultDir: string := "/tmp"

  /** The two rates the plugin can produce audio at. */
  predicate SupportedRate(rate: int) {
    rate == 8000 || rate == 16000
  }

  /** The [general] keys as the host's config API returns them: None for an
      absent key; usecache already through ast_true, samplerate through atoi. */
  datatype General = General(
    usecache: Option<bool>,
    cachedir: Option<string>,
    voice: Option<string>,
    samplerate: Option<int>)

  /** What ast_config_load gives back for flite.conf. */
  datatype ConfigLoad = Missing | FileInvalid | Loaded(general: General)

  /** The values of the four module globals. */
  datatype Config = Config(rate: int, usecache: bool, cachedir: string, voice: string)

  const Defaults: Config := Config(DefaultRate, false, DefaultDir, DefaultVoice)

  function Present<T>(o: Option<T>, otherwise: T): T {
    if o.Some? then o.value else otherwise
  }

  /** The settings read_config leaves behind for a given outcome of loading
      the file. */
  function Resolve(load: ConfigLoad): (c: Config)
    ensures SupportedRate(c.rate)
    ensures !load.Loaded? ==> c == Defaults
    ensures load.Loaded? && load.general.samplerate.Some? && SupportedRate(load.general.samplerate.value)
      ==> c.rate == load.general.samplerate.value
    ensures (load.Loaded? ==> load.general.samplerate.None? || !SupportedRate(load.general.samplerate.value))
      ==> c.rate == DefaultRate
  {
    var read :=
      if load.Loaded? then
        var g := load.general;
        Config(Present(g.samplerate, DefaultRate), Present(g.usecache, false),
               Present(g.cachedir, DefaultDir), Present(g.voice, DefaultVoice))
      else Defaults;
    if SupportedRate(read.rate) then read else read.(rate := DefaultRate)
  }

  /** An empty [general] section leaves every default in place. */
  lemma EmptySectionIsDefault()
    ensures Resolve(Loaded(General(None, None, None, None))) == Defaults
  {
  }

  /** A key that is present overrides its own setting and no other. */
  lemma UsecacheOverridesOnlyItself(g: General, b: bool)
    ensures Resolve(Loaded(g.(usecache := Some(b)))) == Resolve(Loaded(g)).(usecache := b)
  {
  }

  lemma CachedirOverridesOnlyItself(g: General, dir: string)
    ensures Resolve(Loaded(g.(cachedir := Some(dir)))) == Resolve(Loaded(g)).(cachedir := dir)
  {
  }

  lemma VoiceOverridesOnlyItself(g: General, name: string)
    ensures Resolve(Loaded(g.(voice := Some(name)))) == Resolve(Loaded(g)).(voice := name)
  {
  }

  lemma SamplerateOverridesOnlyItself(g: General, rate: int)
    ensures Resolve(Loaded(g.(samplerate := Some(rate))))
         == Resolve(Loaded(g)).(rate := if SupportedRate(rate) then rate else DefaultRate)
  {
  }

  /** The module globals. They start zeroed (a NULL string is modelled as
      the empty string) and read_config fills them. */
  class Settings {
    var targetSampleRate: int
    var usecache: bool
    var cachedir: string
    var voiceName: string

    /** The invariant every request relies on: the rate is one of the two
        the plugin supports, so a raw temp name is always produced. */
    ghost predicate Valid()
      reads this
    {
      SupportedRate(targetSampleRate)
    }

    function Current(): (c: Config)
      reads this
      ensures c.rate == targetSampleRate && c.usecache == usecache
      ensures c.cachedir == cachedir && c.voice == voiceName
    {
      Config(targetSampleRate, usecache, cachedir, voiceName)
    }

    constructor ()
      ensures targetSampleRate == 0 && !usecache && cachedir == [] && voiceName == []
    {
      targetSampleRate := 0;
      usecache := false;
      cachedir := [];
      voiceName := [];
    }

    /** read_config: defaults first, then the keys present in [general] when
        the file loaded, then the rate clamp. Whatever the globals held
        before (on reload) does not matter. */
    method ReadConfig(load: ConfigLoad)
      modifies this
      ensures Valid()
      ensures Current() == Resolve(load)
    {
      targetSampleRate := DefaultRate;
      usecache := false;
      cachedir := DefaultDir;
      voiceName := DefaultVoice;

      if load.Missing? || load.FileInvalid? {
        // the warning about the unreadable file is not modelled
      } else {
        var g := load.general;
        if g.usecache.Some? {
          usecache := g.usecache.value;
        }
        if g.cachedir.Some? {
          cachedir := g.cachedir.value;
        }
        if g.voice.Some? {
          voiceName := g.voice.value;
        }
        if g.samplerate.Some? {
          targetSampleRate := g.samplerate.value;
        }
      }

      if targetSampleRate != 8000 && targetSampleRate != 16000 {
        targetSampleRate := DefaultRate;
      }
    }
  }
}
