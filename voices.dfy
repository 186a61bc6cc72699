/** The two if-chains of flite_exec that pick a Flite voice: the one that
    registers a voice before synthesis, and the one, ordered differently,
    that unregisters it afterwards. */
module FliteVoices {
  import opened FliteConfig

  /** The voices the plugin links against: cmu_us_kal, cmu_us_kal16,
      cmu_us_awb, cmu_us_rms and cmu_us_slt. */
  datatype Voice = Kal | Kal16 | Awb | Rms | Slt

  /** The voice names the register chain recognises. */
  predicate KnownVoiceName(name: string) {
    name == "kal" || name == "awb" || name == "rms" || name == "slt"
  }

  /** The voice registered for synthesis. */
  function RegisteredVoice(name: string, rate: int): (v: Voice)
    ensures v == Kal16 <==> name == "kal" && rate == 16000
    ensures v == Awb <==> name == "awb"
    ensures v == Rms <==> name == "rms"
    ensures v == Slt <==> name == "slt"
  {
    if name == "kal" && rate == 8000 then Kal
    else if name == "kal" && rate == 16000 then Kal16
    else if name == "awb" then Awb
    else if name == "rms" then Rms
    else if name == "slt" then Slt
    else Kal
  }

  /** True when the register chain reaches its last branch, which logs
      "Unsupported voice" and falls back to the default male voice. */
  function FallsBackToDefault(name: string, rate: int): (r: bool)
    ensures r <==> RegisteredVoice(name, rate) == Kal && !(name == "kal" && rate == 8000)
  {
    !(name == "kal" && (rate == 8000 || rate == 16000))
    && name != "awb" && name != "rms" && name != "slt"
  }

  /** The voice released after synthesis. */
  function UnregisteredVoice(name: string, rate: int): (v: Voice)
    ensures v == Awb <==> name == "awb"
    ensures v == Rms <==> name == "rms"
    ensures v == Slt <==> name == "slt"
    ensures v == Kal16 <==> name == "kal" && rate == 16000
  {
    if name == "awb" then Awb
    else if name == "rms" then Rms
    else if name == "slt" then Slt
    else if name == "kal" && rate == 16000 then Kal16
    else Kal
  }

  /** With a supported rate, the fallback warning is logged exactly for the
      names the plugin does not know. */
  lemma FallbackExactlyForUnknownNames(name: string, rate: int)
    requires SupportedRate(rate)
    ensures FallsBackToDefault(name, rate) <==> !KnownVoiceName(name)
  {
  }

  /** The voice released is the one registered, for every name and every
      rate, not only the two rates read_config lets through. */
  lemma UnregisterMatchesRegister(name: string, rate: int)
    ensures UnregisteredVoice(name, rate) == RegisteredVoice(name, rate)
  {
  }
}
