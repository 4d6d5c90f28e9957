/**
 * The rate-control part of `esmpp_update` and `esmpp_reconfigure`, as pure
 * functions from the old codec-context fields and the settings to the new
 * ones. The encoder's methods are proved to perform exactly these writes;
 * the lemmas below state what each mode does.
 */
module RateControl {
  import opened CInts
  import opened CaseInsensitive
  import opened EncoderSettings

  /** The branch `esmpp_update` takes. */
  datatype RcMode = CBR | CQP | VBR

  /** The codec-context fields the plugin writes. */
  datatype RateFields = RateFields(
    bitRate: Int64,
    rcMaxRate: Int64,
    rcMinRate: Int64,
    globalQuality: Int32,
    maxBFrames: Int32)

  /** A value of a private codec option set with `av_opt_set` or `av_opt_set_int`. */
  datatype OptionValue = StrOption(s: string) | IntOption(i: int)

  /** `esmpp_update`'s case split: "cqp" first, then anything but "vbr" is CBR. */
  function UpdateMode(rc: string): (m: RcMode)
    ensures m == CQP <==> EqualsIgnoreCase(rc, "cqp")
    ensures m == VBR <==> EqualsIgnoreCase(rc, "vbr")
  {
    ModeNamesDistinct(rc);
    ModeSpellingsAgree(rc);
    if EqualsIgnoreCase(rc, "cqp") then CQP
    else if !EqualsIgnoreCase(rc, "vbr") then CBR
    else VBR
  }

  /** The field writes of `esmpp_update`. */
  function UpdateFields(f: RateFields, s: Settings): RateFields
  {
    var bf := Int32Of(s.bf);
    match UpdateMode(s.rateControl)
    case CQP => f.(globalQuality := Int32Of(s.cqp), maxBFrames := bf)
    case CBR =>
      var rate := Int32Of(s.bitrate) * 1000;
      f.(rcMaxRate := rate, rcMinRate := rate, maxBFrames := bf)
    case VBR => f.(maxBFrames := bf)
  }

  /** The private options `esmpp_update` sets before its case split, and the
      "cbr" flag it sets in the CBR branch. */
  function UpdateOptions(opts: map<string, OptionValue>, s: Settings, alignment: int): map<string, OptionValue>
  {
    var o := opts["rc_mode" := StrOption(s.rateControl)]
                 ["profile" := StrOption(s.profile)]
                 ["v_stride_align" := IntOption(alignment)];
    if UpdateMode(s.rateControl) == CBR then o["cbr" := IntOption(1)] else o
  }

  /** The bitrate (in kbps) `esmpp_update` hands to the backend. */
  function BackendBitrate(s: Settings): Int32
  {
    if UpdateMode(s.rateControl) == CQP then 0 else Int32Of(s.bitrate)
  }

  /** Whether `esmpp_reconfigure` acts: only on "CBR" and "VBR". */
  predicate ReconfigureApplies(rc: string)
  {
    EqualsIgnoreCase(rc, "CBR") || EqualsIgnoreCase(rc, "VBR")
  }

  /** `esmpp_reconfigure` multiplies the 64-bit bitrate by 1000 in 64 bits;
      signed overflow is undefined in C, so the product must fit. */
  predicate ReconfigureDefined(s: Settings)
  {
    ReconfigureApplies(s.rateControl) ==> InInt64(s.bitrate * 1000)
  }

  /** The field writes of `esmpp_reconfigure`. */
  function ReconfigureFields(f: RateFields, s: Settings): RateFields
    requires ReconfigureDefined(s)
  {
    if ReconfigureApplies(s.rateControl) then
      var rate: Int64 := s.bitrate * 1000;
      f.(bitRate := rate, rcMaxRate := rate)
    else f
  }

  /** CQP: the quantizer goes to `global_quality`, the backend gets bitrate 0,
      and neither the rate bounds nor the "cbr" option are touched. */
  lemma UpdateCqp(f: RateFields, s: Settings, opts: map<string, OptionValue>, alignment: int)
    requires EqualsIgnoreCase(s.rateControl, "cqp")
    ensures UpdateFields(f, s).globalQuality == Int32Of(s.cqp)
    ensures BackendBitrate(s) == 0
    ensures UpdateFields(f, s).(globalQuality := f.globalQuality, maxBFrames := f.maxBFrames) == f
    ensures ("cbr" in UpdateOptions(opts, s, alignment)) == ("cbr" in opts)
    ensures "cbr" in opts ==> UpdateOptions(opts, s, alignment)["cbr"] == opts["cbr"]
  {
  }

  /** CBR, and every mode that is neither "cqp" nor "vbr": the "cbr" option
      is set and both rate bounds equal the bitrate in bits per second. */
  lemma UpdateCbr(f: RateFields, s: Settings, opts: map<string, OptionValue>, alignment: int)
    requires !EqualsIgnoreCase(s.rateControl, "cqp") && !EqualsIgnoreCase(s.rateControl, "vbr")
    ensures UpdateFields(f, s).rcMaxRate == UpdateFields(f, s).rcMinRate == Int32Of(s.bitrate) * 1000
    ensures InInt32(s.bitrate) ==> UpdateFields(f, s).rcMinRate == s.bitrate * 1000
    ensures UpdateOptions(opts, s, alignment)["cbr"] == IntOption(1)
    ensures BackendBitrate(s) == Int32Of(s.bitrate)
    ensures UpdateFields(f, s).bitRate == f.bitRate && UpdateFields(f, s).globalQuality == f.globalQuality
  {
  }

  /** VBR: no rate bound and no quantizer is written, and the configured
      bitrate goes to the backend unchanged. */
  lemma UpdateVbr(f: RateFields, s: Settings, opts: map<string, OptionValue>, alignment: int)
    requires EqualsIgnoreCase(s.rateControl, "vbr")
    ensures UpdateFields(f, s) == f.(maxBFrames := Int32Of(s.bf))
    ensures BackendBitrate(s) == Int32Of(s.bitrate)
    ensures ("cbr" in UpdateOptions(opts, s, alignment)) == ("cbr" in opts)
  {
  }

  /** In every mode the b-frame count is written, the string options are
      passed through verbatim, and `bit_rate` is left to the backend. */
  lemma UpdateCommon(f: RateFields, s: Settings, opts: map<string, OptionValue>, alignment: int)
    ensures UpdateFields(f, s).maxBFrames == Int32Of(s.bf)
    ensures UpdateFields(f, s).bitRate == f.bitRate
    ensures UpdateOptions(opts, s, alignment)["rc_mode"] == StrOption(s.rateControl)
    ensures UpdateOptions(opts, s, alignment)["profile"] == StrOption(s.profile)
    ensures UpdateOptions(opts, s, alignment)["v_stride_align"] == IntOption(alignment)
  {
  }

  /** `esmpp_update` never reads `max_bitrate`. */
  lemma UpdateIgnoresMaxBitrate(f: RateFields, s: Settings, m: Int64, opts: map<string, OptionValue>, alignment: int)
    ensures UpdateFields(f, s.(maxBitrate := m)) == UpdateFields(f, s)
    ensures BackendBitrate(s.(maxBitrate := m)) == BackendBitrate(s)
    ensures UpdateOptions(opts, s.(maxBitrate := m), alignment) == UpdateOptions(opts, s, alignment)
  {
  }

  /** `esmpp_reconfigure` on "CBR"/"VBR" sets `bit_rate` and `rc_max_rate` to
      the bitrate in bits per second and keeps `rc_min_rate`; on any other
      mode it changes nothing. */
  lemma ReconfigureRates(f: RateFields, s: Settings)
    requires ReconfigureDefined(s)
    ensures ReconfigureApplies(s.rateControl) ==>
              ReconfigureFields(f, s) == f.(bitRate := s.bitrate * 1000, rcMaxRate := s.bitrate * 1000)
    ensures !ReconfigureApplies(s.rateControl) ==> ReconfigureFields(f, s) == f
    ensures ReconfigureFields(f, s).rcMinRate == f.rcMinRate
  {
  }

  /** Under CQP a reconfiguration is a no-op. */
  lemma ReconfigureCqpNoOp(f: RateFields, s: Settings)
    requires EqualsIgnoreCase(s.rateControl, "cqp")
    ensures ReconfigureDefined(s)
    ensures ReconfigureFields(f, s) == f
  {

  }

  /** The modes `esmpp_reconfigure` acts on are exactly the non-CQP modes
      `esmpp_update` recognises by name; an unrecognised string is CBR to
      `esmpp_update` but ignored by `esmpp_reconfigure`. */
  lemma ReconfigureAppliesToNamedModes(rc: string)
    ensures ReconfigureApplies(rc) <==>
              (UpdateMode(rc) == CBR && EqualsIgnoreCase(rc, "cbr")) || UpdateMode(rc) == VBR
    ensures !ReconfigureApplies("ABR") && UpdateMode("ABR") == CBR
  {
    ModeSpellingsAgree(rc);
    ModeNamesDistinct(rc);
    assert Upper("ABR"[0]) != Upper("cbr"[0]);
    assert Upper("ABR"[0]) != Upper("cqp"[0]);
    assert Upper("ABR"[0]) != Upper("vbr"[0]);
    assert Upper("ABR"[0]) != Upper("VBR"[0]);
  }

  /** A bitrate change under CBR: after `esmpp_update`'s own writes with
      bitrate `b` and `esmpp_reconfigure` with bitrate `b2`, `rc_max_rate`
      follows `b2` while `rc_min_rate` keeps `b`, so the two bounds agree only
      when the bitrate did not change. (No `obs_encoder_info` table registers
      `esmpp_reconfigure`, so the host does not make this call today.) */
  lemma CbrBoundsAfterReconfigure(f: RateFields, s: Settings, b2: Int64)
    requires EqualsIgnoreCase(s.rateControl, "CBR") && InInt32(s.bitrate) && InInt32(b2)
    ensures ReconfigureDefined(s.(bitrate := b2))
    ensures var g := ReconfigureFields(UpdateFields(f, s), s.(bitrate := b2));
            g.rcMinRate == s.bitrate * 1000 && g.rcMaxRate == g.bitRate == b2 * 1000 &&
            (g.rcMinRate == g.rcMaxRate <==> s.bitrate == b2)
  {

  }

  /** With the default settings every codec encodes in CBR at 2500 kbps:
      both rate bounds are 2,500,000 bits per second and there are no
      b-frames; `esmpp_reconfigure` acts on the default mode. */
  lemma DefaultsSelectCbr(codec: Codec, f: RateFields)
    ensures UpdateMode(Defaults(codec).rateControl) == CBR
    ensures ReconfigureApplies(Defaults(codec).rateControl)
    ensures UpdateFields(f, Defaults(codec)).rcMinRate == UpdateFields(f, Defaults(codec)).rcMaxRate == 2_500_000
    ensures UpdateFields(f, Defaults(codec)).maxBFrames == 0
    ensures BackendBitrate(Defaults(codec)) == 2500
  {

  }

  /** Each choice of the properties page's rate-control list is taken by the
      `esmpp_update` branch of the same name. */
  lemma RateControlListModes()
    ensures UpdateMode(RateControlList()[0]) == CBR
    ensures UpdateMode(RateControlList()[1]) == CQP
    ensures UpdateMode(RateControlList()[2]) == VBR
    ensures ReconfigureApplies(RateControlList()[0]) && !ReconfigureApplies(RateControlList()[1])
    ensures ReconfigureApplies(RateControlList()[2])
  {

  }
}
