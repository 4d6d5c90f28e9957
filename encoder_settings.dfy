/**
 * The encoder's settings as the host stores them, their default values
 * (`esmpp_defaults_base`) and the option lists and integer ranges the
 * properties page offers (`esmpp_properties_internal`).
 */
module EncoderSettings {
  import opened CInts

  /** `enum codec_type`. */
  datatype Codec = H264 | HEVC | AV1

  /** The values the plugin reads from its `obs_data_t` settings. Integer
      settings are 64-bit (`obs_data_get_int` returns `long long`); a string
      that is not set reads as "". */
  datatype Settings = Settings(
    rateControl: string,
    bitrate: Int64,
    maxBitrate: Int64,
    cqp: Int64,
    keyintSec: Int64,
    profile: string,
    bf: Int64,
    ffmpegOpts: string)

  /** The inclusive bounds of an integer property. */
  datatype Range = Range(min: int, max: int)
  {
    predicate Contains(x: int) { min <= x <= max }
  }

  /** `esmpp_defaults_base`: the default of every setting the plugin
      declares; `ffmpeg_opts` has none and reads as "". */
  function Defaults(codec: Codec): Settings
  {
    Settings(
      rateControl := "CBR",
      bitrate := 2500,
      maxBitrate := 5000,
      cqp := 20,
      keyintSec := 0,
      profile := if codec != H264 then "main" else "high",
      bf := 0,
      ffmpegOpts := "")
  }

  /** The rate-control choices of the properties page, in order. */
  function RateControlList(): seq<string>
  {
    ["CBR", "CQP", "VBR"]
  }

  /** The profile choices of the properties page, in order. */
  function ProfileList(codec: Codec): seq<string>
  {
    if codec == HEVC then ["main10", "main"] else ["high", "main", "baseline"]
  }

  /** The bounds of the integer properties, keyed by setting name. */
  function IntRanges(): map<string, Range>
  {
    map[
      "bitrate" := Range(50, 300000),
      "max_bitrate" := Range(50, 300000),
      "cqp" := Range(1, 51),
      "keyint_sec" := Range(0, 10),
      "bf" := Range(0, 4)]
  }

  /** The default profile is one the properties page offers for that codec;
      it is the first choice exactly for H264 ("main10" comes first for HEVC,
      and the non-HEVC list starting with "high" is also used for AV1). */
  lemma DefaultProfileListed(codec: Codec)
    ensures Defaults(codec).profile in ProfileList(codec)
    ensures Defaults(codec).profile == ProfileList(codec)[0] <==> codec == H264
  {
  }

  /** Every integer default lies within the range its property offers, and
      the rate-control default is one of the listed choices. */
  lemma DefaultsWithinRanges(codec: Codec)
    ensures IntRanges()["bitrate"].Contains(Defaults(codec).bitrate)
    ensures IntRanges()["max_bitrate"].Contains(Defaults(codec).maxBitrate)
    ensures IntRanges()["cqp"].Contains(Defaults(codec).cqp)
    ensures IntRanges()["keyint_sec"].Contains(Defaults(codec).keyintSec)
    ensures IntRanges()["bf"].Contains(Defaults(codec).bf)
    ensures Defaults(codec).rateControl in RateControlList()
  {
  }
}
