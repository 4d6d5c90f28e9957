/**
 * Pixel-format negotiation of the ESMPP encoder: the allow-list of formats
 * the hardware accepts (`valid_format`) and the three-step choice that
 * `esmpp_video_info` writes into the host's scale info.
 */
module VideoFormats {

  /** libobs' `enum video_format` (the names after `VIDEO_FORMAT_`). */
  datatype VideoFormat =
    | FormatNone | I420 | NV12 | YVYU | YUY2 | UYVY | RGBA | BGRA | BGRX | Y800
    | I444 | BGR3 | I422 | I40A | I42A | YUVA | AYUV | I010 | P010 | I210
    | I412 | YA2L | P216 | P416 | V210 | R10L

  /** The formats the encoder accepts, as a set. */
  const AllowedFormats: set<VideoFormat> := {I420, NV12, YVYU, UYVY, I010, P010}

  /** `valid_format`: the switch over the six accepted formats. */
  predicate ValidFormat(f: VideoFormat)
  {
    match f
    case I420 | NV12 | YVYU | UYVY | I010 | P010 => true
    case _ => false
  }

  /** The switch and the allow-list describe the same formats. */
  lemma ValidFormatIsAllowList(f: VideoFormat)
    ensures ValidFormat(f) <==> f in AllowedFormats
  {
  }

  /** The format `esmpp_video_info` settles on, given the encoder's preferred
      format and the format the host offers. */
  function SelectFormat(preferred: VideoFormat, input: VideoFormat): (r: VideoFormat)
    ensures ValidFormat(r)
    ensures r == preferred || r == input || r == NV12
  {
    if ValidFormat(preferred) then preferred
    else if ValidFormat(input) then input
    else NV12
  }

  /** The fallback order: the preferred format wins when it is accepted, the
      input format next, NV12 last. */
  lemma SelectFormatOrder(preferred: VideoFormat, input: VideoFormat)
    ensures ValidFormat(preferred) ==> SelectFormat(preferred, input) == preferred
    ensures !ValidFormat(preferred) && ValidFormat(input) ==> SelectFormat(preferred, input) == input
    ensures !ValidFormat(preferred) && !ValidFormat(input) ==> SelectFormat(preferred, input) == NV12
  {
  }

  /** Negotiating again on the negotiated format changes nothing. */
  lemma SelectFormatStable(preferred: VideoFormat, input: VideoFormat)
    ensures SelectFormat(preferred, SelectFormat(preferred, input)) == SelectFormat(preferred, input)
  {
  }

  /** The part of libobs' `struct video_scale_info` this plugin touches;
      colorspace and range stand for the host's enumerations. */
  class ScaleInfo {
    var format: VideoFormat
    var colorspace: int
    var range: int

    constructor (format: VideoFormat, colorspace: int, range: int)
      ensures this.format == format && this.colorspace == colorspace && this.range == range
    {
      this.format := format;
      this.colorspace := colorspace;
      this.range := range;
    }
  }

  /** `esmpp_video_info`: overwrites `info.format` with the negotiated format
      and leaves the rest of `info` alone. The encoder's preferred format is a
      host query, so it is a parameter. */
  method VideoInfo(preferred: VideoFormat, info: ScaleInfo)
    modifies info
    ensures info.format == SelectFormat(preferred, old(info.format))
    ensures info.colorspace == old(info.colorspace) && info.range == old(info.range)
  {
    var prefFormat := preferred;
    if !ValidFormat(prefFormat) {
      prefFormat := if ValidFormat(info.format) then info.format else NV12;
    }
    info.format := prefFormat;
  }
}
