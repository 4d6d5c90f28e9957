/**
 * The ESMPP encoder object (`struct esmpp_encoder`) and the FFmpeg codec
 * context it configures. The methods perform the writes of `esmpp_update`,
 * `esmpp_reconfigure`, `on_first_packet` and `esmpp_extra_data`; each is
 * proved to match the specification functions of RateControl and
 * VideoFormats. Calls into FFmpeg and the host are parameters.
 */
module Encoder {
  import opened CInts
  import opened CaseInsensitive
  import opened VideoFormats
  import opened EncoderSettings
  import opened RateControl

  /** The fields of FFmpeg's `AVCodecContext` the plugin writes, and the
      encoder's private options (`priv_data`) keyed by name. */
  class CodecContext {
    var bitRate: Int64
    var rcMaxRate: Int64
    var rcMinRate: Int64
    var globalQuality: Int32
    var maxBFrames: Int32
    var options: map<string, OptionValue>

    /** The context as the backend allocated it. */
    constructor (f: RateFields, options: map<string, OptionValue>)
      ensures Fields() == f && this.options == options
    {
      bitRate, rcMaxRate, rcMinRate := f.bitRate, f.rcMaxRate, f.rcMinRate;
      globalQuality, maxBFrames := f.globalQuality, f.maxBFrames;
      this.options := options;
    }

    function Fields(): RateFields
      reads this
    {
      RateFields(bitRate, rcMaxRate, rcMinRate, globalQuality, maxBFrames)
    }

    function State(): ContextState
      reads this
    {
      ContextState(Fields(), options)
    }

    /** `av_opt_set` / `av_opt_set_int` on `priv_data`. */
    method SetOption(name: string, value: OptionValue)
      modifies this
      ensures options == old(options)[name := value]
      ensures Fields() == old(Fields())
    {
      options := options[name := value];
    }

    /** What `ffmpeg_video_encoder_update` and
        `ffmpeg_video_encoder_init_codec` do to the context: FFmpeg glue
        outside this file, so the resulting state is given by `backend`. */
    method ApplyBackend(backend: (ContextState, BackendUpdate) -> ContextState, call: BackendUpdate)
      modifies this
      ensures State() == backend(old(State()), call)
    {
      var after := backend(State(), call);
      bitRate, rcMaxRate, rcMinRate := after.fields.bitRate, after.fields.rcMaxRate, after.fields.rcMinRate;
      globalQuality, maxBFrames := after.fields.globalQuality, after.fields.maxBFrames;
      options := after.options;
    }
  }

  /** The fields and private options of a codec context, as a value. */
  datatype ContextState = ContextState(fields: RateFields, options: map<string, OptionValue>)

  /** The context as `esmpp_update`'s own assignments leave it, just before
      it calls into the backend. */
  function PluginWrites(before: ContextState, s: Settings, alignment: int): (after: ContextState)
    ensures after.fields.bitRate == before.fields.bitRate
    ensures after.fields.maxBFrames == Int32Of(s.bf)
    ensures "rc_mode" in after.options && after.options["rc_mode"] == StrOption(s.rateControl)
  {
    ContextState(UpdateFields(before.fields, s), UpdateOptions(before.options, s, alignment))
  }

  /** The arguments `esmpp_update` hands to `ffmpeg_video_encoder_update`:
      the bitrate in kbps (0 under CQP), the keyframe interval, the output
      info, the negotiated scale info and the raw option string. */
  function BackendCall(s: Settings, preferred: VideoFormat, voi: VideoOutputInfo): (call: BackendUpdate)
    ensures ValidFormat(call.format)
    ensures call.voi == voi && call.colorspace == voi.colorspace && call.range == voi.range
    ensures UpdateMode(s.rateControl) == CQP ==> call.bitrate == 0
    ensures UpdateMode(s.rateControl) != CQP ==> call.bitrate == Int32Of(s.bitrate)
  {
    BackendUpdate(BackendBitrate(s), Int32Of(s.keyintSec), voi,
                  SelectFormat(preferred, voi.format), voi.colorspace, voi.range, s.ffmpegOpts)
  }

  /** What `video_output_get_info` reports about the host's video output. */
  datatype VideoOutputInfo = VideoOutputInfo(format: VideoFormat, colorspace: int, range: int)

  /** The arguments `esmpp_update` passes to `ffmpeg_video_encoder_update`:
      the bitrate and keyframe interval, the video output info `voi`, the
      local scale info (format, colorspace, range) and `ffmpeg_opts`. */
  datatype BackendUpdate = BackendUpdate(
    bitrate: Int32,
    keyintSec: Int32,
    voi: VideoOutputInfo,
    format: VideoFormat,
    colorspace: int,
    range: int,
    ffmpegOpts: string)

  /** What the NAL-unit splitter (`obs_extract_avc_headers` or
      `obs_extract_hevc_headers`) makes of the first packet: the packet
      without its headers, the parameter-set header and the SEI. */
  datatype Extracted = Extracted(packet: seq<Byte>, header: seq<Byte>, sei: seq<Byte>)

  class EsmppEncoder {
    const hevc: bool
    const context: CodecContext
    var header: seq<Byte>
    var sei: seq<Byte>

    /** The zeroed allocation (`bzalloc`) around a context the backend has
        allocated: no header and no SEI yet. */
    constructor (hevc: bool, context: CodecContext)
      ensures this.hevc == hevc && this.context == context
      ensures header == [] && sei == []
    {
      this.hevc := hevc;
      this.context := context;
      header := [];
      sei := [];
    }

    /** `esmpp_update`. The encoder's preferred format, the video output
        info, `base_get_alignment()`, the effect of the two backend calls on
        the context (`backend`) and the result of
        `ffmpeg_video_encoder_init_codec` come from the host and FFmpeg. */
    method Update(s: Settings, preferred: VideoFormat, voi: VideoOutputInfo, alignment: int,
                  backend: (ContextState, BackendUpdate) -> ContextState, initCodecOk: bool)
      returns (ok: bool, call: BackendUpdate)
      modifies context
      ensures call == BackendCall(s, preferred, voi)
      ensures context.State() == backend(PluginWrites(old(context.State()), s, alignment), call)
      ensures ok == initCodecOk
    {
      var rc := s.rateControl;
      var bitrate := Int32Of(s.bitrate);
      var cqp := Int32Of(s.cqp);
      var keyintSec := Int32Of(s.keyintSec);
      var profile := s.profile;
      var bf := Int32Of(s.bf);

      var info := new ScaleInfo(voi.format, voi.colorspace, voi.range);
      VideoInfo(preferred, info);

      context.SetOption("rc_mode", StrOption(rc));
      context.SetOption("profile", StrOption(profile));
      context.SetOption("v_stride_align", IntOption(alignment));

      if EqualsIgnoreCase(rc, "cqp") {
        bitrate := 0;
        context.globalQuality := cqp;
      } else if !EqualsIgnoreCase(rc, "vbr") {
        context.SetOption("cbr", IntOption(1));
        // `bitrate * INT64_C(1000)`: the product is taken in 64 bits.
        var rate: Int64 := bitrate as int * 1000;
        context.rcMaxRate := rate;
        context.rcMinRate := rate;
      }

      context.maxBFrames := bf;

      call := BackendUpdate(bitrate, keyintSec, voi, info.format, info.colorspace, info.range, s.ffmpegOpts);
      context.ApplyBackend(backend, call);
      ok := initCodecOk;
    }

    /** `esmpp_reconfigure`: always reports success. */
    method Reconfigure(s: Settings) returns (ok: bool)
      requires ReconfigureDefined(s)
      modifies context
      ensures ok
      ensures context.Fields() == ReconfigureFields(old(context.Fields()), s)
      ensures context.options == old(context.options)
    {
      var bitrate := s.bitrate;
      var rc := s.rateControl;
      var cbr := EqualsIgnoreCase(rc, "CBR");
      var vbr := EqualsIgnoreCase(rc, "VBR");
      if cbr || vbr {
        var rate: Int64 := bitrate * 1000;
        context.bitRate := rate;
        context.rcMaxRate := rate;
      }
      ok := true;
    }

    /** `on_first_packet`: splits the first packet with the splitter of the
        encoder's codec, keeps the header and SEI, and returns the packet
        that remains. */
    method OnFirstPacket(pkt: seq<Byte>, extractAvc: seq<Byte> -> Extracted, extractHevc: seq<Byte> -> Extracted)
      returns (packet: seq<Byte>)
      modifies this
      ensures var e := if hevc then extractHevc(pkt) else extractAvc(pkt);
              header == e.header && sei == e.sei && packet == e.packet
    {
      var e: Extracted;
      if hevc {
        e := extractHevc(pkt);
      } else {
        e := extractAvc(pkt);
      }
      header, sei := e.header, e.sei;
      packet := e.packet;
    }

    /** `esmpp_extra_data`: the stored header, verbatim, and its length. */
    method ExtraData() returns (ok: bool, data: seq<Byte>, size: nat)
      ensures ok
      ensures data == header && size == |header|
    {
      data := header;
      size := |header|;
      ok := true;
    }

    /** `esmpp_create_internal`: allocates the encoder, lets the backend
        initialise it (`initOk` is that result), applies the settings, and
        yields no encoder when either step fails. */
    static method CreateInternal(s: Settings, hevc: bool, context: CodecContext, initOk: bool,
                                 preferred: VideoFormat, voi: VideoOutputInfo, alignment: int,
                                 backend: (ContextState, BackendUpdate) -> ContextState, initCodecOk: bool)
      returns (enc: EsmppEncoder?)
      modifies context
      ensures enc != null <==> initOk && initCodecOk
      ensures enc != null ==> fresh(enc) && enc.hevc == hevc && enc.context == context
      ensures enc != null ==> enc.header == [] && enc.sei == []
      ensures initOk ==> context.State() == backend(PluginWrites(old(context.State()), s, alignment),
                                                    BackendCall(s, preferred, voi))
      ensures !initOk ==> context.State() == old(context.State())
    {
      var e := new EsmppEncoder(hevc, context);
      if !initOk {
        return null;
      }
      var ok, _ := e.Update(s, preferred, voi, alignment, backend, initCodecOk);
      if !ok {
        return null;
      }
      return e;
    }

    /** `esmpp_create`: always builds the H264 variant. */
    static method Create(s: Settings, context: CodecContext, initOk: bool,
                         preferred: VideoFormat, voi: VideoOutputInfo, alignment: int,
                         backend: (ContextState, BackendUpdate) -> ContextState, initCodecOk: bool)
      returns (enc: EsmppEncoder?)
      modifies context
      ensures enc != null <==> initOk && initCodecOk
      ensures enc != null ==> fresh(enc) && !enc.hevc && enc.context == context
      ensures enc != null ==> enc.header == [] && enc.sei == []
      ensures initOk ==> context.State() == backend(PluginWrites(old(context.State()), s, alignment),
                                                    BackendCall(s, preferred, voi))
      ensures !initOk ==> context.State() == old(context.State())
    {
      enc := CreateInternal(s, false, context, initOk, preferred, voi, alignment, backend, initCodecOk);
    }
  }
}
