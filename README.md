# ESMPP encoder plugin: settings-to-codec translation, in Dafny

This project models the configuration layer of OBS Studio's ESMPP H264/HEVC
hardware encoder plugin (`plugins/obs-ffmpeg/obs-ffmpeg-esmpp.c`). The plugin
wraps an FFmpeg encoder. It negotiates the pixel format, turns the user's
rate-control settings into writes on FFmpeg's `AVCodecContext`, decides which
settings the properties page shows, supplies defaults, and hands out the stream
header cut from the first packet.

Modules (one file each):

- `CInts` (`cints.dfy`): the C integer widths, and the `(int)` cast as
  two's-complement truncation (`Int32Of`).
- `CaseInsensitive` (`case_insensitive.dfy`): `astrcmpi(a, b) == 0` as ASCII
  case-insensitive equality (`EqualsIgnoreCase`). It is proved equal to
  equality of the upper-cased strings. It is also proved that the mode names
  the plugin compares against cannot be confused with one another.
- `VideoFormats` (`video_formats.dfy`): `valid_format` (`ValidFormat`),
  the fallback choice (`SelectFormat`), and `esmpp_video_info` as a method
  that overwrites `ScaleInfo.format`.
- `EncoderSettings` (`encoder_settings.dfy`): the `Settings` record, the
  `esmpp_defaults_base` table (`Defaults`), and the choice lists and integer
  ranges of the properties page (`RateControlList`, `ProfileList`, `IntRanges`).
- `RateControl` (`rate_control.dfy`): pure specification functions for the
  writes of `esmpp_update` (`UpdateMode`, `UpdateFields`, `UpdateOptions`,
  `BackendBitrate`) and of `esmpp_reconfigure` (`ReconfigureApplies`,
  `ReconfigureFields`), plus lemmas stating what each mode does.
- `Properties` (`properties.dfy`): the visibility rule of
  `rate_control_modified` (`VisibilityFor`), and a `PropertySheet` class whose
  callback sets the visibility flags.
- `Encoder` (`encoder.dfy`): `CodecContext`, whose fields the plugin
  overwrites, and `EsmppEncoder`, which holds the header and SEI buffers. Its
  methods `Update`, `Reconfigure`, `OnFirstPacket`, `ExtraData`,
  `CreateInternal` and `Create` are proved to perform exactly the writes that
  the `RateControl` and `VideoFormats` functions describe.

Calls into FFmpeg and the host become parameters. These are: the encoder's
preferred format, `video_output_get_info`, `base_get_alignment`, the results
of `ffmpeg_video_encoder_init` and `ffmpeg_video_encoder_init_codec`, and the
NAL-unit splitters. The splitters are function parameters `extractAvc` and
`extractHevc`, and the model proves that the one matching the codec is used.

Integer widths follow the C code. `esmpp_update` reads each integer setting
as `long long` and casts it to `int`, so the model truncates it to 32 bits. It
then forms `bitrate * INT64_C(1000)` in 64 bits, which cannot overflow.
`esmpp_reconfigure` instead multiplies the 64-bit setting by 1000 in 64 bits.
Signed overflow is undefined in C, so `ReconfigureFields` and `Reconfigure`
require that product to fit (`ReconfigureDefined`).

## Model

| member | source | states |
|---|---|---|
| `CInts.Int32Of` | plugins/obs-ffmpeg/obs-ffmpeg-esmpp.c:69-73 | the `(int)` cast gives a 32-bit value congruent to the setting modulo 2^32, and the setting itself when it already fits in 32 bits |
| `CaseInsensitive.EqualsIgnoreCase` | plugins/obs-ffmpeg/obs-ffmpeg-esmpp.c:91-94 | `astrcmpi(a, b) == 0` holds iff both strings have the same length and agree position by position after `toupper` |
| `CaseInsensitive.EqualsIgnoreCaseIsUpperEquality` | plugins/obs-ffmpeg/obs-ffmpeg-esmpp.c:149-150 | case-insensitive equality is the same as equality of the two upper-cased strings (in both directions) |
| `CaseInsensitive.ModeNamesDistinct` | plugins/obs-ffmpeg/obs-ffmpeg-esmpp.c:303-304 | no string matches two of "CBR", "CQP" and "VBR" case-insensitively |
| `CaseInsensitive.ModeSpellingsAgree` | plugins/obs-ffmpeg/obs-ffmpeg-esmpp.c:91-94 | a string matches "cqp" (or "vbr", "cbr") case-insensitively iff it matches the upper-case spelling used by the other callbacks |
| `VideoFormats.ValidFormatIsAllowList` | plugins/obs-ffmpeg/obs-ffmpeg-esmpp.c:35-48 | a format is accepted iff it is one of I420, NV12, YVYU, UYVY, I010, P010 |
| `VideoFormats.SelectFormat` | plugins/obs-ffmpeg/obs-ffmpeg-esmpp.c:50-62 | the negotiated format is always an accepted one, and is the preferred format, the input format or NV12 |
| `VideoFormats.SelectFormatOrder` | plugins/obs-ffmpeg/obs-ffmpeg-esmpp.c:55-62 | the preferred format wins if accepted, otherwise the input format if accepted, otherwise NV12 |
| `VideoFormats.SelectFormatStable` | plugins/obs-ffmpeg/obs-ffmpeg-esmpp.c:57-62 | negotiating again on the negotiated format yields the same format |
| `VideoFormats.ScaleInfo.constructor` | plugins/obs-ffmpeg/obs-ffmpeg-esmpp.c:77-81 | the local scale info starts with the output's format, colorspace and range |
| `VideoFormats.VideoInfo` | plugins/obs-ffmpeg/obs-ffmpeg-esmpp.c:50-64 | `info.format` becomes the negotiated format of the preferred and old formats; colorspace and range are unchanged |
| `EncoderSettings.DefaultProfileListed` | plugins/obs-ffmpeg/obs-ffmpeg-esmpp.c:354-361 | the default profile ("high" for H264, "main" otherwise) is one of the codec's listed profiles, and is the first listed exactly for H264 |
| `EncoderSettings.DefaultsWithinRanges` | plugins/obs-ffmpeg/obs-ffmpeg-esmpp.c:279-286 | the defaults 2500, 5000, 20, 0, 0 lie within the ranges of bitrate, max_bitrate, cqp, keyint_sec and bf, and "CBR" is a listed rate-control choice |
| `RateControl.UpdateMode` | plugins/obs-ffmpeg/obs-ffmpeg-esmpp.c:91-100 | update runs in CQP iff the mode matches "cqp", in VBR iff it matches "vbr", and in CBR for every other string |
| `RateControl.UpdateCqp` | plugins/obs-ffmpeg/obs-ffmpeg-esmpp.c:91-93 | under CQP `global_quality` is the cqp setting and the backend is handed bitrate 0; esmpp_update's own assignments leave the rate bounds, `bit_rate` and the "cbr" option alone (the backend call at line 105 then sets `bit_rate`) |
| `RateControl.UpdateCbr` | plugins/obs-ffmpeg/obs-ffmpeg-esmpp.c:94-99 | for any mode other than "cqp"/"vbr", the "cbr" option is 1 and `rc_max_rate == rc_min_rate == bitrate * 1000`; the backend gets the bitrate |
| `RateControl.UpdateVbr` | plugins/obs-ffmpeg/obs-ffmpeg-esmpp.c:91-105 | under VBR only `max_b_frames` changes, the backend gets the configured bitrate, and the "cbr" option is not added |
| `RateControl.UpdateCommon` | plugins/obs-ffmpeg/obs-ffmpeg-esmpp.c:85-102 | in every mode `max_b_frames = bf` and rc_mode, profile and v_stride_align are set verbatim; esmpp_update's own assignments do not touch `bit_rate`, which the backend call at line 105 sets |
| `RateControl.UpdateIgnoresMaxBitrate` | plugins/obs-ffmpeg/obs-ffmpeg-esmpp.c:68-73 | changing max_bitrate changes none of update's writes and none of the arguments it passes on |
| `RateControl.ReconfigureRates` | plugins/obs-ffmpeg/obs-ffmpeg-esmpp.c:147-157 | for "CBR"/"VBR", `bit_rate = rc_max_rate = bitrate * 1000`; for any other mode nothing changes; `rc_min_rate` never changes |
| `RateControl.ReconfigureCqpNoOp` | plugins/obs-ffmpeg/obs-ffmpeg-esmpp.c:149-155 | under CQP reconfigure is defined and changes no field |
| `RateControl.ReconfigureAppliesToNamedModes` | plugins/obs-ffmpeg/obs-ffmpeg-esmpp.c:149-151 | reconfigure acts iff update runs VBR, or runs CBR on a string that is "cbr"; an unknown string such as "ABR" is CBR to update but ignored by reconfigure |
| `RateControl.CbrBoundsAfterReconfigure` | plugins/obs-ffmpeg/obs-ffmpeg-esmpp.c:151-155 | after update with bitrate b and reconfigure with b2 under CBR, `rc_min_rate` is b*1000 and `rc_max_rate = bit_rate` is b2*1000; they agree iff b == b2 |
| `RateControl.DefaultsSelectCbr` | plugins/obs-ffmpeg/obs-ffmpeg-esmpp.c:279-283 | the default settings select CBR at 2,500,000 bits per second on both bounds with no b-frames, and reconfigure acts on them |
| `RateControl.RateControlListModes` | plugins/obs-ffmpeg/obs-ffmpeg-esmpp.c:326-328 | the listed choices CBR, CQP, VBR take update's branches of the same names; reconfigure acts on CBR and VBR only |
| `Properties.VisibilityFor` | plugins/obs-ffmpeg/obs-ffmpeg-esmpp.c:302-311 | bitrate is shown iff the quantizer is hidden, and max_bitrate is never shown without bitrate |
| `Properties.VisibilityMatchesUpdate` | plugins/obs-ffmpeg/obs-ffmpeg-esmpp.c:303-311 | cqp is shown iff update runs CQP, bitrate iff it does not, and max_bitrate iff it runs VBR |
| `Properties.PropertySheet.constructor` | plugins/obs-ffmpeg/obs-ffmpeg-esmpp.c:316-368 | the page lists CBR/CQP/VBR, the codec's profiles and the integer ranges, with no visibility set yet |
| `Properties.PropertySheet.RateControlModified` | plugins/obs-ffmpeg/obs-ffmpeg-esmpp.c:299-314 | the callback sets exactly the bitrate, max_bitrate and cqp flags to the rule's values and returns true |
| `Encoder.CodecContext.constructor` | plugins/obs-ffmpeg/obs-ffmpeg-esmpp.c:229-233 | the context starts with the fields and options the backend gave it |
| `Encoder.CodecContext.SetOption` | plugins/obs-ffmpeg/obs-ffmpeg-esmpp.c:85-89 | setting a private option changes that option only |
| `Encoder.EsmppEncoder.constructor` | plugins/obs-ffmpeg/obs-ffmpeg-esmpp.c:214-217 | a new encoder has an empty header and SEI and records its codec variant |
| `Encoder.PluginWrites` | plugins/obs-ffmpeg/obs-ffmpeg-esmpp.c:85-102 | esmpp_update's own assignments leave `bit_rate` alone, set `max_b_frames` to bf and set the rc_mode option to the mode string |
| `Encoder.BackendCall` | plugins/obs-ffmpeg/obs-ffmpeg-esmpp.c:77-106 | the backend is handed an accepted format, the output's colorspace and range, and bitrate 0 under CQP or the `(int)` bitrate otherwise |
| `Encoder.CodecContext.ApplyBackend` | plugins/obs-ffmpeg/obs-ffmpeg-esmpp.c:105-139 | the context becomes what the backend calls make of it |
| `Encoder.EsmppEncoder.Update` | plugins/obs-ffmpeg/obs-ffmpeg-esmpp.c:66-140 | the backend is handed `BackendCall` of the settings and the context after `PluginWrites`; the final context is what the backend makes of that; the result is the backend's |
| `Encoder.EsmppEncoder.Reconfigure` | plugins/obs-ffmpeg/obs-ffmpeg-esmpp.c:142-158 | always returns true; the fields become `ReconfigureFields` of the old ones and the options are unchanged |
| `Encoder.EsmppEncoder.OnFirstPacket` | plugins/obs-ffmpeg/obs-ffmpeg-esmpp.c:187-209 | the header, SEI and remaining packet are those of the HEVC splitter for an HEVC encoder and of the AVC splitter otherwise |
| `Encoder.EsmppEncoder.ExtraData` | plugins/obs-ffmpeg/obs-ffmpeg-esmpp.c:384-393 | always succeeds and returns exactly the stored header and its length |
| `Encoder.EsmppEncoder.CreateInternal` | plugins/obs-ffmpeg/obs-ffmpeg-esmpp.c:211-244 | an encoder is returned iff backend init and update both succeed; it is fresh and has an empty header; after a successful init the context is as `Update` leaves it, otherwise unchanged |
| `Encoder.EsmppEncoder.Create` | plugins/obs-ffmpeg/obs-ffmpeg-esmpp.c:246-254 | always builds the H264 variant, with the same success condition and the same new context state as `CreateInternal` |

Combining the constructor's `header == []` with `ExtraData` shows that an
encoder asked for its extra data before any packet gets an empty buffer. After
`OnFirstPacket` it gets exactly the header the splitter produced.

## Left out

- NAL-unit splitting (`obs_extract_avc_headers`, `obs_extract_hevc_headers`) lives in obs-avc/obs-hevc, which are not part of this model. The splitters are function parameters, so byte-exact splitting is not proved.
- That `on_first_packet` runs only once, on the first packet, is decided by `ffmpeg_video_encode`, which is not part of this model. The model proves what one call does.
- `ffmpeg_video_encoder_init`, `ffmpeg_video_encoder_update`, `ffmpeg_video_encoder_init_codec`, `ffmpeg_video_encode` and `ffmpeg_video_encoder_free` are FFmpeg glue outside this file. Their results are parameters.
- Encoder.EsmppEncoder.Update: what `ffmpeg_video_encoder_update` and `ffmpeg_video_encoder_init_codec` write to the context (for example `bit_rate`, which ends at 0 under CQP, `gop_size`, and whatever `ffmpeg_opts` sets) is the parameter `backend`. The model proves which state and which arguments are handed to the backend (`PluginWrites`, `BackendCall`), not what the backend makes of them. The same holds for `CreateInternal` and `Create`.
- The `RateControl` lemmas about `UpdateFields` describe esmpp_update's own assignments only, before the backend call.
- `esmpp_reconfigure` is `static`, and neither `obs_encoder_info` table (lines 395-407 and 410-422) sets `.update`, so as written the host never calls it. The reconfigure lemmas, including `CbrBoundsAfterReconfigure`, describe what the function would do if it were registered.
- `esmpp_encode` only forwards to `ffmpeg_video_encode`. It is not modelled, and neither is the commented-out `dts_offset` adjustment or the `dts_offset` field, which nothing reads.
- `esmpp_destroy` and `on_init_error` are not modelled. They are memory release (`da_free`, `bfree`) and error-message formatting (`av_err2str`, `dstr_*`).
- Logging (`blog`) is not modelled. This includes the local `cqp = 0` in the CBR branch of `esmpp_update`, which only feeds the log line.
- The getname callbacks and the `obs_encoder_info` tables are not modelled. The `ENABLE_HEVC` switch is modelled as the `hevc` flag being present; `Create` passes false, as `esmpp_create` does.
- On the properties page, labels, suffixes and step sizes are not modelled; only the choice lists, the integer bounds and the visibility rule are.
- `av_opt_set` on an option the FFmpeg encoder does not know is not modelled as failing: every option write is recorded in `CodecContext.options`.
- `Upper` follows `toupper` in the "C" locale on ASCII letters. `astrcmpi` compares `char` values one byte at a time; the model compares Unicode characters, which gives the same equality for the ASCII mode names.
- `VideoFormat` lists libobs' `enum video_format` by name. The header that declares it is not part of this model, and only membership in the six accepted formats matters here.
