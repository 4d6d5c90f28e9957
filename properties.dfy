/**
 * The properties page: which of the bitrate, max-bitrate and quantizer
 * fields `rate_control_modified` shows for a rate-control choice, and the
 * lists `esmpp_properties_internal` fills in.
 */
module Properties {
  import opened CaseInsensitive
  import opened EncoderSettings
  import opened RateControl

  /** Visibility of the three mode-dependent properties. */
  datatype Visibility = Visibility(bitrate: bool, maxBitrate: bool, cqp: bool)

  /** The decision `rate_control_modified` makes. */
  function VisibilityFor(rc: string): (v: Visibility)
    ensures v.bitrate == !v.cqp
    ensures v.maxBitrate ==> v.bitrate
  {
    ModeNamesDistinct(rc);
    var cqp := EqualsIgnoreCase(rc, "CQP");
    var vbr := EqualsIgnoreCase(rc, "VBR");
    Visibility(!cqp, vbr, cqp)
  }

  /** The page shows exactly the fields `esmpp_update` reads for the mode it
      will run in: the quantizer for CQP, the bitrate otherwise, and the
      max bitrate for VBR (which `esmpp_update` nevertheless never reads). */
  lemma VisibilityMatchesUpdate(rc: string)
    ensures VisibilityFor(rc).cqp <==> UpdateMode(rc) == CQP
    ensures VisibilityFor(rc).bitrate <==> UpdateMode(rc) != CQP
    ensures VisibilityFor(rc).maxBitrate <==> UpdateMode(rc) == VBR
  {

  }

  /** The host's `obs_properties_t` for this encoder, reduced to what the
      plugin decides: the choice lists, the integer ranges and the
      visibility flags it has set so far, keyed by property name. */
  class PropertySheet {
    var rateControlChoices: seq<string>
    var profileChoices: seq<string>
    var intRanges: map<string, Range>
    var visible: map<string, bool>

    /** `esmpp_properties_internal`: no visibility is set until the
        rate-control callback runs. */
    constructor (codec: Codec)
      ensures rateControlChoices == RateControlList()
      ensures profileChoices == ProfileList(codec)
      ensures intRanges == IntRanges()
      ensures visible == map[]
    {
      rateControlChoices := ["CBR", "CQP", "VBR"];
      profileChoices := if codec == HEVC then ["main10", "main"] else ["high", "main", "baseline"];
      intRanges := IntRanges();
      visible := map[];
    }

    /** `rate_control_modified`: sets the three visibility flags for the
        selected mode and asks the host to refresh the page. */
    method RateControlModified(s: Settings) returns (refresh: bool)
      modifies this
      ensures refresh
      ensures visible == old(visible)["bitrate" := VisibilityFor(s.rateControl).bitrate]
                                     ["max_bitrate" := VisibilityFor(s.rateControl).maxBitrate]
                                     ["cqp" := VisibilityFor(s.rateControl).cqp]
      ensures rateControlChoices == old(rateControlChoices) && profileChoices == old(profileChoices)
      ensures intRanges == old(intRanges)
    {
      var rc := s.rateControl;
      var cqp := EqualsIgnoreCase(rc, "CQP");
      var vbr := EqualsIgnoreCase(rc, "VBR");
      visible := visible["bitrate" := !cqp];
      visible := visible["max_bitrate" := vbr];
      visible := visible["cqp" := cqp];
      refresh := true;
    }
  }
}
