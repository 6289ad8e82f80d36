/** Reading a video's geometry and frame rates from the stream description `ffmpeg.probe`
    returns (`cgt/io/ffmpegbase.py`). The probe itself is an input: `None` when ffmpeg
    fails, otherwise the list of streams. */
module Ffmpeg {
  import opened Wrappers
  import opened Text

  /** The fields of one probed stream that are read. */
  datatype Stream = Stream(codecType: string, width: int, height: int, durationTs: int, rFrameRate: string)

  /** What a successful probe stores: `[width, height, duration_ts]`, the frame rates
      (user choice or codec rate, then codec rate) and the bytes per pixel. */
  datatype VideoData = VideoData(frameData: seq<int>, frameRates: seq<real>, bytesPerPixel: int)

  /** The exceptions `probe_video` lets escape. */
  datatype ProbeError =
    | ProbeFailed        // ffmpeg.Error from the probe
    | NoVideoStream      // StopIteration: no stream has codec type "video"
    | NotANumber         // ValueError from float() on a part of the rate
    | MissingDenominator // IndexError: the rate has no '/'
    | ZeroDenominator    // ZeroDivisionError

  /** `next(s for s in streams if s['codec_type'] == 'video')`: the index of the first video stream. */
  function FirstVideoStream(streams: seq<Stream>): (k: Option<nat>)
    ensures k.Some? ==> k.value < |streams| && streams[k.value].codecType == "video"
                        && forall j :: 0 <= j < k.value ==> streams[j].codecType != "video"
    ensures k.None? ==> forall j :: 0 <= j < |streams| ==> streams[j].codecType != "video"
    decreases |streams|
  {
    if |streams| == 0 then None
    else if streams[0].codecType == "video" then Some(0)
    else
      match FirstVideoStream(streams[1..])
      case None => None
      case Some(k) => Some(k + 1)
  }

  /** `float(parts[0]) / float(parts[1])` over the pieces of `r_frame_rate` split at '/'. */
  function CodecFrameRate(rate: string): (r: Result<real, ProbeError>)
    ensures r.Success? ==> '/' in rate
  {
    var parts := Split(rate, '/');
    var num := ParseNat(parts[0]);
    if num.None? then Failure(NotANumber)
    else if |parts| < 2 then
      (SplitNoSeparator(rate); Failure(MissingDenominator))
    else
      var den := ParseNat(parts[1]);
      if den.None? then Failure(NotANumber)
      else if den.value == 0 then Failure(ZeroDenominator)
      else
        (SplitNoSeparator(rate); Success(num.value as real / den.value as real))
  }

  /** A string without the separator splits into itself alone. */
  lemma SplitNoSeparator(s: string)
    ensures '/' !in s ==> Split(s, '/') == [s]
  {
    if '/' !in s {
      SplitPrefix(s, "", '/');
      assert s + "" == s;
    }
  }

  /** A rate written "num/den" with a non-zero denominator reads as num / den; with a zero
      denominator it is refused. */
  lemma {:induction false} CodecFrameRateOfFraction(num: nat, den: nat)
    ensures CodecFrameRate(NatToString(num) + "/" + NatToString(den))
            == if den == 0 then Failure(ZeroDenominator) else Success(num as real / den as real)
  {
    var a, b := NatToString(num), NatToString(den);
    assert '/' !in a by { assert forall i :: 0 <= i < |a| ==> IsDigit(a[i]); }
    assert '/' !in b by { assert forall i :: 0 <= i < |b| ==> IsDigit(b[i]); }
    assert Join([a, b], '/') == a + "/" + b by {
      assert Join([a, b][1..], '/') == b;
    }
    SplitJoin([a, b], '/');
    ParseNatToString(num);
    ParseNatToString(den);
  }

  class FfmpegBase {
    const fileName: string
    var videoData: Option<VideoData>

    /** A reader holds its file name and no video data until probed. */
    constructor (fileName: string)
      ensures this.fileName == fileName && videoData == None
    {
      this.fileName := fileName;
      videoData := None;
    }

    /** `probe_video`: on success the first video stream's width, height and duration and the
        two frame rates are stored; on any exception the stored data is left as it was. */
    method ProbeVideo(userFrameRate: Option<real>, bytesPerPixel: int, probe: Option<seq<Stream>>)
      returns (error: Option<ProbeError>)
      modifies this`videoData
      ensures error.Some? ==> videoData == old(videoData)
      ensures probe.None? ==> error == Some(ProbeFailed)
      ensures probe.Some? && FirstVideoStream(probe.value).None? ==> error == Some(NoVideoStream)
      ensures probe.Some? && FirstVideoStream(probe.value).Some? ==>
                var info := probe.value[FirstVideoStream(probe.value).value];
                match CodecFrameRate(info.rFrameRate)
                case Failure(e) => error == Some(e)
                case Success(codec) =>
                  error == None
                  && videoData.Some?
                  && videoData.value.frameData == [info.width, info.height, info.durationTs]
                  && |videoData.value.frameRates| == 2
                  && videoData.value.frameRates[0] == (if userFrameRate.Some? then userFrameRate.value else codec)
                  && videoData.value.frameRates[1] == codec
                  && videoData.value.bytesPerPixel == bytesPerPixel
    {
      if probe.None? {
        return Some(ProbeFailed);
      }
      var streams := probe.value;
      var found := FirstVideoStream(streams);
      if found.None? {
        return Some(NoVideoStream);
      }
      var videoInfo := streams[found.value];

      var frameData := [videoInfo.width, videoInfo.height, videoInfo.durationTs];

      var codecRate := CodecFrameRate(videoInfo.rFrameRate);
      if codecRate.Failure? {
        return Some(codecRate.error);
      }
      var frameRateCodec := codecRate.value;
      var frameRates: seq<real> := [];
      if userFrameRate.None? {
        frameRates := frameRates + [frameRateCodec];
      } else {
        frameRates := frameRates + [userFrameRate.value];
      }
      frameRates := frameRates + [frameRateCodec];

      videoData := Some(VideoData(frameData, frameRates, bytesPerPixel));
      return None;
    }

    /** `get_video_data`: `None` until a probe has succeeded. */
    function GetVideoData(): (d: Option<VideoData>)
      reads this
      ensures d == videoData
    {
      videoData
    }

    function GetName(): (name: string)
      ensures name == fileName
    {
      fileName
    }
  }
}
