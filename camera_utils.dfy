/** `CameraManager` (camera_utils.py): probing for the two Pi cameras, their stream configuration,
    the high-resolution snapshot's file name and the 512x512 centre crop sent to the models.
    Opening a camera, capturing and saving are oracles; image sizes are whole numbers. */
module CameraUtils {
  import opened Wrappers
  import opened Text

  // ---------------------------------------------------------------- detection

  /** `CameraManager.detect_cameras`: camera 0 is probed first, camera 1 only when camera 0 was
      found. `opens(n)` says whether `Picamera2(n)` opens. Returns the cameras found and the
      cameras probed, in order. */
  method DetectCameras(opens: nat -> bool) returns (available: seq<nat>, probed: seq<nat>)
    ensures probed == if opens(0) then [0, 1] else [0]
    ensures available == if !opens(0) then [] else if !opens(1) then [0] else [0, 1]
  {
    available := [];
    probed := [0];
    if opens(0) {
      available := available + [0];
    }
    if |available| > 0 {
      probed := probed + [1];
      if opens(1) {
        available := available + [1];
      }
    }
  }

  /** The three possible detection results; camera 1 never shows up without camera 0. */
  lemma DetectionResults(available: seq<nat>, opens: nat -> bool)
    requires available == if !opens(0) then [] else if !opens(1) then [0] else [0, 1]
    ensures available == [] || available == [0] || available == [0, 1]
    ensures 1 in available ==> 0 in available
    ensures forall k | 0 <= k < |available| :: available[k] == k
  {
  }

  // ---------------------------------------------------------------- configuration

  /** A stream's size and pixel format. */
  datatype StreamConfig = StreamConfig(width: nat, height: nat, format: string)

  /** `create_preview_configuration(main=..., lores=...)` */
  datatype CameraConfig = CameraConfig(main: StreamConfig, lores: StreamConfig)

  const RPI5_FORMAT := "XBGR8888"
  const RPI4_FORMAT := "YUV420"

  /** The preview stream of `setup_camera`. `deviceModel` is the contents of
      `/proc/device-tree/model`, `None` when it cannot be read. */
  function PreviewStream(deviceModel: Option<string>): (c: StreamConfig)
    ensures c.width == 640 && c.height == 480
    ensures c.format == RPI5_FORMAT <==> deviceModel.Some? && Contains(deviceModel.value, "Raspberry Pi 5")
    ensures c.format == RPI4_FORMAT <==> !(deviceModel.Some? && Contains(deviceModel.value, "Raspberry Pi 5"))
  {
    var isRpi5 := deviceModel.Some? && Contains(deviceModel.value, "Raspberry Pi 5");
    StreamConfig(640, 480, if isRpi5 then RPI5_FORMAT else RPI4_FORMAT)
  }

  /** The configuration `setup_camera` starts a camera with: a 1640x1232 still stream and the
      preview stream for the board. */
  function SetupConfig(deviceModel: Option<string>): (c: CameraConfig)
    ensures c.main == StreamConfig(1640, 1232, RPI5_FORMAT)
    ensures c.lores == PreviewStream(deviceModel)
  {
    CameraConfig(StreamConfig(1640, 1232, RPI5_FORMAT), PreviewStream(deviceModel))
  }

  /** The preview configuration that `capture_high_res` restores afterwards, whatever the board. */
  const RESTORED_PREVIEW := CameraConfig(StreamConfig(1640, 1232, RPI5_FORMAT), StreamConfig(640, 480, RPI5_FORMAT))

  /** The high-resolution still configuration. */
  const HIGH_RES := CameraConfig(StreamConfig(3280, 2464, RPI5_FORMAT), StreamConfig(3280, 2464, RPI5_FORMAT))

  // ---------------------------------------------------------------- file names

  /** A local time, as `datetime.now()` gives it. */
  datatype DateTime = DateTime(year: nat, month: nat, day: nat, hour: nat, minute: nat, second: nat)

  /** `strftime("%Y%m%d-%H%M%S")` */
  function Timestamp(t: DateTime): (s: string)
    requires t.year < 10000 && t.month < 100 && t.day < 100 && t.hour < 100 && t.minute < 100 && t.second < 100
    ensures |s| == 15 && s[8] == '-'
    ensures forall i | 0 <= i < |s| && i != 8 :: IsDigit(s[i])
    ensures s[0..4] == ZeroPad(t.year, 4) && s[4..6] == ZeroPad(t.month, 2) && s[6..8] == ZeroPad(t.day, 2)
    ensures s[9..11] == ZeroPad(t.hour, 2) && s[11..13] == ZeroPad(t.minute, 2) && s[13..15] == ZeroPad(t.second, 2)
  {
    assert Pow10(2) == 100 && Pow10(4) == 10000;
    NatToStringLength(t.year, 4);
    NatToStringLength(t.month, 2);
    NatToStringLength(t.day, 2);
    NatToStringLength(t.hour, 2);
    NatToStringLength(t.minute, 2);
    NatToStringLength(t.second, 2);
    ZeroPad(t.year, 4) + ZeroPad(t.month, 2) + ZeroPad(t.day, 2) + "-"
      + ZeroPad(t.hour, 2) + ZeroPad(t.minute, 2) + ZeroPad(t.second, 2)
  }

  /** `str(Path.home() / "Pictures")`: one separator between the home directory and `Pictures`. */
  function PicturesDir(home: string): (d: string)
    ensures |home| > 0 && home[|home| - 1] == '/' ==> d == home + "Pictures"
    ensures |home| > 0 && home[|home| - 1] != '/' ==> d == home + "/Pictures"
    ensures |home| == 0 ==> d == "Pictures"
  {
    if |home| == 0 then "Pictures"
    else if home[|home| - 1] == '/' then home + "Pictures"
    else home + "/Pictures"
  }

  /** `os.path.join(pictures_dir, f"Camera{camera_num}_{timestamp}.jpg")` */
  function HighResPath(home: string, cameraNum: nat, timestamp: string): (p: string)
    ensures var name := "Camera" + NatToString(cameraNum) + "_" + timestamp + ".jpg";
            && p == PicturesDir(home) + "/" + name
            && OccursAt(p, name, |p| - |name|)
  {
    var name := "Camera" + NatToString(cameraNum) + "_" + timestamp + ".jpg";
    assert (PicturesDir(home) + "/" + name)[|PicturesDir(home) + "/"|..] == name;
    PicturesDir(home) + "/" + name
  }

  /** `f"camera{camera_num}.jpg"`, the file `capture_and_convert` writes. */
  function ConvertedPath(cameraNum: nat): (p: string)
    ensures "camera" <= p
  {
    "camera" + NatToString(cameraNum) + ".jpg"
  }

  /** The two cameras' converted images are different files, and camera 1's name is what the
      Gemini adapter recognises as the front camera. */
  lemma ConvertedPaths()
    ensures ConvertedPath(1) == "camera1.jpg" && ConvertedPath(2) == "camera2.jpg"
    ensures Contains(ConvertedPath(1), "camera1") && !Contains(ConvertedPath(2), "camera1")
  {
    assert OccursAt(ConvertedPath(1), "camera1", 0);
    var p := ConvertedPath(2);
    assert p == "camera2.jpg";
    forall i | 0 <= i <= |p| - 7 ensures !OccursAt(p, "camera1", i) {
      assert p[i..i + 7][6] == p[i + 6];
      assert "camera1"[0] == 'c' && "camera1"[6] == '1';
    }
  }

  // ---------------------------------------------------------------- crop geometry

  const SIDE := 512

  /** `(left, top, right, bottom)` of `img.crop`. */
  datatype Box = Box(left: int, top: int, right: int, bottom: int)

  /** `a // c` is at least `b` when `a >= b * c`. */
  lemma DivAtLeast(a: nat, b: nat, c: nat)
    requires c > 0 && a >= b * c
    ensures a / c >= b
  {
    var q, m := a / c, a % c;
    assert a == q * c + m && m < c;
    assert (q - b + 1) * c == q * c + c - b * c;
    assert (q - b + 1) * c > 0;
  }

  /** The resize of `capture_and_convert` with the aspect ratio taken exactly: the shorter side
      becomes 512 and the longer one `512 * long / short`, rounded down. */
  function ResizedSize(width: nat, height: nat): (size: (nat, nat))
    requires width > 0 && height > 0
    ensures width > height ==> size.1 == SIDE && size.0 >= SIDE
    ensures width <= height ==> size.0 == SIDE && size.1 >= SIDE
  {
    if width > height then
      DivAtLeast(SIDE * width, SIDE, height);
      (SIDE * width / height, SIDE)
    else
      DivAtLeast(SIDE * height, SIDE, width);
      (SIDE, SIDE * height / width)
  }

  /** The centre crop: `left = (rw - 512) // 2`, `top = (rh - 512) // 2`. */
  function CropBox(rw: int, rh: int): (b: Box)
    ensures b.right - b.left == SIDE && b.bottom - b.top == SIDE
    ensures rw >= SIDE ==> 0 <= b.left && b.right <= rw && 0 <= (rw - b.right) - b.left <= 1
    ensures rh >= SIDE ==> 0 <= b.top && b.bottom <= rh && 0 <= (rh - b.bottom) - b.top <= 1
  {
    var left := (rw - SIDE) / 2;
    var top := (rh - SIDE) / 2;
    Box(left, top, left + SIDE, top + SIDE)
  }

  /** `//` floors, like Dafny's `/` by a positive number, so a frame narrower than 512 gets a box
      that starts left of it. */
  lemma NarrowFrameCrop()
    ensures CropBox(511, 512).left == -1
  {
  }

  /** For every captured frame the crop lies inside the resized image and is centred in it to
      within a pixel, so the result is exactly 512x512 pixels of the image. */
  lemma CropInsideResized(width: nat, height: nat)
    requires width > 0 && height > 0
    ensures var (rw, rh) := ResizedSize(width, height);
            var b := CropBox(rw, rh);
            && 0 <= b.left && b.right <= rw && 0 <= b.top && b.bottom <= rh
            && b.right - b.left == SIDE && b.bottom - b.top == SIDE
            && (rw == SIDE ==> b.left == 0) && (rh == SIDE ==> b.top == 0)
  {
  }

  /** `CameraManager.capture_and_convert`: the converted file's path, or `None` when capturing,
      converting or saving failed (`frame` is `None`) or the frame has no pixels (the aspect-ratio
      division fails). */
  function CaptureAndConvert(cameraNum: nat, frame: Option<(nat, nat)>): (r: Option<string>)
    ensures r.Some? <==> frame.Some? && frame.value.0 > 0 && frame.value.1 > 0
    ensures r.Some? ==> r.value == ConvertedPath(cameraNum)
  {
    if frame.None? || frame.value.0 == 0 || frame.value.1 == 0 then None
    else Some(ConvertedPath(cameraNum))
  }

  // ---------------------------------------------------------------- the camera

  /** A Picamera2 object: its configuration and whether it is started. */
  class Camera {
    var config: CameraConfig
    var started: bool

    constructor (deviceModel: Option<string>)
      ensures config == SetupConfig(deviceModel) && started
    {
      config := SetupConfig(deviceModel);
      started := true;
    }

    /** `CameraManager.capture_high_res(camera, camera_num)`. `shot` says whether the high-resolution
        capture and save succeed, `restores` whether the preview configuration can be set up again.
        The path of the saved picture comes back only when both succeed; in every case the preview
        is restored when it can be, and otherwise the camera is left stopped. */
    method CaptureHighRes(cameraNum: nat, home: string, now: DateTime, shot: bool, restores: bool)
      returns (r: Option<string>)
      requires now.year < 10000 && now.month < 100 && now.day < 100 && now.hour < 100 && now.minute < 100 && now.second < 100
      modifies this
      ensures r.Some? <==> shot && restores
      ensures r.Some? ==> r.value == HighResPath(home, cameraNum, Timestamp(now))
      ensures restores ==> config == RESTORED_PREVIEW && started
      ensures !restores ==> !started
    {
      // stop the preview, switch to the still configuration
      started := false;
      config := HIGH_RES;
      started := true;
      if shot {
        var filepath := HighResPath(home, cameraNum, Timestamp(now));
        started := false;
        if restores {
          config := RESTORED_PREVIEW;
          started := true;
          return Some(filepath);
        }
      }
      // the error path: try to restore the preview once more
      started := false;
      if restores {
        config := RESTORED_PREVIEW;
        started := true;
      }
      return None;
    }
  }
}
