/** The camera widget (CameraCapture.jsx): a 640x480 screenshot is
    downscaled into 250x200 and encoded as WebP (JPEG where WebP is
    unsupported), kept for preview, and handed to onCapture only when the
    user saves it. The webcam's screenshot and the canvas encoder are
    parameters. */
module CameraCapture {
  import opened Common
  import opened Imaging

  /** The bounds and the default quality (0.25) of the camera's compressToWebP. */
  const FrameMaxWidth := 250
  const FrameMaxHeight := 200
  const FrameQuality: Quality := 25

  /** The size that getScreenshot is asked for. */
  const ScreenshotSize := Dims(640, 480)

  /** The camera's compressToWebP: the shared dimension rule, with neither
      the size floor nor the lower-quality retry of the signature form. */
  method CompressFrame(source: Picture, quality: Quality, encode: Encoder) returns (result: string)
    ensures result == PreferredEncoding(encode, source, FitWithin(source.size, FrameMaxWidth, FrameMaxHeight), quality)
  {
    var width, height := source.size.width, source.size.height;
    if width > height {
      if width > FrameMaxWidth {
        height := RoundedQuotient(height, FrameMaxWidth, width);
        width := FrameMaxWidth;
      }
    } else {
      if height > FrameMaxHeight {
        width := RoundedQuotient(width, FrameMaxHeight, height);
        height := FrameMaxHeight;
      }
    }
    var size := Dims(width, height);
    result := encode(source, size, Webp, quality);
    if result == EmptyPng || StartsWith(result, PngPrefix) {
      result := encode(source, size, Jpeg, quality);
    }
  }

  /** A 640x480 screenshot is drawn onto a 250x188 canvas (187.5 rounded up). */
  lemma ScreenshotFrameSize()
    ensures FitWithin(ScreenshotSize, FrameMaxWidth, FrameMaxHeight) == Dims(250, 188)
  {
    assert RoundedQuotient(480, 250, 640) == 188;
  }

  /** A small frame keeps its size: unlike the signature form, the camera
      enforces no minimum, so a 100x50 source stays 100x50. */
  lemma SmallFrameKeepsSize()
    ensures FitWithin(Dims(100, 50), FrameMaxWidth, FrameMaxHeight) == Dims(100, 50)
  {
  }

  /** `if (imgSrc && ...)`: a data URL held and not empty. */
  predicate Truthy(imgSrc: Option<string>) {
    imgSrc.Some? && imgSrc.value != ""
  }

  /** The buttons the widget renders. */
  datatype Control = ActivateButton | CaptureButton | RetakeButton | SaveButton

  /** What is on screen: the activation button while the camera is off, then
      the capture button until a photo is held, then retake and save. */
  function Controls(cameraActive: bool, imgSrc: Option<string>): (r: set<Control>)
    ensures ActivateButton in r <==> !cameraActive
    ensures CaptureButton in r <==> cameraActive && !Truthy(imgSrc)
    ensures SaveButton in r <==> cameraActive && Truthy(imgSrc)
    ensures RetakeButton in r <==> SaveButton in r
    ensures r != {}
  {
    if !cameraActive then {ActivateButton}
    else if !Truthy(imgSrc) then {CaptureButton}
    else {RetakeButton, SaveButton}
  }

  /** The state of the widget. `delivered` lists the images passed to
      onCapture, oldest first. */
  class Camera {
    var cameraActive: bool
    var imgSrc: Option<string>
    var delivered: seq<string>

    /** A photo is only ever held while the camera is on. */
    predicate Valid()
      reads this
    {
      imgSrc.Some? ==> cameraActive
    }

    /** The buttons on screen now. Because a photo is only held while the
        camera is on, a held photo can always be saved and the activation
        button never shows beside it. */
    function Buttons(): (r: set<Control>)
      reads this
      requires Valid()
      ensures SaveButton in r <==> Truthy(imgSrc)
      ensures imgSrc.Some? ==> ActivateButton !in r
    {
      Controls(cameraActive, imgSrc)
    }

    constructor ()
      ensures Valid()
      ensures !cameraActive && imgSrc == None && delivered == []
    {
      cameraActive := false;
      imgSrc := None;
      delivered := [];
    }

    /** activateCamera. */
    method ActivateCamera()
      requires Valid()
      modifies this
      ensures Valid()
      ensures cameraActive && imgSrc == old(imgSrc) && delivered == old(delivered)
    {
      cameraActive := true;
    }

    /** capture: only reachable once the camera is on, since the webcam
        reference exists only then. The screenshot is None when the video has
        no frame yet; the image then never loads and nothing changes.
        Otherwise the compressed 250x188 frame becomes the preview, and
        onCapture is not called. */
    method Capture(screenshot: Option<string>, encode: Encoder)
      requires Valid() && cameraActive
      modifies this
      ensures Valid() && cameraActive
      ensures screenshot.None? ==> imgSrc == old(imgSrc)
      ensures screenshot.Some? ==>
        imgSrc == Some(PreferredEncoding(encode, Picture(screenshot.value, ScreenshotSize), Dims(250, 188), FrameQuality))
      ensures delivered == old(delivered)
    {
      if screenshot.Some? {
        var compressedImage := CompressFrame(Picture(screenshot.value, ScreenshotSize), FrameQuality, encode);
        ScreenshotFrameSize();
        imgSrc := Some(compressedImage);
      }
    }

    /** retake: drop the preview. */
    method Retake()
      requires Valid()
      modifies this
      ensures Valid()
      ensures imgSrc == None && cameraActive == old(cameraActive) && delivered == old(delivered)
    {
      imgSrc := None;
    }

    /** saveImage: hand the held photo to onCapture, if there is both a
        non-empty photo and a callback. The preview stays. */
    method SaveImage(hasOnCapture: bool)
      requires Valid()
      modifies this
      ensures Valid()
      ensures imgSrc == old(imgSrc) && cameraActive == old(cameraActive)
      ensures Truthy(imgSrc) && hasOnCapture ==> delivered == old(delivered) + [imgSrc.value]
      ensures !(Truthy(imgSrc) && hasOnCapture) ==> delivered == old(delivered)
    {
      if Truthy(imgSrc) && hasOnCapture {
        delivered := delivered + [imgSrc.value];
      }
    }
  }

  /** Every image handed over is a compressed frame: starting from a fresh
      widget, activating, capturing and saving delivers exactly that frame. */
  method CaptureAndSave(screenshot: string, encode: Encoder) returns (delivered: seq<string>)
    ensures var image := PreferredEncoding(encode, Picture(screenshot, ScreenshotSize), Dims(250, 188), FrameQuality);
      delivered == (if image != "" then [image] else [])
  {
    var camera := new Camera();
    camera.ActivateCamera();
    camera.Capture(Some(screenshot), encode);
    camera.SaveImage(true);
    delivered := camera.delivered;
  }
}
