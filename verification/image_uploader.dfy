/**
 * components/ImageUploader.tsx: the type gate, the resize arithmetic that
 * bounds the canvas, and the split of the JPEG data URL. Reading the file,
 * decoding it, drawing and JPEG encoding are browser services and enter as
 * inputs: the outcome of loading, whether a 2D context exists, and the encoder.
 */
module ImageUploader {
  import opened Wrappers
  import opened Text

  /** The longest side the canvas may have. */
  const MAX_SIZE: nat := 1536

  /** `Math.round(num / den)` for a non-negative fraction: rounds to nearest, ties up. */
  function RoundDiv(num: nat, den: nat): (r: nat)
    requires den > 0
    ensures 2 * den * r <= 2 * num + den < 2 * den * r + 2 * den
  {
    (2 * num + den) / (2 * den)
  }

  /** A positive factor can be cancelled from a strict bound. */
  lemma CancelPositiveFactor(d: nat, x: int, y: int)
    requires d > 0 && d * x < d * (y + 1)
    ensures x <= y
  {
  }

  /** Only one integer rounds a fraction this way, so RoundDiv is Math.round exactly. */
  lemma RoundingIsUnique(num: nat, den: nat, r1: nat, r2: nat)
    requires den > 0
    requires 2 * den * r1 <= 2 * num + den < 2 * den * r1 + 2 * den
    requires 2 * den * r2 <= 2 * num + den < 2 * den * r2 + 2 * den
    ensures r1 == r2
  {
    assert 2 * den * (r2 + 1) == 2 * den * r2 + 2 * den;
    assert 2 * den * (r1 + 1) == 2 * den * r1 + 2 * den;
    CancelPositiveFactor(2 * den, r1, r2);
    CancelPositiveFactor(2 * den, r2, r1);
  }

  /** Rounding a fraction no larger than `MAX_SIZE` stays within `MAX_SIZE`. */
  lemma ScaledSideFits(side: nat, longer: nat)
    requires 0 < longer && side <= longer
    ensures RoundDiv(side * MAX_SIZE, longer) <= MAX_SIZE
  {
    var r := RoundDiv(side * MAX_SIZE, longer);
    assert side * MAX_SIZE <= longer * MAX_SIZE;
    assert 2 * longer * (MAX_SIZE + 1) == 2 * longer * MAX_SIZE + 2 * longer;
    CancelPositiveFactor(2 * longer, r, MAX_SIZE);
  }

  /**
   * The canvas size chosen for an image: unchanged when both sides fit,
   * otherwise the longer side (width only when strictly wider) becomes
   * MAX_SIZE and the other is scaled by MAX_SIZE/longer and rounded,
   * keeping the aspect ratio to within half a pixel.
   */
  method ResizeToFit(imgWidth: nat, imgHeight: nat) returns (width: nat, height: nat)
    ensures imgWidth <= MAX_SIZE && imgHeight <= MAX_SIZE ==> width == imgWidth && height == imgHeight
    ensures (imgWidth > MAX_SIZE || imgHeight > MAX_SIZE) && imgWidth > imgHeight ==>
              && width == MAX_SIZE
              && -(imgWidth as int) <= 2 * MAX_SIZE * imgHeight - 2 * imgWidth * height < imgWidth
    ensures (imgWidth > MAX_SIZE || imgHeight > MAX_SIZE) && imgWidth <= imgHeight ==>
              && height == MAX_SIZE
              && -(imgHeight as int) <= 2 * MAX_SIZE * imgWidth - 2 * imgHeight * width < imgHeight
    ensures width <= MAX_SIZE && height <= MAX_SIZE
  {
    width := imgWidth;
    height := imgHeight;
    if width > MAX_SIZE || height > MAX_SIZE {
      if width > height {
        ScaledSideFits(height, width);
        height := RoundDiv(height * MAX_SIZE, width);
        width := MAX_SIZE;
      } else {
        ScaledSideFits(width, height);
        width := RoundDiv(width * MAX_SIZE, height);
        height := MAX_SIZE;
      }
    }
  }

  /** Sizes stay non-negative but not positive: a 10000x1 image gets a canvas of height 0. */
  method ResizeThinImage() returns (width: nat, height: nat)
    ensures width == MAX_SIZE && height == 0
  {
    width, height := ResizeToFit(10000, 1);
  }

  /** How far loading got: the file could not be read, not decoded, or decoded at a size. */
  datatype ImageLoad = ReadError | DecodeError | Decoded(width: nat, height: nat)

  /** The value `processImage` resolves with; `base64` is absent when the URL has no comma. */
  datatype ProcessedImage = ProcessedImage(base64: Option<string>, mimeType: string, previewUrl: string)

  const JPEG_MIME_TYPE := "image/jpeg"
  const CONTEXT_FAILURE := "Could not get canvas context"
  const DECODE_FAILURE := "Failed to load image. The format might not be supported by your browser."
  const READ_FAILURE := "Failed to read file"

  /**
   * `processImage`: each browser failure rejects with its own message;
   * otherwise the encoder's data URL for the resized canvas is the preview,
   * its second comma-separated field the payload, and the type always JPEG.
   * The ghost outputs are the canvas size handed to the encoder.
   */
  method ProcessImage(load: ImageLoad, hasContext: bool, toJpegDataUrl: (nat, nat) -> string)
    returns (r: Result<ProcessedImage>, ghost canvasWidth: nat, ghost canvasHeight: nat)
    ensures load == ReadError ==> r == Failure(READ_FAILURE)
    ensures load == DecodeError ==> r == Failure(DECODE_FAILURE)
    ensures load.Decoded? && !hasContext ==> r == Failure(CONTEXT_FAILURE)
    ensures r.Success? <==> load.Decoded? && hasContext
    ensures r.Success? ==>
              && r.value.mimeType == JPEG_MIME_TYPE
              && r.value.previewUrl == toJpegDataUrl(canvasWidth, canvasHeight)
              && r.value.base64 == SecondField(r.value.previewUrl)
              && canvasWidth <= MAX_SIZE && canvasHeight <= MAX_SIZE
              && (load.width <= MAX_SIZE && load.height <= MAX_SIZE ==>
                    canvasWidth == load.width && canvasHeight == load.height)
    ensures load.Decoded? && (load.width > MAX_SIZE || load.height > MAX_SIZE) && load.width > load.height ==>
              && canvasWidth == MAX_SIZE
              && -(load.width as int) <= 2 * MAX_SIZE * load.height - 2 * load.width * canvasHeight < load.width
    ensures load.Decoded? && (load.width > MAX_SIZE || load.height > MAX_SIZE) && load.width <= load.height ==>
              && canvasHeight == MAX_SIZE
              && -(load.height as int) <= 2 * MAX_SIZE * load.width - 2 * load.height * canvasWidth < load.height
  {
    canvasWidth, canvasHeight := 0, 0;
    match load
    case ReadError =>
      r := Failure(READ_FAILURE);
    case DecodeError =>
      r := Failure(DECODE_FAILURE);
    case Decoded(w, h) =>
      var width, height := ResizeToFit(w, h);
      canvasWidth, canvasHeight := width, height;
      if !hasContext {
        r := Failure(CONTEXT_FAILURE);
      } else {
        var newDataUrl := toJpegDataUrl(width, height);
        var base64Data := SecondField(newDataUrl);
        r := Success(ProcessedImage(base64Data, JPEG_MIME_TYPE, newDataUrl));
      }
  }

  /** For a JPEG data URL whose payload has no comma, the split yields exactly the payload. */
  lemma JpegPayloadExtracted(payload: string)
    requires ',' !in payload
    ensures SecondField("data:image/jpeg;base64," + payload) == Some(payload)
  {
    assert "data:image/jpeg;base64," + payload == "data:image/jpeg;base64" + "," + payload;
    SecondFieldOfJoin("data:image/jpeg;base64", payload);
  }

  /** The file input element; the handler clears its value after processing. */
  class FileInput {
    var value: string

    constructor (value: string)
      ensures this.value == value
    {
      this.value := value;
    }
  }

  /** The chosen file: its declared media type and how loading it goes. */
  datatype SelectedFile = SelectedFile(mediaType: string, load: ImageLoad)

  /** What the change handler did; `Selected` carries the arguments passed to `onImageSelected`. */
  datatype UploadOutcome =
    | NoFile
    | NotAnImage
    | ProcessingFailed(reason: string)
    | Selected(base64: Option<string>, mimeType: string, previewUrl: string)

  /**
   * `handleFileChange`: without a file, nothing happens; a file whose type
   * does not start with "image/" is rejected before processing (and the input
   * keeps its value); otherwise the image is processed, `onImageSelected` is
   * called only on success, and the input is cleared either way.
   */
  method HandleFileChange(input: FileInput, file: Option<SelectedFile>, hasContext: bool, toJpegDataUrl: (nat, nat) -> string)
    returns (outcome: UploadOutcome, ghost canvasWidth: nat, ghost canvasHeight: nat)
    modifies input
    ensures outcome == NoFile <==> file.None?
    ensures outcome == NotAnImage <==> file.Some? && !StartsWith(file.value.mediaType, "image/")
    ensures outcome.ProcessingFailed? <==>
              file.Some? && StartsWith(file.value.mediaType, "image/") && !(file.value.load.Decoded? && hasContext)
    ensures outcome.ProcessingFailed? ==>
              outcome.reason == (if file.value.load.ReadError? then READ_FAILURE
                                 else if file.value.load.DecodeError? then DECODE_FAILURE
                                 else CONTEXT_FAILURE)
    ensures outcome.Selected? <==> file.Some? && StartsWith(file.value.mediaType, "image/") && file.value.load.Decoded? && hasContext
    ensures outcome.Selected? ==> outcome.mimeType == JPEG_MIME_TYPE && outcome.base64 == SecondField(outcome.previewUrl)
    ensures outcome.Selected? ==>
              && outcome.previewUrl == toJpegDataUrl(canvasWidth, canvasHeight)
              && canvasWidth <= MAX_SIZE && canvasHeight <= MAX_SIZE
              && (file.value.load.width <= MAX_SIZE && file.value.load.height <= MAX_SIZE ==>
                    canvasWidth == file.value.load.width && canvasHeight == file.value.load.height)
    ensures outcome.Selected? && (file.value.load.width > MAX_SIZE || file.value.load.height > MAX_SIZE)
            && file.value.load.width > file.value.load.height ==>
              && canvasWidth == MAX_SIZE
              && -(file.value.load.width as int)
                 <= 2 * MAX_SIZE * file.value.load.height - 2 * file.value.load.width * canvasHeight
                 < file.value.load.width
    ensures outcome.Selected? && (file.value.load.width > MAX_SIZE || file.value.load.height > MAX_SIZE)
            && file.value.load.width <= file.value.load.height ==>
              && canvasHeight == MAX_SIZE
              && -(file.value.load.height as int)
                 <= 2 * MAX_SIZE * file.value.load.width - 2 * file.value.load.height * canvasWidth
                 < file.value.load.height
    ensures outcome.ProcessingFailed? ==> outcome.reason in {READ_FAILURE, DECODE_FAILURE, CONTEXT_FAILURE}
    ensures input.value == if outcome == NoFile || outcome == NotAnImage then old(input.value) else ""
  {
    canvasWidth, canvasHeight := 0, 0;
    if file.None? {
      return NoFile, canvasWidth, canvasHeight;
    }
    if !StartsWith(file.value.mediaType, "image/") {
      return NotAnImage, canvasWidth, canvasHeight;
    }
    var r;
    r, canvasWidth, canvasHeight := ProcessImage(file.value.load, hasContext, toJpegDataUrl);
    match r {
      case Success(img) =>
        outcome := Selected(img.base64, img.mimeType, img.previewUrl);
      case Failure(reason) =>
        outcome := ProcessingFailed(reason);
    }
    input.value := "";
  }
}
