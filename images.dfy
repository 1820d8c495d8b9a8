// The coordinate rules and data-URI handling of modules/utils/images.py:
// which crop box each cropping helper asks for (or refuses), and how an image
// file name becomes the header of a "data" URL (RFC 2397) and a data URL
// becomes a file name again. Pixels, files and base64 coding are not part of
// this model; the base64 text is carried as it is.
module Images {
  import opened Wrappers
  import opened Text
  import opened Responses

  /** A crop box `(x1, y1, x2, y2)` in pixels. */
  datatype Box = Box(x1: int, y1: int, x2: int, y2: int)

  /** `crop_image`: coordinates past the right or bottom edge are refused; nothing else is checked. */
  function CropImage(width: int, height: int, coords: Box): (r: Option<Box>)
    ensures r.None? <==> coords.x2 > width || coords.y2 > height
    ensures r.Some? ==> r.value == coords
  {
    if coords.x2 > width || coords.y2 > height then None else Some(coords)
  }

  /** `crop_image_width`: a box `width` wide, the full height, centred horizontally; too wide is refused. */
  function CropImageWidth(imageWidth: int, imageHeight: int, width: int): (r: Option<Box>)
    ensures r.None? <==> width > imageWidth
    ensures r.Some? ==> r.value.x2 - r.value.x1 == width && r.value.y1 == 0 && r.value.y2 == imageHeight
    ensures r.Some? ==> r.value.x1 == (imageWidth - width) / 2
  {
    if width > imageWidth then None
    else
      var x1 := (imageWidth - width) / 2;
      Some(Box(x1, 0, x1 + width, imageHeight))
  }

  /** `crop_image_height`: a box `height` tall, the full width, centred vertically; too tall is refused. */
  function CropImageHeight(imageWidth: int, imageHeight: int, height: int): (r: Option<Box>)
    ensures r.None? <==> height > imageHeight
    ensures r.Some? ==> r.value.y2 - r.value.y1 == height && r.value.x1 == 0 && r.value.x2 == imageWidth
    ensures r.Some? ==> r.value.y1 == (imageHeight - height) / 2
  {
    if height > imageHeight then None
    else
      var y1 := (imageHeight - height) / 2;
      Some(Box(0, y1, imageWidth, y1 + height))
  }

  /** A box inside a `width` by `height` image. */
  predicate Within(b: Box, width: int, height: int)
  {
    0 <= b.x1 <= b.x2 <= width && 0 <= b.y1 <= b.y2 <= height
  }

  /**
   * A centred box of non-negative size lies inside the image, its two margins
   * differ by at most one pixel (the extra one on the far side), and
   * `crop_image` would accept it as it is.
   */
  lemma CentredCropsFit(imageWidth: nat, imageHeight: nat, size: nat)
    ensures var r := CropImageWidth(imageWidth, imageHeight, size);
      r.Some? ==> (Within(r.value, imageWidth, imageHeight) &&
        r.value.x1 <= imageWidth - r.value.x2 <= r.value.x1 + 1 &&
        CropImage(imageWidth, imageHeight, r.value) == r)
    ensures var r := CropImageHeight(imageWidth, imageHeight, size);
      r.Some? ==> (Within(r.value, imageWidth, imageHeight) &&
        r.value.y1 <= imageHeight - r.value.y2 <= r.value.y1 + 1 &&
        CropImage(imageWidth, imageHeight, r.value) == r)
  {
  }

  /** `crop_image` accepts boxes that no cropping rule would produce, negative or inverted ones included. */
  lemma CropImageChecksOnlyFarEdges()
    ensures CropImage(10, 10, Box(-5, 7, 3, 2)) == Some(Box(-5, 7, 3, 2))
  {
  }

  /** `image.file.name.split('.')[-1].lower()`. */
  function FileExtension(fileName: string): (r: string)
    ensures '.' !in r
    ensures forall i :: 0 <= i < |r| ==> !('A' <= r[i] <= 'Z')
    ensures '.' !in fileName ==> r == Lower(fileName)
  {
    var ext := AfterLast(fileName, '.');
    var r := Lower(ext);
    assert forall i :: 0 <= i < |r| ==> r[i] == LowerChar(ext[i]) && ext[i] in ext;
    r
  }

  /** The content type `convert_image_to_datauri` picks for an extension. */
  function ContentType(ext: string): (r: string)
    ensures ext == "png" ==> r == "image/png"
    ensures ext == "jpg" || ext == "jpeg" ==> r == "image/jpeg"
    ensures ext == "webp" ==> r == "image/webp"
    ensures ext !in ["png", "jpg", "jpeg", "webp"] ==> r == "image/" + ext
  {
    if ext == "png" then "image/png"
    else if ext in ["jpg", "jpeg"] then "image/jpeg"
    else if ext == "webp" then "image/webp"
    else "image/" + ext
  }

  /** The subtype a content type names: what follows `image/`. */
  function Subtype(ext: string): string
  {
    if ext == "png" then "png"
    else if ext in ["jpg", "jpeg"] then "jpeg"
    else if ext == "webp" then "webp"
    else ext
  }

  lemma ContentTypeIsImage(ext: string)
    ensures ContentType(ext) == "image/" + Subtype(ext)
  {
  }

  /** `convert_image_to_datauri`: `payload` stands for the base64 text of the file. */
  function DataUri(fileName: string, payload: string): (r: string)
    ensures StartsWith(r, "data:image/")
  {
    ContentTypeIsImage(FileExtension(fileName));
    "data:" + ContentType(FileExtension(fileName)) + ";base64," + payload
  }

  /**
   * `get_image_from_datauri`: the URL must split into exactly two pieces
   * around ";base64," (else unpacking raises); the file is named after the
   * text following the last '/' of the first piece. The second piece is the
   * base64 text, returned undecoded.
   */
  function ImageFromDataUri(datauri: string, filename: string): (r: Result<(string, string), Raised>)
    ensures r.Err? <==> |SplitStr(datauri, ";base64,")| != 2
    ensures r.Ok? ==> r.value.0 == filename + "." + AfterLast(SplitStr(datauri, ";base64,")[0], '/')
    ensures r.Ok? ==> r.value.1 == SplitStr(datauri, ";base64,")[1]
  {
    var parts := SplitStr(datauri, ";base64,");
    if |parts| < 2 then Err(ValueError("not enough values to unpack (expected 2, got 1)"))
    else if |parts| > 2 then Err(ValueError("too many values to unpack (expected 2)"))
    else Ok((filename + "." + AfterLast(parts[0], '/'), parts[1]))
  }

  /**
   * A data URL built from an image file reads back to a file named with the
   * content type's subtype (so `.jpg` comes back as `.jpeg`) and the same
   * base64 text, when the extension holds no '/' or ';' (base64 text never
   * holds ';').
   */
  lemma DataUriRoundTrip(fileName: string, payload: string, filename: string)
    requires '/' !in FileExtension(fileName) && ';' !in FileExtension(fileName) && ';' !in payload
    ensures ImageFromDataUri(DataUri(fileName, payload), filename) ==
      Ok((filename + "." + Subtype(FileExtension(fileName)), payload))
  {
    var ext := FileExtension(fileName);
    var sub := Subtype(ext);
    assert '/' !in sub && ';' !in sub;
    var header := "data:" + ContentType(ext);
    ContentTypeIsImage(ext);
    assert header == "data:image" + ['/'] + sub;
    assert ';' !in header by {
      assert forall i :: 0 <= i < |header| ==> header[i] != ';' by {
        forall i | 0 <= i < |header|
          ensures header[i] != ';'
        {
          if i >= 11 {
            assert header[i] == sub[i - 11];
          }
        }
      }
    }
    assert DataUri(fileName, payload) == header + ";base64," + payload;
    SplitStrAround(header, ";base64,", payload);
    AfterLastAppend("data:image", '/', sub);
  }

  /** A `.jpg` file comes back named `.jpeg`. */
  lemma JpgComesBackAsJpeg(payload: string, filename: string)
    requires ';' !in payload
    ensures ImageFromDataUri(DataUri("photo" + ".jpg", payload), filename) == Ok((filename + "." + "jpeg", payload))
  {
    var ext := "jpg";
    assert "photo" + ".jpg" == "photo" + ['.'] + ext;
    AfterLastAppend("photo", '.', ext);
    var r := Lower(ext);
    assert r[0] == 'j' && r[1] == 'p' && r[2] == 'g';
    assert r == ext;
    assert FileExtension("photo" + ".jpg") == ext;
    assert '/' !in ext && ';' !in ext;
    DataUriRoundTrip("photo" + ".jpg", payload, filename);
  }
}
