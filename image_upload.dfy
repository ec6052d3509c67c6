/**
 * Checking an uploaded product image and naming the stored file: the MIME type must be on the
 * allow-list, the size at most 5 MiB, and the file is stored under a fresh UUID with the
 * extension of the uploaded name. The UUID is a parameter; writing the file is not modelled.
 */
module ImageUpload {
  import opened Common
  import opened JsText

  datatype UploadFile = UploadFile(mimeType: string, size: int, name: string)

  datatype UploadError = UnsupportedType(mimeType: string) | TooLarge

  const MAX_UPLOAD_BYTES := 5 * 1024 * 1024
  const ALLOWED_MIME_TYPES: seq<string> := ["image/jpeg", "image/png", "image/webp"]

  /** `file.name.split(".").pop() ?? "jpg"`: `split` never yields an empty list, so the fallback is
      never taken. */
  function Extension(name: string): (ext: string)
    ensures '.' !in ext
  {
    var pieces := Split(name, '.');
    pieces[|pieces| - 1]
  }

  /** `saveUploadedFile`: the type check first, then the size check, then the public URL. */
  function SaveUploadedFile(file: UploadFile, uuid: string): (r: Result<string, UploadError>)
    ensures r.Err? <==> file.mimeType !in ALLOWED_MIME_TYPES || file.size > MAX_UPLOAD_BYTES
    ensures r == Err(TooLarge) ==> file.mimeType in ALLOWED_MIME_TYPES
    ensures r.Ok? ==> r.value == "/uploads/" + uuid + "." + Extension(file.name)
  {
    if file.mimeType !in ALLOWED_MIME_TYPES then Err(UnsupportedType(file.mimeType))
    else if file.size > MAX_UPLOAD_BYTES then Err(TooLarge)
    else Ok("/uploads/" + uuid + "." + Extension(file.name))
  }

  // ---------------------------------------------------------------------------------------------

  /** The extension is what follows the last dot, or the whole name when there is none. */
  lemma ExtensionAfterLastDot(name: string)
    ensures '.' !in name ==> Extension(name) == name
    ensures '.' in name ==> exists stem :: name == stem + "." + Extension(name)
  {
    var pieces := Split(name, '.');
    JoinSplit(name, '.');
    if |pieces| == 1 {
      assert name == pieces[0];
    } else {
      JoinLast(pieces, ".");
      var stem := Join(pieces[..|pieces| - 1], ".");
      assert name == stem + "." + Extension(name);
    }
  }

  /** A file of the wrong type is refused for its type, whatever its size. */
  lemma TypeCheckedFirst(file: UploadFile, uuid: string)
    requires file.mimeType !in ALLOWED_MIME_TYPES
    ensures SaveUploadedFile(file, uuid) == Err(UnsupportedType(file.mimeType))
  {
  }

  /** Exactly 5 MiB of an allowed type is accepted, one byte more is refused. */
  lemma SizeLimitInclusive(mimeType: string, name: string, uuid: string)
    requires mimeType in ALLOWED_MIME_TYPES
    ensures SaveUploadedFile(UploadFile(mimeType, 5242880, name), uuid).Ok?
    ensures SaveUploadedFile(UploadFile(mimeType, 5242881, name), uuid) == Err(TooLarge)
  {
  }

  /** Concrete names: the part after the dot, and a name without a dot. */
  lemma ExtensionExample()
    ensures Extension("a.png") == "png"
    ensures Extension("photo") == "photo"
  {
    var png := Split("png", '.');
    assert png == ["png"] by {
      assert "g"[1..] == "" && "ng"[1..] == "g" && "png"[1..] == "ng";
      assert ['g'] + "" == "g" && ['n'] + "g" == "ng" && ['p'] + "ng" == "png";
      assert [""][1..] == [] && ["g"][1..] == [] && ["ng"][1..] == [];
      assert Split("g", '.') == ["g"];
      assert Split("ng", '.') == ["ng"];
    }
    assert ".png"[1..] == "png" && "a.png"[1..] == ".png";
    assert Split(".png", '.') == [""] + png;
    assert ['a'] + "" == "a";
    assert Split("a.png", '.') == [['a'] + ""] + [png[0]];
    ExtensionAfterLastDot("photo");
  }
}
