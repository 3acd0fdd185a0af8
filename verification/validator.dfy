/** The upload image check: a size bound, then a MIME allow-list. */
module Validator {
  import opened Options
  import opened Grpc
  import opened Text

  /** What the check reads from an uploaded file: its size in bytes and its
      Content-Type header ("" when absent). */
  datatype FileHeader = FileHeader(size: int, contentType: string)

  const SizeError: Error := Plain("image size exceeds limit")
  const TypeError: Error := Plain("content type is not allowed")

  datatype ImageValidator = ImageValidator(maxSizeBytes: int, allowedMimeTypes: map<string, string>) {

    /** No error exactly when the file is within the bound and its
        lower-cased type is a key of the allow-list; size is judged first. */
    function Validate(file: FileHeader): (r: Option<Error>)
      ensures r == Some(SizeError) <==> file.size > maxSizeBytes
      ensures r == Some(TypeError) <==>
                file.size <= maxSizeBytes && Lower(file.contentType) !in allowedMimeTypes
      ensures r == None <==>
                file.size <= maxSizeBytes && Lower(file.contentType) in allowedMimeTypes
    {
      if file.size > maxSizeBytes then Some(SizeError)
      else
        var contentType := Lower(file.contentType);
        if contentType !in allowedMimeTypes then Some(TypeError)
        else None
    }
  }

  /** The bound is inclusive of its own value and the type is matched
      without regard to case: "IMAGE/PNG" of exactly the maximum size passes
      when "image/png" is allowed. */
  lemma {:induction false} UpperCaseTypeAtLimitAccepted(max: int, ext: string)
    ensures ImageValidator(max, map["image/png" := ext]).Validate(FileHeader(max, "IMAGE/PNG")) == None
  {
    assert Lower("IMAGE/PNG") == "image/png";
  }

  /** A file failing both checks gets the size error. */
  lemma OversizeWinsOverType(v: ImageValidator, file: FileHeader)
    requires file.size > v.maxSizeBytes
    requires Lower(file.contentType) !in v.allowedMimeTypes
    ensures v.Validate(file) == Some(SizeError)
  {
  }
}
