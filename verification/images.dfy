/** The images the report is made of, as opaque tokens: decoding, EXIF
    orientation, RGB conversion, thumbnailing and JPEG encoding happen in an
    image library and are not part of this model. */
module Images {

  /** A file as the upload widget hands it over: its original name and bytes. */
  datatype UploadedFile = UploadedFile(name: string, bytes: seq<bv8>)

  /** The temporary JPEG produced from exactly one uploaded file with the
      chosen maximum dimension and quality. */
  datatype NormalizedImage = Normalized(source: UploadedFile, maxDim: int, quality: int)
}
