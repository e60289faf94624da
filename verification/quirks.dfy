/**
 * The closed catalogue of known deviations of S3-compatible servers from
 * canonical S3 behaviour (the Java enum `Quirk`), with the enum's constant
 * names.
 */
module Quirks {
  datatype Quirk =
    | CHECKSUMS_NOT_SUPPORTED
    | CONTENT_TYPE_NOT_SET_FOR_KEYS_WITH_TRAILING_SLASH
    | ETAG_EMPTY_AFTER_COPY_OBJECT
    | GET_OBJECT_PART_NOT_SUPPORTED
    | GET_OBJECT_PARTCOUNT_NOT_SUPPORTED
    | KEYS_ARE_SORTED_IN_UTF16_BINARY_ORDER
    | KEYS_WITH_CODEPOINT_MIN_REJECTED
    | KEYS_WITH_CODEPOINTS_OUTSIDE_BMP_REJECTED
    | KEYS_WITH_INVALID_UTF8_NOT_REJECTED
    | KEYS_WITH_NULL_NOT_REJECTED
    | KEYS_WITH_NULL_ARE_TRUNCATED
    | KEYS_WITH_SLASHES_CREATE_IMPLICIT_OBJECTS
    | MULTIPART_SIZES_NOT_KEPT
    | PUT_OBJECT_IF_MATCH_ETAG_NOT_SUPPORTED
    | PUT_OBJECT_IF_NONE_MATCH_ETAG_NOT_SUPPORTED
    | PUT_OBJECT_IF_NONE_MATCH_STAR_NOT_SUPPORTED
    | STORAGE_CLASS_NOT_KEPT

  /** The enum constant's name, which is what string concatenation prints for it. */
  function Name(q: Quirk): string
  {
    match q
    case CHECKSUMS_NOT_SUPPORTED => "CHECKSUMS_NOT_SUPPORTED"
    case CONTENT_TYPE_NOT_SET_FOR_KEYS_WITH_TRAILING_SLASH => "CONTENT_TYPE_NOT_SET_FOR_KEYS_WITH_TRAILING_SLASH"
    case ETAG_EMPTY_AFTER_COPY_OBJECT => "ETAG_EMPTY_AFTER_COPY_OBJECT"
    case GET_OBJECT_PART_NOT_SUPPORTED => "GET_OBJECT_PART_NOT_SUPPORTED"
    case GET_OBJECT_PARTCOUNT_NOT_SUPPORTED => "GET_OBJECT_PARTCOUNT_NOT_SUPPORTED"
    case KEYS_ARE_SORTED_IN_UTF16_BINARY_ORDER => "KEYS_ARE_SORTED_IN_UTF16_BINARY_ORDER"
    case KEYS_WITH_CODEPOINT_MIN_REJECTED => "KEYS_WITH_CODEPOINT_MIN_REJECTED"
    case KEYS_WITH_CODEPOINTS_OUTSIDE_BMP_REJECTED => "KEYS_WITH_CODEPOINTS_OUTSIDE_BMP_REJECTED"
    case KEYS_WITH_INVALID_UTF8_NOT_REJECTED => "KEYS_WITH_INVALID_UTF8_NOT_REJECTED"
    case KEYS_WITH_NULL_NOT_REJECTED => "KEYS_WITH_NULL_NOT_REJECTED"
    case KEYS_WITH_NULL_ARE_TRUNCATED => "KEYS_WITH_NULL_ARE_TRUNCATED"
    case KEYS_WITH_SLASHES_CREATE_IMPLICIT_OBJECTS => "KEYS_WITH_SLASHES_CREATE_IMPLICIT_OBJECTS"
    case MULTIPART_SIZES_NOT_KEPT => "MULTIPART_SIZES_NOT_KEPT"
    case PUT_OBJECT_IF_MATCH_ETAG_NOT_SUPPORTED => "PUT_OBJECT_IF_MATCH_ETAG_NOT_SUPPORTED"
    case PUT_OBJECT_IF_NONE_MATCH_ETAG_NOT_SUPPORTED => "PUT_OBJECT_IF_NONE_MATCH_ETAG_NOT_SUPPORTED"
    case PUT_OBJECT_IF_NONE_MATCH_STAR_NOT_SUPPORTED => "PUT_OBJECT_IF_NONE_MATCH_STAR_NOT_SUPPORTED"
    case STORAGE_CLASS_NOT_KEPT => "STORAGE_CLASS_NOT_KEPT"
  }
}
