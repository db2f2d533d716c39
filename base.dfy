/** Values shared by every part of the model: optional and failing results,
    bytes, the loosely typed bodies JavaScript lets a response carry, a parsed
    URL, and the foreign functions the code calls but that are not modelled. */
module Base {

  datatype Option<+T> = None | Some(value: T)

  /** A computation that returned normally, or threw an error with a message. */
  datatype Result<+T> = Ok(value: T) | Err(message: string)

  type Byte = b: int | 0 <= b < 256

  /** What `res.body` (and an entry of the artifact cache) can hold:
      nothing (`undefined`), a string, a `Buffer`, or a web stream of bytes. */
  datatype Body = NoBody | Text(text: string) | Bytes(bytes: seq<Byte>) | Stream(data: seq<Byte>)

  /** JavaScript truthiness of a body value: `undefined` and `''` are falsy,
      every object (a buffer, even an empty one, or a stream) is truthy. */
  predicate Truthy(b: Body)
  {
    match b
    case NoBody => false
    case Text(s) => s != ""
    case Bytes(_) => true
    case Stream(_) => true
  }

  /** An optional string that JavaScript treats as truthy: neither
      `undefined` nor `''`. */
  predicate Present(v: Option<string>)
  {
    v.Some? && v.value != ""
  }

  /** A parsed URL: the serialised form and its path component. */
  datatype Url = Url(href: string, pathname: string)

  /** Library and platform functions the code calls, taken as parameters:
      `mime.getType`, `decodeURI`, `decodeURIComponent` (None: URIError),
      base64 and UTF-8 conversions of `Buffer`, `JSON.stringify` of a string
      and of a context record, and `new URL(input, base)` (None: TypeError). */
  datatype Runtime = Runtime(
    mimeType: string -> Option<string>,
    decodeUri: string -> Option<string>,
    decodeUriComponent: string -> Option<string>,
    base64Encode: seq<Byte> -> string,
    base64DecodeToString: string -> string,
    utf8Decode: seq<Byte> -> string,
    utf8Encode: string -> seq<Byte>,
    jsonString: string -> string,
    jsonObject: map<string, string> -> string,
    parseUrl: (string, string) -> Option<Url>)

  /** The message V8 gives the URIError thrown by `decodeURI` and `decodeURIComponent`. */
  const UriMalformed := "URI malformed"

  /** The message of the TypeError `new URL` throws for an input it cannot parse. */
  const InvalidUrl := "Invalid URL"
}
