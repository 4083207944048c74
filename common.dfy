/** Vocabulary shared by the backend and frontend modules: optional values
    (JavaScript's null/undefined), HTTP error replies and handler results. */
module Common {

  /** A value that may be absent (null or undefined in the source). */
  datatype Option<+T> = None | Some(value: T) {
    /** The value, or `default` when absent (the source's `x ?? default`). */
    function GetOr(default: T): T {
      match this
      case Some(v) => v
      case None => default
    }
  }

  /** The client errors and the server error the Express handlers reply with. */
  datatype HttpError = BadRequest | Unauthorized | Forbidden | NotFound | ServerError

  /** The HTTP status code sent for each error. */
  function Code(e: HttpError): (c: int)
    ensures 400 <= c < 600
    ensures c < 500 <==> !e.ServerError?
    ensures e.BadRequest? ==> c == 400
    ensures e.Unauthorized? ==> c == 401
    ensures e.Forbidden? ==> c == 403
    ensures e.NotFound? ==> c == 404
    ensures e.ServerError? ==> c == 500
  {
    match e
    case BadRequest => 400
    case Unauthorized => 401
    case Forbidden => 403
    case NotFound => 404
    case ServerError => 500
  }

  /** What a handler replies: a success body or an error status. */
  datatype Result<+T> = Ok(value: T) | Err(error: HttpError)

  /** JavaScript truthiness of an optional string: null, undefined and '' are falsy. */
  predicate Truthy(s: Option<string>) {
    s.Some? && s.value != ""
  }

  /** JavaScript `s.split(sep)` for a one-character separator: the pieces between
      separators, empty pieces included. */
  function Split(s: string, sep: char): (r: seq<string>)
    ensures |r| >= 1
    ensures sep in s ==> |r| >= 2
  {
    if s == [] then [""]
    else if s[0] == sep then [""] + Split(s[1..], sep)
    else
      var rest := Split(s[1..], sep);
      [[s[0]] + rest[0]] + rest[1..]
  }

  /** A string with no separator splits to itself. */
  lemma {:induction false} SplitNoSeparator(w: string, sep: char)
    requires sep !in w
    ensures Split(w, sep) == [w]
  {
    if w != [] {
      SplitNoSeparator(w[1..], sep);
      assert [w[0]] + w[1..] == w;
    }
  }

  /** A separator-free first piece followed by the separator splits off as the first piece. */
  lemma {:induction false} SplitFirstPiece(w: string, rest: string, sep: char)
    requires sep !in w
    ensures Split(w + [sep] + rest, sep) == [w] + Split(rest, sep)
  {
    if w == [] {
      assert w + [sep] + rest == [sep] + rest;
    } else {
      assert (w + [sep] + rest)[1..] == w[1..] + [sep] + rest;
      SplitFirstPiece(w[1..], rest, sep);
      assert [w[0]] + w[1..] == w;
    }
  }

  /** The white space `trim` and `parseInt` skip, as far as this model knows it: space, tab,
      line feed, vertical tab, form feed, carriage return, no-break space, the byte order
      mark and the two Unicode line terminators. */
  predicate IsSpace(c: char) {
    c == ' ' || c == '\t' || c == '\n' || c == '\U{B}' || c == '\U{C}' || c == '\r'
    || c == '\U{A0}' || c == '\U{FEFF}' || c == '\U{2028}' || c == '\U{2029}'
  }

  /** The string without its leading white space. */
  function TrimStart(s: string): (r: string)
    ensures |r| <= |s| && r == s[|s| - |r|..]
    ensures r == [] || !IsSpace(r[0])
    ensures forall k :: 0 <= k < |s| - |r| ==> IsSpace(s[k])
  {
    if s != [] && IsSpace(s[0]) then TrimStart(s[1..]) else s
  }
}
