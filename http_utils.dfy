/**
 * Bearer-token extraction from the Authorization header and URL joining
 * (internal/utils/http.go).
 */
module HttpUtils {
  import opened Wrappers
  import opened GoStrings

  /** A header or query map: each key carries the list of its values. */
  type Values = map<string, seq<string>>

  /** The first value of `key`, or "" when the key is absent or has no value (http.Header.Get, url.Values.Get). */
  function FirstValue(m: Values, key: string): (v: string)
    ensures key !in m ==> v == ""
    ensures key in m && |m[key]| > 0 ==> v == m[key][0]
    ensures key in m && |m[key]| == 0 ==> v == ""
  {
    if key in m && |m[key]| > 0 then m[key][0] else ""
  }

  /** The value of the Authorization header. */
  function Authorization(header: Values): string {
    FirstValue(header, "Authorization")
  }

  /** The scheme marker the header value must contain. */
  const BearerMarker: string := "Bearer "

  /** The two ways token extraction fails. */
  datatype TokenError = MissingAuthorization | NotBearer {
    /** The message carried by the error. */
    function Message(): string {
      match this
      case MissingAuthorization => "Authorization header is required"
      case NotBearer => "Authorization header must be Bearer"
    }
  }

  /** Any value containing the marker contains a space, so splitting at spaces gives at least two pieces. */
  lemma BearerValueSplitsInTwo(auth: string)
    requires Contains(auth, BearerMarker)
    ensures ' ' in auth
    ensures |Split(auth, ' ')| >= 2
  {
    ContainsChar(auth, BearerMarker, 6);
    SplitAfterFirst(auth, ' ');
  }

  /**
   * The token of the Authorization header: an empty value is missing, a value
   * without "Bearer " anywhere in it is refused, and otherwise the token is the
   * second space-separated piece of the value.
   */
  function GetHeaderToken(header: Values): (r: Result<string, TokenError>)
    ensures r == Err(MissingAuthorization) <==> Authorization(header) == ""
    ensures r == Err(NotBearer) <==> Authorization(header) != "" && !Contains(Authorization(header), BearerMarker)
    ensures r.Ok? <==> Contains(Authorization(header), BearerMarker)
    ensures r.Ok? ==> ' ' !in r.value
    ensures r.Ok? ==>
      var auth := Authorization(header);
      r.value == TakeUntil(auth[IndexOf(auth, ' ') + 1..], ' ')
  {
    var auth := Authorization(header);
    if auth == "" then Err(MissingAuthorization)
    else if !Contains(auth, BearerMarker) then Err(NotBearer)
    else
      BearerValueSplitsInTwo(auth);
      SplitPartsExcludeSep(auth, ' ');
      SplitAfterFirst(auth, ' ');
      SplitFirst(auth[IndexOf(auth, ' ') + 1..], ' ');
      Ok(Split(auth, ' ')[1])
  }

  /** The token, or "" when extraction fails (the handlers that discard the error). */
  function TokenOrEmpty(header: Values): (t: string)
    ensures GetHeaderToken(header).Err? ==> t == ""
    ensures GetHeaderToken(header).Ok? ==> t == GetHeaderToken(header).value
  {
    match GetHeaderToken(header)
    case Ok(t) => t
    case Err(_) => ""
  }

  /** A header map whose Authorization value is `auth`. */
  function AuthHeader(auth: string): Values {
    map["Authorization" := [auth]]
  }

  /** A value that holds the marker at `at` and its first space at `space` yields the text from there to the next space. */
  lemma TokenAt(auth: string, at: nat, space: nat)
    requires OccursAt(auth, BearerMarker, at)
    requires space < |auth| && auth[space] == ' ' && ' ' !in auth[..space]
    ensures GetHeaderToken(AuthHeader(auth)) == Ok(TakeUntil(auth[space + 1..], ' '))
  {
    ContainsIffOccurs(auth, BearerMarker);
    assert Authorization(AuthHeader(auth)) == auth;
  }

  /** Values with no Authorization text, or without the marker, are refused with distinct errors. */
  lemma GetHeaderTokenErrorExamples()
    ensures GetHeaderToken(map[]) == Err(MissingAuthorization)
    ensures GetHeaderToken(AuthHeader("")) == Err(MissingAuthorization)
    ensures GetHeaderToken(map["Authorization" := []]) == Err(MissingAuthorization)
    ensures GetHeaderToken(AuthHeader("Basic abc")) == Err(NotBearer)
  {
    assert Authorization(AuthHeader("Basic abc")) == "Basic abc";
    if Contains("Basic abc", BearerMarker) {
      ContainsChar("Basic abc", BearerMarker, 1);
      assert false;
    }
  }

  /** The text before the second space of "Bearer abc def". */
  lemma SecondPieceOfExample()
    ensures TakeUntil("abc def", ' ') == "abc"
  {
    var rest := "abc def";
    assert rest[..3] == "abc" && rest[3] == ' ';
    TakeUntilAt(rest, ' ', 3);
  }

  /** Only the piece between the first and the second space is kept. */
  lemma TokenStopsAtNextSpace()
    ensures GetHeaderToken(AuthHeader("Bearer abc def")) == Ok("abc")
  {
    var auth := "Bearer abc def";
    assert auth[0..7] == BearerMarker && auth[..6] == "Bearer";
    TokenAt(auth, 0, 6);
    assert auth[7..] == "abc def";
    SecondPieceOfExample();
  }

  /** A marker with nothing after it yields the empty token. */
  lemma TokenMayBeEmpty()
    ensures GetHeaderToken(AuthHeader("Bearer ")) == Ok("")
  {
    var auth := "Bearer ";
    assert auth[0..7] == BearerMarker && auth[..6] == "Bearer";
    TokenAt(auth, 0, 6);
    assert auth[7..] == "";
  }

  /** The marker need not start the value. */
  lemma MarkerFoundAnywhere()
    ensures GetHeaderToken(AuthHeader("xBearer tok")) == Ok("tok")
  {
    var auth := "xBearer tok";
    assert auth[1..8] == BearerMarker && auth[..7] == "xBearer";
    TokenAt(auth, 1, 7);
    var rest := auth[8..];
    assert rest == "tok";
    TakeUntilIndex(rest, ' ');
  }

  /** The text before the second space of "Basic x Bearer y". */
  lemma SecondPieceOfMisplacedMarker()
    ensures TakeUntil("x Bearer y", ' ') == "x"
  {
    var rest := "x Bearer y";
    assert rest[..1] == "x" && rest[1] == ' ';
    TakeUntilAt(rest, ' ', 1);
  }

  /** The token is the second piece of the whole value, not the text that follows the marker. */
  lemma TokenIsNotAfterMarker()
    ensures GetHeaderToken(AuthHeader("Basic x Bearer y")) == Ok("x")
  {
    var auth := "Basic x Bearer y";
    assert auth[8..15] == BearerMarker && auth[..5] == "Basic";
    TokenAt(auth, 8, 5);
    assert auth[6..] == "x Bearer y";
    SecondPieceOfMisplacedMarker();
  }

  /** The prefix every joined URL starts with. */
  const HttpsPrefix: string := "https://"

  /** JoinURL: "https://", the server and the parts, concatenated in order. */
  function JoinURL(server: string, parts: seq<string>): (url: string)
    ensures url == HttpsPrefix + server + Join(parts, "")
    ensures HasPrefix(url, HttpsPrefix)
    ensures parts == [] ==> url == HttpsPrefix + server
  {
    JoinConcat([HttpsPrefix, server], parts);
    Join([HttpsPrefix, server] + parts, "")
  }

  /** Adding one more part appends exactly that part's text. */
  lemma JoinURLAppend(server: string, parts: seq<string>, last: string)
    ensures JoinURL(server, parts + [last]) == JoinURL(server, parts) + last
  {
    JoinConcat(parts, [last]);
  }
}
