/**
 * SOCKS5 authentication: method negotiation (section 3 of RFC 1928) and the
 * two authenticators, "no authentication" and username/password (section 2
 * of RFC 1929).
 *
 * Every exchange is given twice: as a pure function that says what the
 * exchange does to a connection whose unread input is `input` (an `Outcome`),
 * and as a method over a `Reader` and a `Writer` that performs it step by
 * step, as the server does, and is proved to have exactly that outcome.
 */
module Auth {
  import opened Bytes
  import opened Stream
  import Credentials

  /** A method code of the negotiation (the METHOD field of RFC 1928). */
  newtype AuthMethodCode = x: int | 0 <= x < 256 {

    /** The name of a code; every code the server does not know is "unknown". */
    function String(): (s: string)
      ensures this as int <= 2 ==> s != "unknown"
      ensures this as int > 2 ==> s == "unknown"
    {
      if this == 0 then "NoAuth"
      else if this == 1 then "GSSAPI"
      else if this == 2 then "UserPassAuth"
      else "unknown"
    }
  }

  const NoAuth: AuthMethodCode := 0
  const UserPassAuth: AuthMethodCode := 2

  /** VER of RFC 1928. */
  const Socks5Version: byte := 5
  /** VER of the RFC 1929 sub-negotiation. */
  const UserAuthVersion: byte := 1
  /** The METHOD value that refuses every offered method. */
  const NoAcceptable: byte := 255
  const AuthSuccess: byte := 0
  const AuthFailure: byte := 1

  /** What a successful negotiation hands on: the method used and what it learned. */
  datatype AuthContext = AuthContext(authMethod: AuthMethodCode, payload: map<string, string>)

  /** The kinds of error the negotiation returns; message texts are not modelled. */
  datatype AuthError =
    | IOError                                      // the stream ended before a field was complete
    | AuthMethodsReadFailed                        // readMethods failed, as reported by authenticate
    | UnsupportedAuthVersion(version: byte)        // sub-negotiation VER is not 1
    | UserAuthFailed                               // the credentials were rejected
    | NoSupportedAuth(methods: seq<AuthMethodCode>) // no offered method is configured

  datatype Result<+T> = Ok(value: T) | Err(error: AuthError)

  /**
   * The effect of one exchange on a connection: its result, how many input
   * bytes it read, and the bytes it wrote back.
   */
  datatype Outcome<+T> = Outcome(result: Result<T>, consumed: nat, written: seq<byte>)

  /** A configured authenticator; the credential store is the map-backed one. */
  datatype Authenticator =
    | NoAuthAuthenticator
    | UserPassAuthenticator(credentials: Credentials.StaticCredentials)
  {
    function GetCode(): (c: AuthMethodCode)
      ensures c == NoAuth <==> NoAuthAuthenticator?
      ensures c == UserPassAuth <==> UserPassAuthenticator?
    {
      if NoAuthAuthenticator? then NoAuth else UserPassAuth
    }

    /** Runs this authenticator's exchange on the connection. */
    method Authenticate(reader: Reader, writer: Writer) returns (r: Result<AuthContext>)
      modifies reader, writer
      ensures var o := AuthenticatorOutcome(this, old(reader.unread));
        && r == o.result
        && reader.unread == old(reader.unread)[o.consumed..]
        && writer.written == old(writer.written) + o.written
    {
      match this
      case NoAuthAuthenticator =>
        r := NoAuthAuthenticate(writer);
      case UserPassAuthenticator(credentials) =>
        r := UserPassAuthenticate(credentials, reader, writer);
    }
  }

  /** The method codes of a byte string, in order. */
  function Codes(b: seq<byte>): (methods: seq<AuthMethodCode>)
    ensures |methods| == |b|
    ensures forall i :: 0 <= i < |b| ==> methods[i] as int == b[i] as int
  {
    seq(|b|, i requires 0 <= i < |b| => b[i] as AuthMethodCode)
  }

  // ---------------------------------------------------------------------
  // What each exchange does
  // ---------------------------------------------------------------------

  /** Reading NMETHODS and then that many method codes. */
  function ReadMethodsOutcome(input: seq<byte>): (o: Outcome<seq<AuthMethodCode>>)
    ensures o.consumed <= |input| && o.written == []
    ensures o.result.Ok? <==> |input| >= 1 && |input| >= 1 + input[0] as int
    ensures o.result.Err? ==> o.result.error == IOError && o.consumed == |input|
  {
    if |input| == 0 then Outcome(Err(IOError), 0, [])
    else
      var n := input[0] as nat;
      if 1 + n <= |input| then Outcome(Ok(Codes(input[1..1 + n])), 1 + n, [])
      else Outcome(Err(IOError), |input|, [])
  }

  /** "No authentication": accept at once. */
  function NoAuthOutcome(): (o: Outcome<AuthContext>)
    ensures o.result.Ok? && o.result.value.authMethod == NoAuth && |o.result.value.payload| == 0
    ensures o.consumed == 0 && o.written == [Socks5Version, NoAuth as byte]
  {
    Outcome(Ok(AuthContext(NoAuth, map[])), 0, [Socks5Version, NoAuth as byte])
  }

  /** Username/password: announce the method, read the sub-negotiation, check it. */
  function UserPassOutcome(credentials: Credentials.StaticCredentials, input: seq<byte>): (o: Outcome<AuthContext>)
    ensures o.consumed <= |input|
    ensures |o.written| >= 2 && o.written[..2] == [Socks5Version, UserPassAuth as byte]
  {
    var announce := [Socks5Version, UserPassAuth as byte];
    if |input| < 2 then Outcome(Err(IOError), |input|, announce)
    else if input[0] != UserAuthVersion then Outcome(Err(UnsupportedAuthVersion(input[0])), 2, announce)
    else
      var userLen := input[1] as nat;
      if |input| < 2 + userLen then Outcome(Err(IOError), |input|, announce)
      else
        var user := input[2..2 + userLen];
        if |input| < 3 + userLen then Outcome(Err(IOError), |input|, announce)
        else
          var passLen := input[2 + userLen] as nat;
          if |input| < 3 + userLen + passLen then Outcome(Err(IOError), |input|, announce)
          else
            var pass := input[3 + userLen..3 + userLen + passLen];
            var consumed := 3 + userLen + passLen;
            if Credentials.Valid(credentials, ByteString(user), ByteString(pass)) then
              Outcome(Ok(AuthContext(UserPassAuth, map["Username" := ByteString(user)])),
                      consumed, announce + [UserAuthVersion, AuthSuccess])
            else
              Outcome(Err(UserAuthFailed), consumed, announce + [UserAuthVersion, AuthFailure])
  }

  function AuthenticatorOutcome(a: Authenticator, input: seq<byte>): (o: Outcome<AuthContext>)
    ensures o.consumed <= |input|
  {
    match a
    case NoAuthAuthenticator => NoAuthOutcome()
    case UserPassAuthenticator(credentials) => UserPassOutcome(credentials, input)
  }

  /** The position of the first offered code that the table configures, in client order. */
  function FirstConfigured(authMethods: map<AuthMethodCode, Authenticator>, methods: seq<AuthMethodCode>): (i: Option<nat>)
    ensures i.Some? ==> i.value < |methods| && methods[i.value] in authMethods
    ensures i.Some? ==> forall j :: 0 <= j < i.value ==> methods[j] !in authMethods
    ensures i.None? ==> forall j :: 0 <= j < |methods| ==> methods[j] !in authMethods
  {
    if |methods| == 0 then None
    else if methods[0] in authMethods then Some(0)
    else
      match FirstConfigured(authMethods, methods[1..])
      case None => None
      case Some(i) => Some(i + 1)
  }

  /** The whole negotiation, from NMETHODS on. */
  function AuthenticateOutcome(authMethods: map<AuthMethodCode, Authenticator>, input: seq<byte>): (o: Outcome<AuthContext>)
    ensures o.consumed <= |input|
  {
    var m := ReadMethodsOutcome(input);
    if m.result.Err? then Outcome(Err(AuthMethodsReadFailed), m.consumed, [])
    else
      var methods := m.result.value;
      match FirstConfigured(authMethods, methods)
      case Some(i) =>
        var a := AuthenticatorOutcome(authMethods[methods[i]], input[m.consumed..]);
        Outcome(a.result, m.consumed + a.consumed, a.written)
      case None =>
        Outcome(Err(NoSupportedAuth(methods)), m.consumed, [Socks5Version, NoAcceptable])
  }

  // ---------------------------------------------------------------------
  // The exchanges, step by step
  // ---------------------------------------------------------------------

  method NoAuthAuthenticate(writer: Writer) returns (r: Result<AuthContext>)
    modifies writer
    ensures r == NoAuthOutcome().result
    ensures writer.written == old(writer.written) + NoAuthOutcome().written
  {
    writer.Write([Socks5Version, NoAuth as byte]);
    r := Ok(AuthContext(NoAuth, map[]));
  }

  method UserPassAuthenticate(credentials: Credentials.StaticCredentials, reader: Reader, writer: Writer)
    returns (r: Result<AuthContext>)
    modifies reader, writer
    ensures var o := UserPassOutcome(credentials, old(reader.unread));
      && r == o.result
      && reader.unread == old(reader.unread)[o.consumed..]
      && writer.written == old(writer.written) + o.written
  {
    ghost var input := reader.unread;
    ghost var o := UserPassOutcome(credentials, input);
    ghost var announce := [Socks5Version, UserPassAuth as byte];
    writer.Write([Socks5Version, UserPassAuth as byte]);

    var header := new byte[2];
    var ok := reader.ReadFull(header, 2);
    if !ok {
      assert o == Outcome(Err(IOError), |input|, announce);
      return Err(IOError);
    }
    if header[0] != UserAuthVersion {
      assert o == Outcome(Err(UnsupportedAuthVersion(input[0])), 2, announce);
      return Err(UnsupportedAuthVersion(header[0]));
    }

    var userLen := header[1] as nat;
    var user := new byte[userLen];
    ok := reader.ReadFull(user, userLen);
    if !ok {
      assert o == Outcome(Err(IOError), |input|, announce);
      return Err(IOError);
    }
    assert reader.unread == input[2 + userLen..];
    assert user[..] == user[..userLen] == input[2..2 + userLen];

    ok := reader.ReadFull(header, 1);
    if !ok {
      assert o == Outcome(Err(IOError), |input|, announce);
      return Err(IOError);
    }
    assert reader.unread == input[3 + userLen..];

    var passLen := header[0] as nat;
    var pass := new byte[passLen];
    ok := reader.ReadFull(pass, passLen);
    if !ok {
      assert o == Outcome(Err(IOError), |input|, announce);
      return Err(IOError);
    }
    assert reader.unread == input[3 + userLen + passLen..];
    assert pass[..] == pass[..passLen] == input[3 + userLen..3 + userLen + passLen];

    if Credentials.Valid(credentials, ByteString(user[..]), ByteString(pass[..])) {
      writer.Write([UserAuthVersion, AuthSuccess]);
    } else {
      writer.Write([UserAuthVersion, AuthFailure]);
      assert o == Outcome(Err(UserAuthFailed), 3 + userLen + passLen, announce + [UserAuthVersion, AuthFailure]);
      return Err(UserAuthFailed);
    }
    r := Ok(AuthContext(UserPassAuth, map["Username" := ByteString(user[..])]));
    assert o == Outcome(r, 3 + userLen + passLen, announce + [UserAuthVersion, AuthSuccess]);
  }

  method ReadMethods(reader: Reader) returns (r: Result<seq<AuthMethodCode>>)
    modifies reader
    ensures var o := ReadMethodsOutcome(old(reader.unread));
      r == o.result && reader.unread == old(reader.unread)[o.consumed..]
  {
    ghost var input := reader.unread;
    var header := new byte[1];
    var ok := reader.ReadFull(header, 1);
    if !ok {
      return Err(IOError);
    }
    assert header[0] == input[0] && reader.unread == input[1..];

    var numMethods := header[0] as nat;
    var methods := new byte[numMethods];
    ok := reader.ReadFull(methods, numMethods);
    assert ok ==> methods[..] == methods[..numMethods] == input[1..][..numMethods];
    var aliased := new AuthMethodCode[methods.Length];
    for k := 0 to methods.Length
      modifies aliased
      invariant forall j :: 0 <= j < k ==> aliased[j] as int == methods[j] as int
    {
      aliased[k] := methods[k] as AuthMethodCode;
    }
    if !ok {
      return Err(IOError);
    }
    assert methods[..] == input[1..1 + numMethods];
    assert aliased[..] == Codes(methods[..]);
    r := Ok(aliased[..]);
  }

  /** Refuses every offered method. */
  method NoAcceptableAuth(conn: Writer, methods: seq<AuthMethodCode>) returns (e: AuthError)
    modifies conn
    ensures e == NoSupportedAuth(methods)
    ensures conn.written == old(conn.written) + [Socks5Version, NoAcceptable]
  {
    conn.Write([Socks5Version, NoAcceptable]);
    e := NoSupportedAuth(methods);
  }

  /**
   * The server side of the negotiation: read the offered methods, run the
   * authenticator of the first one the table configures, or refuse.
   */
  method Authenticate(authMethods: map<AuthMethodCode, Authenticator>, conn: Writer, bufConn: Reader)
    returns (r: Result<AuthContext>)
    modifies conn, bufConn
    ensures var o := AuthenticateOutcome(authMethods, old(bufConn.unread));
      && r == o.result
      && bufConn.unread == old(bufConn.unread)[o.consumed..]
      && conn.written == old(conn.written) + o.written
  {
    ghost var input := bufConn.unread;
    var read := ReadMethods(bufConn);
    if read.Err? {
      return Err(AuthMethodsReadFailed);
    }
    var methods := read.value;
    ghost var consumed := ReadMethodsOutcome(input).consumed;

    for k := 0 to |methods|
      invariant bufConn.unread == input[consumed..]
      invariant conn.written == old(conn.written)
      invariant forall j :: 0 <= j < k ==> methods[j] !in authMethods
    {
      if methods[k] in authMethods {
        assert FirstConfigured(authMethods, methods) == Some(k);
        r := authMethods[methods[k]].Authenticate(bufConn, conn);
        ghost var a := AuthenticatorOutcome(authMethods[methods[k]], input[consumed..]);
        assert input[consumed..][a.consumed..] == input[consumed + a.consumed..];
        return;
      }
    }
    assert FirstConfigured(authMethods, methods) == None;
    var e := NoAcceptableAuth(conn, methods);
    r := Err(e);
  }
}
