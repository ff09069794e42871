/**
 * Properties of the negotiation, stated over the outcome functions that the
 * server's methods are proved to follow. The client side of each message is
 * written out as an encoder, so that most properties read as "what the
 * server does with a well-formed message".
 */
module AuthProperties {
  import opened Bytes
  import opened Auth
  import Credentials

  /** The client's offer after VER: NMETHODS, then the codes in the client's order. */
  function EncodeMethods(methods: seq<AuthMethodCode>): (b: seq<byte>)
    requires |methods| < 256
    ensures |b| == 1 + |methods| && b[0] as int == |methods|
    ensures forall i :: 0 <= i < |methods| ==> b[1 + i] as int == methods[i] as int
  {
    [|methods| as byte] + seq(|methods|, i requires 0 <= i < |methods| => methods[i] as byte)
  }

  /** The RFC 1929 request: VER = 1, ULEN, UNAME, PLEN, PASSWD. */
  function EncodeUserPass(user: seq<byte>, pass: seq<byte>): (b: seq<byte>)
    requires |user| < 256 && |pass| < 256
    ensures |b| == 3 + |user| + |pass|
    ensures b[0] == UserAuthVersion && b[1] as int == |user| && b[2 + |user|] as int == |pass|
    ensures b[2..2 + |user|] == user && b[3 + |user|..] == pass
  {
    [UserAuthVersion, |user| as byte] + user + [|pass| as byte] + pass
  }

  /** The three codes the server names get three different names. */
  lemma StringNamesKnownCodesApart(a: AuthMethodCode, b: AuthMethodCode)
    requires a as int <= 2 && b as int <= 2 && a != b
    ensures a.String() != b.String()
  {
  }

  // ---------------------------------------------------------------------
  // Reading the offer
  // ---------------------------------------------------------------------

  /** A complete offer is read as NMETHODS and exactly NMETHODS codes, in order. */
  lemma ReadMethodsReadsCountThenCodes(input: seq<byte>)
    requires |input| >= 1 && |input| >= 1 + input[0] as int
    ensures var o := ReadMethodsOutcome(input);
      && o.result.Ok?
      && o.consumed == 1 + input[0] as int
      && |o.result.value| == input[0] as int
      && (forall i :: 0 <= i < |o.result.value| ==> o.result.value[i] as int == input[1 + i] as int)
      && o.written == []
  {
  }

  /** Reading an encoded offer gives back the offered codes and stops right after them. */
  lemma ReadMethodsRoundTrip(methods: seq<AuthMethodCode>, rest: seq<byte>)
    requires |methods| < 256
    ensures ReadMethodsOutcome(EncodeMethods(methods) + rest) == Outcome(Ok(methods), 1 + |methods|, [])
  {
    var input := EncodeMethods(methods) + rest;
    var n := |methods|;
    assert input[0] as int == n;
    assert Codes(input[1..1 + n]) == methods by {
      forall i | 0 <= i < n
        ensures Codes(input[1..1 + n])[i] == methods[i]
      {
        assert input[1 + i] == EncodeMethods(methods)[1 + i];
      }
    }
  }

  /** An offer cut short fails the negotiation with nothing written. */
  lemma AuthenticateShortOffer(authMethods: map<AuthMethodCode, Authenticator>, input: seq<byte>)
    requires |input| == 0 || |input| < 1 + input[0] as int
    ensures AuthenticateOutcome(authMethods, input) == Outcome(Err(AuthMethodsReadFailed), |input|, [])
  {
  }

  // ---------------------------------------------------------------------
  // Selecting a method
  // ---------------------------------------------------------------------

  /**
   * The first offered code that is configured, in the client's order, is the
   * one whose authenticator runs, on the bytes that follow the offer; its
   * result and its replies are the negotiation's.
   */
  lemma AuthenticateSelectsFirstConfigured(authMethods: map<AuthMethodCode, Authenticator>,
                                           methods: seq<AuthMethodCode>, i: nat, rest: seq<byte>)
    requires |methods| < 256 && i < |methods|
    requires methods[i] in authMethods
    requires forall j :: 0 <= j < i ==> methods[j] !in authMethods
    ensures var a := AuthenticatorOutcome(authMethods[methods[i]], rest);
      AuthenticateOutcome(authMethods, EncodeMethods(methods) + rest)
        == Outcome(a.result, 1 + |methods| + a.consumed, a.written)
  {
    var input := EncodeMethods(methods) + rest;
    ReadMethodsRoundTrip(methods, rest);
    var f := FirstConfigured(authMethods, methods);
    assert f == Some(i);
    assert input[1 + |methods|..] == rest;
  }

  /** When nothing offered is configured, the server refuses with [VER, 0xFF]. */
  lemma AuthenticateRefusesUnconfigured(authMethods: map<AuthMethodCode, Authenticator>,
                                        methods: seq<AuthMethodCode>, rest: seq<byte>)
    requires |methods| < 256
    requires forall j :: 0 <= j < |methods| ==> methods[j] !in authMethods
    ensures AuthenticateOutcome(authMethods, EncodeMethods(methods) + rest)
      == Outcome(Err(NoSupportedAuth(methods)), 1 + |methods|, [Socks5Version, NoAcceptable])
  {
    ReadMethodsRoundTrip(methods, rest);
  }

  /** An empty offer is refused whatever the server configures. */
  lemma AuthenticateRefusesEmptyOffer(authMethods: map<AuthMethodCode, Authenticator>, rest: seq<byte>)
    ensures AuthenticateOutcome(authMethods, [0] + rest)
      == Outcome(Err(NoSupportedAuth([])), 1, [Socks5Version, NoAcceptable])
  {
    assert EncodeMethods([]) == [0];
    AuthenticateRefusesUnconfigured(authMethods, [], rest);
  }

  /**
   * Client order decides, not the server's: with both methods configured,
   * the client's first choice wins in either order.
   */
  lemma ClientOrderDecides(credentials: Credentials.StaticCredentials, rest: seq<byte>)
    ensures var both := map[NoAuth := NoAuthAuthenticator, UserPassAuth := UserPassAuthenticator(credentials)];
      && AuthenticateOutcome(both, [2, 0, 2] + rest).written == [Socks5Version, NoAuth as byte]
      && AuthenticateOutcome(both, [2, 2, 0] + rest).written[..2] == [Socks5Version, UserPassAuth as byte]
  {
    var both := map[NoAuth := NoAuthAuthenticator, UserPassAuth := UserPassAuthenticator(credentials)];
    assert EncodeMethods([NoAuth, UserPassAuth]) == [2, 0, 2];
    AuthenticateSelectsFirstConfigured(both, [NoAuth, UserPassAuth], 0, rest);
    assert EncodeMethods([UserPassAuth, NoAuth]) == [2, 2, 0];
    AuthenticateSelectsFirstConfigured(both, [UserPassAuth, NoAuth], 0, rest);
  }

  // ---------------------------------------------------------------------
  // The authenticators
  // ---------------------------------------------------------------------

  /** Every authenticator first tells the client its own code. */
  lemma AuthenticatorAnnouncesItsCode(a: Authenticator, input: seq<byte>)
    ensures var o := AuthenticatorOutcome(a, input);
      |o.written| >= 2 && o.written[..2] == [Socks5Version, a.GetCode() as byte]
  {
  }

  /** "No authentication" writes [VER, 0x00], reads nothing and always succeeds with an empty payload. */
  lemma NoAuthAccepts(input: seq<byte>)
    ensures AuthenticatorOutcome(NoAuthAuthenticator, input)
      == Outcome(Ok(AuthContext(NoAuth, map[])), 0, [Socks5Version, NoAuth as byte])
  {
  }

  /** A sub-negotiation version other than 1 is refused after the two-byte header, with no status reply. */
  lemma UserPassRejectsBadVersion(credentials: Credentials.StaticCredentials, input: seq<byte>)
    requires |input| >= 2 && input[0] != UserAuthVersion
    ensures UserPassOutcome(credentials, input)
      == Outcome(Err(UnsupportedAuthVersion(input[0])), 2, [Socks5Version, UserPassAuth as byte])
  {
  }

  /**
   * A complete request is read up to its last byte and no further; it
   * succeeds, with the username in the payload, exactly when the store
   * accepts the credentials, and the status reply says which.
   */
  lemma UserPassRoundTrip(credentials: Credentials.StaticCredentials, user: seq<byte>, pass: seq<byte>, rest: seq<byte>)
    requires |user| < 256 && |pass| < 256
    ensures var frame := EncodeUserPass(user, pass);
      UserPassOutcome(credentials, frame + rest)
        == if Credentials.Valid(credentials, ByteString(user), ByteString(pass)) then
             Outcome(Ok(AuthContext(UserPassAuth, map["Username" := ByteString(user)])), |frame|,
                     [Socks5Version, UserPassAuth as byte, UserAuthVersion, AuthSuccess])
           else
             Outcome(Err(UserAuthFailed), |frame|,
                     [Socks5Version, UserPassAuth as byte, UserAuthVersion, AuthFailure])
  {
    var frame := EncodeUserPass(user, pass);
    var input := frame + rest;
    var u := |user|;
    assert input[..|frame|] == frame;
    assert input[1] as int == u;
    assert input[2..2 + u] == user;
    assert input[2 + u] as int == |pass|;
    assert input[3 + u..3 + u + |pass|] == pass;
  }

  /**
   * A request cut anywhere short of its end is an I/O error, never an
   * authentication failure: the stream is drained and no status is sent.
   */
  lemma UserPassTruncated(credentials: Credentials.StaticCredentials, user: seq<byte>, pass: seq<byte>, k: nat)
    requires |user| < 256 && |pass| < 256
    requires k < |EncodeUserPass(user, pass)|
    ensures UserPassOutcome(credentials, EncodeUserPass(user, pass)[..k])
      == Outcome(Err(IOError), k, [Socks5Version, UserPassAuth as byte])
  {
    var frame := EncodeUserPass(user, pass);
    var input := frame[..k];
    if k >= 2 {
      assert input[0] == UserAuthVersion && input[1] as int == |user|;
      if k >= 3 + |user| {
        assert input[2 + |user|] as int == |pass|;
      }
    }
  }

  /** A successful negotiation by username/password always names the user. */
  lemma UserPassContextNamesUser(credentials: Credentials.StaticCredentials, input: seq<byte>)
    requires UserPassOutcome(credentials, input).result.Ok?
    ensures var ctx := UserPassOutcome(credentials, input).result.value;
      && ctx.authMethod == UserPassAuth
      && "Username" in ctx.payload
      && Credentials.Valid(credentials, ctx.payload["Username"],
                           ByteString(input[3 + input[1] as int..UserPassOutcome(credentials, input).consumed]))
  {
  }

  // ---------------------------------------------------------------------
  // The negotiations of the server's tests
  // ---------------------------------------------------------------------

  /** A default server offered NoAuth accepts it. */
  lemma NoAuthExample()
    ensures AuthenticateOutcome(map[NoAuth := NoAuthAuthenticator], [1, 0])
      == Outcome(Ok(AuthContext(NoAuth, map[])), 2, [Socks5Version, NoAuth as byte])
  {
  }

  /** Offered NoAuth then UserPassAuth, a server with only username/password picks it and accepts foo/bar. */
  lemma PasswordAuthValidExample()
    ensures var table := map[UserPassAuth := UserPassAuthenticator(map["foo" := "bar"])];
      AuthenticateOutcome(table, [2, 0, 2, 1, 3, 102, 111, 111, 3, 98, 97, 114])
        == Outcome(Ok(AuthContext(UserPassAuth, map["Username" := "foo"])), 12,
                   [Socks5Version, UserPassAuth as byte, UserAuthVersion, AuthSuccess])
  {
    var table := map[UserPassAuth := UserPassAuthenticator(map["foo" := "bar"])];
    assert ByteString([102, 111, 111]) == "foo";
    assert ByteString([98, 97, 114]) == "bar";
    assert EncodeMethods([NoAuth, UserPassAuth]) == [2, 0, 2];
    assert EncodeUserPass([102, 111, 111], [98, 97, 114]) == [1, 3, 102, 111, 111, 3, 98, 97, 114];
    AuthenticateSelectsFirstConfigured(table, [NoAuth, UserPassAuth], 1, [1, 3, 102, 111, 111, 3, 98, 97, 114]);
    UserPassRoundTrip(map["foo" := "bar"], [102, 111, 111], [98, 97, 114], []);
    assert [2, 0, 2] + [1, 3, 102, 111, 111, 3, 98, 97, 114] == [2, 0, 2, 1, 3, 102, 111, 111, 3, 98, 97, 114];
    assert [1, 3, 102, 111, 111, 3, 98, 97, 114] + [] == [1, 3, 102, 111, 111, 3, 98, 97, 114];
  }

  /** The same exchange with password baz is refused with status 1 and no context. */
  lemma PasswordAuthInvalidExample()
    ensures var table := map[UserPassAuth := UserPassAuthenticator(map["foo" := "bar"])];
      AuthenticateOutcome(table, [2, 0, 2, 1, 3, 102, 111, 111, 3, 98, 97, 122])
        == Outcome(Err(UserAuthFailed), 12,
                   [Socks5Version, UserPassAuth as byte, UserAuthVersion, AuthFailure])
  {
    var table := map[UserPassAuth := UserPassAuthenticator(map["foo" := "bar"])];
    assert ByteString([98, 97, 122]) == "baz";
    assert ByteString([98, 97, 122]) != "bar";
    assert EncodeMethods([NoAuth, UserPassAuth]) == [2, 0, 2];
    assert EncodeUserPass([102, 111, 111], [98, 97, 122]) == [1, 3, 102, 111, 111, 3, 98, 97, 122];
    AuthenticateSelectsFirstConfigured(table, [NoAuth, UserPassAuth], 1, [1, 3, 102, 111, 111, 3, 98, 97, 122]);
    UserPassRoundTrip(map["foo" := "bar"], [102, 111, 111], [98, 97, 122], []);
    assert [2, 0, 2] + [1, 3, 102, 111, 111, 3, 98, 97, 122] == [2, 0, 2, 1, 3, 102, 111, 111, 3, 98, 97, 122];
    assert [1, 3, 102, 111, 111, 3, 98, 97, 122] + [] == [1, 3, 102, 111, 111, 3, 98, 97, 122];
  }

  /** Offered only NoAuth, a server with only username/password refuses. */
  lemma NoSupportedAuthExample()
    ensures var table := map[UserPassAuth := UserPassAuthenticator(map["foo" := "bar"])];
      AuthenticateOutcome(table, [1, 0])
        == Outcome(Err(NoSupportedAuth([NoAuth])), 2, [Socks5Version, NoAcceptable])
  {
    var table := map[UserPassAuth := UserPassAuthenticator(map["foo" := "bar"])];
    assert EncodeMethods([NoAuth]) == [1, 0];
    AuthenticateRefusesUnconfigured(table, [NoAuth], []);
    assert [1, 0] + [] == [1, 0];
  }
}
