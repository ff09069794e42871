# SOCKS5 authentication front end, in Dafny

This project models the authentication front end of a SOCKS5 server written in Go. That is
everything the server does with a new connection before the proxy request arrives:

- **Method negotiation** (section 3 of RFC 1928). The server reads NMETHODS and that many method
  codes. It runs the authenticator of the first offered code that its table configures, in the
  client's order. If no offered code is configured, it answers `[5, 0xFF]` and fails.
- **The "no authentication" authenticator.** It answers `[5, 0x00]` and succeeds at once.
- **The username/password authenticator** (section 2 of RFC 1929). It answers `[5, 0x02]` and reads
  `[0x01][ULEN][UNAME][PLEN][PASSWD]`. It asks the credential store, then answers `[0x01, 0x00]`
  or `[0x01, 0x01]`.
- **The map-backed credential store** (`StaticCredentials.Valid`): a lookup, then an equality test.

Files:

- `bytes.dfy`: Go's `uint8`, an `Option` type, and Go's `string(b)` conversion.
- `stream.dfy`: the connection. A `Reader` class holds the bytes the client sent and not yet
  read. A `Writer` class holds the bytes the server sent back.
- `credentials.dfy`: the credential store, as a pure predicate on (user, password).
- `auth.dfy`: codes, contexts, errors and authenticators. Each exchange appears twice. First, a
  pure function says what the exchange does to the connection (an `Outcome`: the result, how many
  input bytes it reads, the bytes it writes). Second, a method over `Reader` and `Writer` performs
  it step by step, as the Go code does. Each method is proved to have exactly that outcome.
- `auth_properties.dfy`: the properties. It includes client-side encoders for the offer and for
  the RFC 1929 request, so round trips can be stated.

Modelling choices:

- `authenticate` starts reading at NMETHODS. The caller has already consumed the VER byte, and the
  server's tests start their input at NMETHODS.
- A read of n bytes (`io.ReadAtLeast`, and the single one-byte `Read`) gets exactly n bytes.
  Reading zero bytes always succeeds. If fewer than n bytes remain, the read takes what is left
  and fails with an I/O error. This is what `io.ReadAtLeast` does on a finite stream.
- Writes always succeed.
- The credential store's interface and its call site disagree: one takes a context, the other
  also takes the peer address and returns a second context. Both are modelled as a predicate on
  (user, password). The store is the map-backed `StaticCredentials`.
- Go strings are byte strings. In the credential store and in the context's payload, every
  character stands for one byte and is below 256. A store entry with a character of 256 or above
  stands for no Go string.
- The server's table `authMethods` is a parameter of type `map<AuthMethodCode, Authenticator>`.
  The code that builds it is not part of this model.
- `socks5Version` is defined outside the files modelled here. It is the RFC 1928 VER, 5.

## Model

| member | source | states |
|---|---|---|
| `Bytes.ByteString` | auth.go:115 | Go's `string(b)` keeps every byte: same length, and each character's code is the byte at that position |
| `Bytes.ByteStringInjective` | auth.go:128 | two byte strings convert to the same string exactly when they are equal, so the username in the context identifies the bytes read |
| `Stream.Reader.ReadFull` | auth.go:86-88 | a read of n bytes succeeds exactly when n bytes remain. It copies them to the front of the buffer and removes them from the stream. Otherwise it drains the stream and fails |
| `Stream.Writer.Write` | auth.go:80-82 | the output gains exactly the bytes written, at the end |
| `Credentials.Valid` | credentials.go:13-19 | credentials are valid exactly when (user, password) is an entry of the store; the context is ignored and the map is only read |
| `Credentials.ValidRejectsUnknownUser` | credentials.go:14-17 | a username that is not a key is never valid, whatever the password |
| `Credentials.ValidIffPasswordMatches` | credentials.go:18 | for a stored username, validity holds exactly when the given password equals the stored one |
| `Credentials.ValidEmptyPassword` | credentials_test.go:13-22 | an empty stored password admits the empty password and nothing else |
| `Credentials.StaticCredentialsExample` | credentials_test.go:11-26 | with {"foo": "bar", "baz": ""}: foo/bar and baz/"" are valid and foo/"" is not |
| `Auth.AuthMethodCode.String` | auth.go:22-33 | codes 0, 1 and 2 get names other than "unknown", and every other code is "unknown" |
| `AuthProperties.StringNamesKnownCodesApart` | auth.go:23-29 | the three named codes get three different names |
| `Auth.Authenticator.GetCode` | auth.go:59-76 | the no-auth authenticator reports code 0 and the username/password authenticator code 2 |
| `Auth.Authenticator.Authenticate` | auth.go:51-54 | the interface call runs the exchange of the configured authenticator and has exactly its outcome on the connection |
| `Auth.Codes` | auth.go:169-172 | each method byte becomes the code with the same value, in the same order |
| `Auth.ReadMethodsOutcome` | auth.go:160-174 | reading the offer writes nothing. It succeeds exactly when the count byte and that many codes are present. Every failure is an I/O error that drains the input |
| `Auth.UserPassOutcome` | auth.go:78-129 | the exchange never reads past its input, and it always first writes `[5, 2]` |
| `Auth.AuthenticatorOutcome` | auth.go:143 | an authenticator never reads past its input |
| `Auth.FirstConfigured` | auth.go:140-145 | finds the first offered code the table configures: every earlier code is unconfigured. It finds nothing exactly when no offered code is configured |
| `Auth.AuthenticateOutcome` | auth.go:132-149 | the negotiation never reads past its input |
| `Auth.NoAuthOutcome` | auth.go:63-66 | no-auth writes `[5, 0]`, reads nothing, and succeeds with method NoAuth and an empty payload |
| `Auth.NoAuthAuthenticate` | auth.go:63-66 | writes `[5, 0]`, reads nothing, and returns a context with method NoAuth and an empty payload |
| `Auth.UserPassAuthenticate` | auth.go:78-129 | the step-by-step exchange has exactly the result, input consumption and output of `UserPassOutcome` |
| `Auth.ReadMethods` | auth.go:160-174 | the step-by-step read, including the conversion loop, has exactly the result and input consumption of `ReadMethodsOutcome` |
| `Auth.NoAcceptableAuth` | auth.go:153-156 | writes exactly `[5, 0xFF]` and returns the no-supported-method error carrying the offered codes |
| `Auth.Authenticate` | auth.go:132-149 | the step-by-step negotiation, with its early-return loop, has exactly the result, input consumption and output of `AuthenticateOutcome` |
| `AuthProperties.ReadMethodsReadsCountThenCodes` | auth.go:160-174 | a complete offer consumes exactly 1 + N bytes and yields N codes equal to the N bytes after the count, in order |
| `AuthProperties.ReadMethodsRoundTrip` | auth.go:160-174 | reading an encoded offer returns the offered codes and stops right after them |
| `AuthProperties.AuthenticateShortOffer` | auth.go:134-137 | an offer with fewer codes than announced fails, with no context and nothing written |
| `AuthProperties.AuthenticateSelectsFirstConfigured` | auth.go:140-145 | the first configured code in client order is the one whose authenticator runs, on the bytes after the offer. Its result and replies are the negotiation's, so no later code is tried |
| `AuthProperties.AuthenticateRefusesUnconfigured` | auth.go:147-156 | if no offered code is configured, the output is exactly `[5, 0xFF]` and the result is the no-supported-method error with the offer |
| `AuthProperties.AuthenticateRefusesEmptyOffer` | auth.go:147-156 | an empty offer is refused with `[5, 0xFF]` whatever the table holds |
| `AuthProperties.ClientOrderDecides` | auth.go:140-145 | with both methods configured, the client's first choice wins in either order. The server has no preference of its own |
| `AuthProperties.AuthenticatorAnnouncesItsCode` | auth.go:64-80 | each of the two authenticators first replies `[5, its own code]` (auth.go:64 for no-auth, auth.go:80 for username/password) |
| `AuthProperties.NoAuthAccepts` | auth.go:63-66 | no-auth writes `[5, 0]`, reads nothing, and succeeds with method NoAuth and an empty payload |
| `AuthProperties.UserPassRejectsBadVersion` | auth.go:90-93 | a sub-negotiation version other than 1 fails after reading two bytes, with only `[5, 2]` written. No username or password is read |
| `AuthProperties.UserPassRoundTrip` | auth.go:95-128 | a complete request is read to its last byte and no further. It succeeds exactly when the store accepts the credentials, with the username in the payload and `[5, 2, 1, 0]` written. Otherwise it fails with the authentication error and `[5, 2, 1, 1]` written |
| `AuthProperties.UserPassTruncated` | auth.go:84-112 | a request cut short anywhere is an I/O error, never an authentication failure. Only `[5, 2]` is written |
| `AuthProperties.UserPassContextNamesUser` | auth.go:115-128 | a successful username/password exchange carries method 2 and a "Username" entry that the store accepts with the password read |
| `AuthProperties.NoAuthExample` | auth_test.go:10-28 | with only no-auth configured, the offer [NoAuth] yields a NoAuth context and `[5, 0]` |
| `AuthProperties.PasswordAuthValidExample` | auth_test.go:31-66 | offered [NoAuth, UserPass] with only username/password configured, foo/bar succeeds with Username "foo" and `[5, 2, 1, 0]` |
| `AuthProperties.PasswordAuthInvalidExample` | auth_test.go:69-93 | the same with foo/baz fails with the authentication error, no context and `[5, 2, 1, 1]` |
| `AuthProperties.NoSupportedAuthExample` | auth_test.go:96-120 | offered [NoAuth] with only username/password configured, the server refuses with `[5, 0xFF]` and no context |

## Left out

- Write failures. Every write succeeds, so the early returns after a failed write are not modelled.
- `context.Context` threading, the context returned by the credential store, and the peer's
  `net.Addr`. They carry no protocol behaviour.
- Error message texts. Only error kinds are modelled. The wrapping at auth.go:136 is a kind of its
  own, `AuthMethodsReadFailed`.
- Reads that return fewer bytes without an error, which a general `io.Reader` may do. A read
  either gets all n bytes or drains the stream and fails.
- `readMethods` returning its partially filled list together with an error. The model returns only
  the error, because `authenticate` discards the list.
- Credential stores other than the map-backed one.
- Authenticators other than no-auth and username/password. Go's `Authenticator` interface accepts
  any implementation; the model's `Authenticator` has only these two, so properties about
  "every authenticator" cover only them.
- Building the server's authenticator table (`New`, `Config`). Request decoding, dialing and
  relaying. None of them is part of this model.
