/** The access token: its wire form `owner:issuedAt:expiresAt:signature`,
    the expiry read from its third field, and the cache's reuse rule. */
module Tokens {
  import opened Wrappers
  import opened Text

  /** A token as the client keeps it: the bearer string it was issued as,
      and the instant (in milliseconds) at which it stops being usable. */
  datatype AccessToken = AccessToken(value: string, expiresAt: nat)

  /** The wire form of a token. */
  function FormatToken(owner: string, issuedAt: string, expiresAt: nat, signature: string): string
  {
    Join([owner, issuedAt, NatToString(expiresAt), signature], ':')
  }

  /** Reads an `access_token` string: exactly four `:`-separated fields, the
      third a decimal expiry. Anything else is not a token. */
  function ParseToken(s: string): (r: Option<AccessToken>)
    ensures r.Some? <==> |Split(s, ':')| == 4 && IsDecimal(Split(s, ':')[2])
    ensures r.Some? ==> r.value.value == s
  {
    var f := Split(s, ':');
    if |f| == 4 && IsDecimal(f[2]) then Some(AccessToken(s, ParseNat(f[2]))) else None
  }

  /** A token may be used while the clock is strictly before its expiry. */
  predicate Usable(t: AccessToken, now: int)
  {
    now < t.expiresAt
  }

  /** The token store: the cached token while it is usable, otherwise nothing
      (an expired token stays stored but is never handed out). */
  function CurrentToken(cached: Option<AccessToken>, now: int): (r: Option<AccessToken>)
    ensures r.Some? <==> cached.Some? && Usable(cached.value, now)
    ensures r.Some? ==> r == cached
  {
    match cached
    case Some(t) => if Usable(t, now) then cached else None
    case None => None
  }

  /** A decimal numeral holds no `:`. */
  lemma DecimalHasNoColon(s: string)
    requires IsDecimal(s)
    ensures ':' !in s
  {
  }

  /** A formatted token is read back with the expiry it was formatted with. */
  lemma ParseFormatToken(owner: string, issuedAt: string, expiresAt: nat, signature: string)
    requires ':' !in owner && ':' !in issuedAt && ':' !in signature
    ensures ParseToken(FormatToken(owner, issuedAt, expiresAt, signature))
      == Some(AccessToken(FormatToken(owner, issuedAt, expiresAt, signature), expiresAt))
  {
    var e := NatToString(expiresAt);
    var parts := [owner, issuedAt, e, signature];
    DecimalHasNoColon(e);
    SplitJoin(parts, ':');
    ParseNatToString(expiresAt);
  }

  const MockOwner: string := "myclient"
  const MockIssuedAt: string := "1371666627113"
  const MockSignature: string := "47a8cdf5560706874688726cb1b3e843783c0811"

  /** The token the service is mocked with. Its expiry field is built by
      string concatenation: the clock's reading, then `500000` converted to
      text, so it is the clock's digits followed by `500000`. */
  function MockToken(now: nat): string
  {
    MockOwner + ":" + MockIssuedAt + ":" + (NatToString(now) + NatToString(500000)) + ":" + MockSignature
  }

  lemma MockFieldsHaveNoColon()
    ensures ':' !in MockOwner && ':' !in MockIssuedAt && ':' !in MockSignature
  {
  }

  /** The mocked token is well formed and still usable when the second call
      of a test is made 200 milliseconds later. */
  lemma MockTokenUsable(now: nat)
    ensures ParseToken(MockToken(now)).Some?
    ensures Usable(ParseToken(MockToken(now)).value, now + 200)
  {
    var d := NatToString(now) + NatToString(500000);
    var parts := [MockOwner, MockIssuedAt, d, MockSignature];
    MockExpiry(now);
    DecimalHasNoColon(d);
    MockFieldsHaveNoColon();
    JoinFour(MockOwner, MockIssuedAt, d, MockSignature, ':');
    SplitJoin(parts, ':');
    assert Split(MockToken(now), ':') == parts;
  }

  /** The concatenated expiry field reads as the clock times a million plus 500000. */
  lemma MockExpiry(now: nat)
    ensures IsDecimal(NatToString(now) + NatToString(500000))
    ensures ParseNat(NatToString(now) + NatToString(500000)) == now * 1000000 + 500000
  {
    ParseNatAppend(NatToString(now), NatToString(500000));
    ParseNatToString(now);
    ParseNatToString(500000);
    assert |NatToString(500000)| == 6 && Pow10(6) == 1000000;
  }

  lemma JoinFour(a: string, b: string, c: string, d: string, sep: char)
    ensures Join([a, b, c, d], sep) == a + [sep] + b + [sep] + c + [sep] + d
  {
    assert [a, b, c, d][1..] == [b, c, d];
    JoinThree(b, c, d, sep);
  }
}
