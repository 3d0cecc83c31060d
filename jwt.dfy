/** The JSON Web Tokens the auth services issue (jwtService.sign) and the
    check passport-jwt makes before a payload reaches JwtStrategy.validate.

    A token is the serialized pair [payload, signature]: the payload is the
    signed claims plus `iat` (the issue time) and `exp` (iat plus the
    lifetime), and the signature is the Mac of the serialized payload under
    the secret. Times are whole seconds; the duration strings of the
    source ('15m', '50m', '7d') are given here as seconds. */
module Jwt {
  import opened Wrappers
  import opened Json
  import opened Crypto
  import opened Text

  datatype Claims = Claims(sub: string, email: string, role: string)

  const MINUTE := 60
  const DAY := 60 * 60 * 24

  /** The payload jsonwebtoken builds for claims signed at time iat. */
  function Payload(c: Claims, iat: nat, exp: nat): Json
  {
    JObj([Member("sub", JStr(c.sub)), Member("email", JStr(c.email)), Member("role", JStr(c.role)),
          Member("iat", JNum(iat)), Member("exp", JNum(exp))])
  }

  /** jwtService.sign(claims, { secret, expiresIn }) at time now. */
  function Sign(c: Claims, secret: string, expiresIn: nat, now: nat): string
  {
    var body := Payload(c, now, now + expiresIn);
    Stringify(JArr([body, JStr(Mac(secret, Stringify(body)))]))
  }

  /** The payload of a token that carries a valid signature under secret
      and, unless expiration is ignored, has not expired at time now.
      jsonwebtoken checks expiry only when the payload has an `exp` claim:
      a numeric one is expired once now >= exp, any other `exp` value is
      refused, and a payload without one never expires. */
  function Verify(token: string, secret: string, now: nat, ignoreExpiration: bool): (r: Option<Json>)
    ensures r.Some? ==> exists sig :: Parse(token) == Some(JArr([r.value, JStr(sig)]))
    ensures r.Some? && !ignoreExpiration ==>
      match Get(r.value, "exp")
      case None => true
      case Some(e) => e.JNum? && now < e.n
  {
    match Parse(token)
    case Some(JArr(parts)) =>
      if |parts| == 2 && parts[1].JStr? && parts[1].s == Mac(secret, Stringify(parts[0])) then
        var body := parts[0];
        assert parts == [body, JStr(parts[1].s)];
        if ignoreExpiration then Some(body)
        else
          match Get(body, "exp")
          case None => Some(body)
          case Some(JNum(exp)) => if now < exp then Some(body) else None
          case Some(_) => None
      else None
    case _ => None
  }

  /** With expiration enforced, a signed payload without `exp` is accepted
      at every time, and one whose `exp` is not a number is refused. */
  lemma VerifyExpOnlyWhenPresent(body: Json, secret: string, now: nat)
    ensures var token := Stringify(JArr([body, JStr(Mac(secret, Stringify(body)))]));
            && (Get(body, "exp").None? ==> Verify(token, secret, now, false) == Some(body))
            && (Get(body, "exp").Some? && !Get(body, "exp").value.JNum? ==> Verify(token, secret, now, false).None?)
            && Verify(token, secret, now, true) == Some(body)
  {
    ParseStringify(JArr([body, JStr(Mac(secret, Stringify(body)))]));
  }

  lemma PayloadExp(c: Claims, iat: nat, exp: nat)
    ensures Get(Payload(c, iat, exp), "exp") == Some(JNum(exp))
    ensures Get(Payload(c, iat, exp), "sub") == Some(JStr(c.sub))
    ensures Get(Payload(c, iat, exp), "role") == Some(JStr(c.role))
  {
    var ms := Payload(c, iat, exp).members;
    var m4, m3, m2, m1 := ms[..4], ms[..3], ms[..2], ms[..1];
    assert ms[..|ms| - 1] == m4 && m4[..|m4| - 1] == m3;
    assert m3[..|m3| - 1] == m2 && m2[..|m2| - 1] == m1;
    assert LastValue(m3, "role") == Some(JStr(c.role));
    assert LastValue(m1, "sub") == Some(JStr(c.sub));
    assert LastValue(m2, "sub") == LastValue(m1, "sub");
  }

  /** A token verifies under the secret it was signed with, from its issue
      time until it expires, and yields the signed claims. */
  lemma VerifySigned(c: Claims, secret: string, expiresIn: nat, iat: nat, now: nat)
    requires iat <= now < iat + expiresIn
    ensures Verify(Sign(c, secret, expiresIn, iat), secret, now, false) == Some(Payload(c, iat, iat + expiresIn))
  {
    var body := Payload(c, iat, iat + expiresIn);
    ParseStringify(JArr([body, JStr(Mac(secret, Stringify(body)))]));
    PayloadExp(c, iat, iat + expiresIn);
  }

  /** Once expired, a token is rejected when expiration is not ignored. */
  lemma VerifyRejectsExpired(c: Claims, secret: string, expiresIn: nat, iat: nat, now: nat)
    requires now >= iat + expiresIn
    ensures Verify(Sign(c, secret, expiresIn, iat), secret, now, false) == None
  {
    var body := Payload(c, iat, iat + expiresIn);
    ParseStringify(JArr([body, JStr(Mac(secret, Stringify(body)))]));
    PayloadExp(c, iat, iat + expiresIn);
  }

  /** What every token signed for claims c begins with, whatever the
      secret, the lifetime and the issue time: the serialized claims up
      to the value of `iat`. */
  function HeadText(c: Claims): string {
    "[" + BodyHead(c)
  }

  /** What the serialized payload begins with. */
  function BodyHead(c: Claims): string {
    "{" + ((MemberText("sub", c.sub) + ",") + ((MemberText("email", c.email) + ",")
      + ((MemberText("role", c.role) + ",") + (Quote("iat") + ":"))))
  }

  function MemberText(key: string, value: string): string {
    Quote(key) + ":" + Quote(value)
  }

  lemma HeadLength(c: Claims)
    ensures |HeadText(c)| >= 38 + |c.sub| + |c.email| + |c.role|
  {
    QuoteLength("sub");
    QuoteLength("email");
    QuoteLength("role");
    QuoteLength("iat");
    QuoteLength(c.sub);
    QuoteLength(c.email);
    QuoteLength(c.role);
  }

  /** Every token signed for c starts with HeadText(c). */
  lemma SignStartsWithHead(c: Claims, secret: string, expiresIn: nat, now: nat)
    ensures HeadText(c) <= Sign(c, secret, expiresIn, now)
  {
    var body := Payload(c, now, now + expiresIn);
    var text := Stringify(body);
    var sig := Quote(Mac(secret, text));
    PayloadStartsWithHead(c, now, now + expiresIn, text);
    SignShape(c, secret, expiresIn, now);
    Bracket(BodyHead(c), text, sig, Sign(c, secret, expiresIn, now));
  }

  /** Every payload for c starts with BodyHead(c). */
  lemma PayloadStartsWithHead(c: Claims, iat: nat, exp: nat, text: string)
    requires text == Stringify(Payload(c, iat, exp))
    ensures BodyHead(c) <= text
  {
    var t0, t1, t2 := MemberText("sub", c.sub), MemberText("email", c.email), MemberText("role", c.role);
    var h3 := Quote("iat") + ":";
    var t3, t4 := h3 + NatToDecimal(iat), Quote("exp") + ":" + NatToDecimal(exp);
    PayloadTexts(c, iat, exp);
    Extend(h3, NatToDecimal(iat));
    HeadOfJoin5(t0, t1, t2, t3, t4, h3);
    Brace((t0 + ",") + ((t1 + ",") + ((t2 + ",") + h3)), Join([t0, t1, t2, t3, t4]), Stringify(Payload(c, iat, exp)));
  }

  lemma Brace(h0: string, j: string, text: string)
    requires h0 <= j && text == "{" + j + "}"
    ensures "{" + h0 <= text
  {
    InContext("{", h0, j);
    Extend("{" + j, "}");
    PrefixTrans("{" + h0, "{" + j, text);
  }

  lemma Bracket(h: string, text: string, sig: string, whole: string)
    requires h <= text && whole == "[" + ((text + ",") + sig) + "]"
    ensures "[" + h <= whole
  {
    Extend(text + ",", sig);
    Extend(text, ",");
    PrefixTrans(text, text + ",", (text + ",") + sig);
    PrefixTrans(h, text, (text + ",") + sig);
    InContext("[", h, (text + ",") + sig);
    Extend("[" + ((text + ",") + sig), "]");
    PrefixTrans("[" + h, "[" + ((text + ",") + sig), whole);
  }

  /** The serialized members of a payload. */
  lemma PayloadTexts(c: Claims, iat: nat, exp: nat)
    ensures Stringify(Payload(c, iat, exp))
      == "{" + Join([MemberText("sub", c.sub), MemberText("email", c.email), MemberText("role", c.role),
                     Quote("iat") + ":" + NatToDecimal(iat), Quote("exp") + ":" + NatToDecimal(exp)]) + "}"
  {
    var ms := Payload(c, iat, exp).members;
    assert MemberTexts(ms) == [MemberText("sub", c.sub), MemberText("email", c.email), MemberText("role", c.role),
                               Quote("iat") + ":" + NatToDecimal(iat), Quote("exp") + ":" + NatToDecimal(exp)];
  }

  /** A token is its payload text and its quoted signature, in brackets. */
  lemma SignShape(c: Claims, secret: string, expiresIn: nat, now: nat)
    ensures var body := Payload(c, now, now + expiresIn);
            Sign(c, secret, expiresIn, now)
              == "[" + ((Stringify(body) + ",") + Quote(Mac(secret, Stringify(body)))) + "]"
  {
    var body := Payload(c, now, now + expiresIn);
    var its := ItemTexts([body, JStr(Mac(secret, Stringify(body)))]);
    assert its[0] == Stringify(body);
    assert its[1] == Stringify(JStr(Mac(secret, Stringify(body)))) == Quote(Mac(secret, Stringify(body)));
    assert its[1..] == [its[1]];
    assert Join(its) == (its[0] + ",") + its[1];
  }

  lemma HeadOfJoin5(t0: string, t1: string, t2: string, t3: string, t4: string, h3: string)
    requires h3 <= t3
    ensures (t0 + ",") + ((t1 + ",") + ((t2 + ",") + h3)) <= Join([t0, t1, t2, t3, t4])
  {
    var ts := [t0, t1, t2, t3, t4];
    assert ts[1..] == [t1, t2, t3, t4] && ts[2..] == [t2, t3, t4] && ts[3..] == [t3, t4];
    assert ts[1..][1..] == ts[2..] && ts[2..][1..] == ts[3..];
    JoinStart(ts[3..]);
    PrefixTrans(h3, t3, Join(ts[3..]));
    JoinStep(ts[2..]);
    InContext(t2 + ",", h3, Join(ts[3..]));
    JoinStep(ts[1..]);
    InContext(t1 + ",", (t2 + ",") + h3, Join(ts[2..]));
    JoinStep(ts);
    InContext(t0 + ",", (t1 + ",") + ((t2 + ",") + h3), Join(ts[1..]));
  }

  /** Two tokens signed for the same claims agree on their first 72
      characters once the serialized claims are that long, so each
      matches the other's bcrypt hash: the secret, the lifetime and the
      issue time all come later. */
  lemma SameClaimsShareHash(c: Claims, s1: string, e1: nat, t1: nat, s2: string, e2: nat, t2: nat)
    requires |HeadText(c)| >= BCRYPT_MAX_BYTES
    ensures Matches(Sign(c, s1, e1, t1), Hash(Sign(c, s2, e2, t2)))
  {
    SignStartsWithHead(c, s1, e1, t1);
    SignStartsWithHead(c, s2, e2, t2);
    CommonHead(HeadText(c), Sign(c, s1, e1, t1), Sign(c, s2, e2, t2));
  }

  lemma CommonHead(h: string, a: string, b: string)
    requires |h| >= BCRYPT_MAX_BYTES && h <= a && h <= b
    ensures Matches(a, Hash(b))
  {
    assert a[..BCRYPT_MAX_BYTES] == h[..BCRYPT_MAX_BYTES] == b[..BCRYPT_MAX_BYTES];
    LongValuesShareHash(a, b);
  }

  lemma Extend(p: string, q: string)
    ensures p <= p + q
  {
    assert (p + q)[..|p|] == p;
  }

  lemma PrefixTrans(p: string, q: string, r: string)
    requires p <= q && q <= r
    ensures p <= r
  {
    assert r[..|p|] == r[..|q|][..|p|];
  }

  lemma InContext(a: string, p: string, q: string)
    requires p <= q
    ensures a + p <= a + q
  {
    assert (a + q)[..|a + p|] == a + q[..|p|];
  }

  lemma JoinStart(parts: seq<string>)
    requires |parts| >= 1
    ensures parts[0] <= Join(parts)
  {
    if |parts| > 1 {
      Extend(parts[0], "," + Join(parts[1..]));
      assert Join(parts) == parts[0] + ("," + Join(parts[1..]));
    }
  }

  lemma JoinStep(parts: seq<string>)
    requires |parts| >= 2
    ensures Join(parts) == (parts[0] + ",") + Join(parts[1..])
  {
  }

  /** Tokens for the same claims signed at different times differ. */
  lemma SignsDiffer(c: Claims, secret: string, expiresIn: nat, t1: nat, t2: nat)
    requires t1 != t2
    ensures Sign(c, secret, expiresIn, t1) != Sign(c, secret, expiresIn, t2)
  {
    var b1, b2 := Payload(c, t1, t1 + expiresIn), Payload(c, t2, t2 + expiresIn);
    assert b1.members[3] != b2.members[3];
    if Sign(c, secret, expiresIn, t1) == Sign(c, secret, expiresIn, t2) {
      StringifyInjective(JArr([b1, JStr(Mac(secret, Stringify(b1)))]), JArr([b2, JStr(Mac(secret, Stringify(b2)))]));
    }
  }
}
