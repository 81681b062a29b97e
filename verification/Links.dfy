// The link formats and their MACs. HMAC-SHA256 (section 2 of RFC 2104) is an
// arbitrary function from a key and a message to 32 bytes.
module Links {
  import opened Prelude
  import opened Text

  // Instants are whole microseconds since the epoch, the resolution the
  // database keeps.
  type Time = int

  const SECOND: int := 1_000_000
  const HOUR: int := 3600 * SECOND
  const DAY: int := 24 * HOUR

  const DEFAULT_BEARER_TTL_HOURS: int := 24
  const DEFAULT_INVITE_TTL_DAYS: int := 14
  const RECIPIENT_HMAC_TTL_DAYS: int := 180

  // `DateTime::timestamp`: whole seconds, rounded down.
  function Timestamp(t: Time): int { t / SECOND }

  // Instants whose second count fits the 64-bit expiry arm.
  predicate InRange(t: Time) { IsI64(Timestamp(t)) }

  type Digest = d: seq<Byte> | |d| == 32 witness seq(32, i => 0)

  // The two configured secrets and the keyed hash.
  datatype Engine = Engine(
    bearerSecret: seq<Byte>,
    recipientSecret: seq<Byte>,
    tag: (seq<Byte>, string) -> Digest)

  // `compute_mac`: the tag in lower-case hexadecimal.
  function ComputeMac(e: Engine, key: seq<Byte>, input: string): (mac: string)
    ensures |mac| == 64
  {
    EncodeHex(e.tag(key, input))
  }

  // `verify_mac`: the decoded candidate is the tag.
  predicate VerifyMac(e: Engine, key: seq<Byte>, input: string, provided: string) {
    DecodeHex(provided) == Some(e.tag(key, input))
  }

  // A candidate verifies exactly when it spells the printed MAC in any mix of
  // letter cases.
  lemma VerifyMacIffSpelling(e: Engine, key: seq<Byte>, input: string, provided: string)
    ensures VerifyMac(e, key, input, provided) <==>
            |provided| == 64 && AllHex(provided) && LowerHex(provided) == ComputeMac(e, key, input)
  {
    if |provided| == 64 && AllHex(provided) {
      SameBytesSameLetters(provided, e.tag(key, input));
    }
  }

  lemma ComputedMacVerifies(e: Engine, key: seq<Byte>, input: string)
    ensures AllHex(ComputeMac(e, key, input))
    ensures VerifyMac(e, key, input, ComputeMac(e, key, input))
  {
    DecodeEncode(e.tag(key, input));
  }

  // ----- the four-arm capability ------------------------------------------

  datatype Capability = Capability(id: Uuid, nonce: string, exp: int, mac: string)

  predicate WellFormedNonce(nonce: string) { nonce != "" && AllHex(nonce) }

  // `parse_capability`: `{id}.{nonce}.{exp}.{mac}` and nothing else.
  function ParseCapability(link: string): (r: Option<Capability>)
    ensures r.Some? ==> WellFormedNonce(r.value.nonce) && |r.value.mac| == 64 && AllHex(r.value.mac)
  {
    var parts := Split(link);
    var id := ParseUuid(parts[0]);
    if id.None? || |parts| < 2 || !WellFormedNonce(parts[1]) || |parts| < 3 then None
    else
      var exp := ParseI64(parts[2]);
      if exp.None? || |parts| < 4 || |parts[3]| != 64 || !AllHex(parts[3]) || |parts| > 4 then None
      else Some(Capability(id.value, parts[1], exp.value, parts[3]))
  }

  function PrintCapability(c: Capability): string {
    PrintUuid(c.id) + "." + c.nonce + "." + PrintInt(c.exp) + "." + c.mac
  }

  lemma HexPlain(s: string)
    requires AllHex(s)
    ensures '.' !in s && '|' !in s
  {
    forall c | c in s ensures IsHex(c) {}
  }

  // Reading a printed capability returns it.
  lemma CapabilityRoundTrip(c: Capability)
    requires WellFormedNonce(c.nonce) && IsI64(c.exp) && |c.mac| == 64 && AllHex(c.mac)
    ensures ParseCapability(PrintCapability(c)) == Some(c)
  {
    UuidRoundTrip(c.id);
    HexPlain(c.nonce);
    HexPlain(c.mac);
    PrintIntPlain(c.exp);
    I64RoundTrip(c.exp);
    SplitFour(PrintUuid(c.id), c.nonce, PrintInt(c.exp), c.mac);
  }

  // The accepted links: four arms without dots, of which the first is a UUID
  // text, the second digits, the third a 64-bit number and the last 64
  // digits.
  lemma CapabilityGrammar(link: string, c: Capability)
    ensures ParseCapability(link) == Some(c) <==>
            exists id, exp ::
              && link == id + "." + c.nonce + "." + exp + "." + c.mac && '.' !in id && '.' !in exp
              && ParseUuid(id) == Some(c.id) && ParseI64(exp) == Some(c.exp)
              && c.nonce != "" && AllHex(c.nonce) && |c.mac| == 64 && AllHex(c.mac)
  {
    hide ParseUuid, ParseI64;
    if ParseCapability(link) == Some(c) {
      var parts := Split(link);
      FourParts(link, parts[0], parts[1], parts[2], parts[3]);
      assert parts == [parts[0], parts[1], parts[2], parts[3]];
    }
    forall id: string, exp: string | link == id + "." + c.nonce + "." + exp + "." + c.mac && '.' !in id && '.' !in exp
        && ParseUuid(id) == Some(c.id) && ParseI64(exp) == Some(c.exp)
        && c.nonce != "" && AllHex(c.nonce) && |c.mac| == 64 && AllHex(c.mac)
      ensures ParseCapability(link) == Some(c)
    {
      HexPlain(c.nonce);
      HexPlain(c.mac);
      FourParts(link, id, c.nonce, exp, c.mac);
    }
  }

  // ----- the MAC pre-images -----------------------------------------------

  const DOMAIN_BEARER := "portal-bearer"
  const DOMAIN_INVITE := "portal-invite"
  const DOMAIN_RECIPIENT := "portal-recipient"

  function CapabilityInput(domain: string, id: Uuid, nonce: string, grant: string, exp: int): string {
    domain + "|" + (PrintUuid(id) + "." + (nonce + "." + (grant + "." + PrintInt(exp))))
  }

  function RecipientInput(user: Uuid, email: string, exp: int): string {
    DOMAIN_RECIPIENT + "|" + (PrintUuid(user) + "|" + (email + "|" + PrintInt(exp)))
  }

  function BearerGrant(user: Uuid): string { "portal_bearer:" + PrintUuid(user) }

  function InviteGrant(email: string): string { "portal_invite:" + email }

  // What a MAC of this system vouches for.
  datatype Claim =
    | BearerClaim(id: Uuid, nonce: string, user: Uuid, exp: int)
    | InviteClaim(id: Uuid, nonce: string, email: string, exp: int)
    | RecipientClaim(user: Uuid, email: string, exp: int)

  function PreImage(c: Claim): string {
    match c
    case BearerClaim(id, nonce, user, exp) => CapabilityInput(DOMAIN_BEARER, id, nonce, BearerGrant(user), exp)
    case InviteClaim(id, nonce, email, exp) => CapabilityInput(DOMAIN_INVITE, id, nonce, InviteGrant(email), exp)
    case RecipientClaim(user, email, exp) => RecipientInput(user, email, exp)
  }

  function Key(e: Engine, c: Claim): seq<Byte> {
    if c.RecipientClaim? then e.recipientSecret else e.bearerSecret
  }

  // Minted nonces are hexadecimal, so they carry no dot. The email is free.
  predicate DotlessNonce(c: Claim) { c.RecipientClaim? || '.' !in c.nonce }

  lemma CapabilityInputInjective(
      domain: string, id: Uuid, nonce: string, grant: string, exp: int,
      domain': string, id': Uuid, nonce': string, grant': string, exp': int)
    requires '|' !in domain && '|' !in domain' && '.' !in nonce && '.' !in nonce'
    requires CapabilityInput(domain, id, nonce, grant, exp) == CapabilityInput(domain', id', nonce', grant', exp')
    ensures domain == domain' && id == id' && nonce == nonce' && grant == grant' && exp == exp'
  {
    UuidRoundTrip(id);
    UuidRoundTrip(id');
    PrintIntPlain(exp);
    PrintIntPlain(exp');
    var last, last' := grant + "." + PrintInt(exp), grant' + "." + PrintInt(exp');
    var tail, tail' := nonce + "." + last, nonce' + "." + last';
    FirstSeparator('|', domain, PrintUuid(id) + "." + tail, domain', PrintUuid(id') + "." + tail');
    FirstSeparator('.', PrintUuid(id), tail, PrintUuid(id'), tail');
    FirstSeparator('.', nonce, last, nonce', last');
    LastSeparator('.', grant, PrintInt(exp), grant', PrintInt(exp'));
    UuidInjective(id, id');
    PrintIntInjective(exp, exp');
  }

  lemma RecipientInputInjective(user: Uuid, email: string, exp: int, user': Uuid, email': string, exp': int)
    requires RecipientInput(user, email, exp) == RecipientInput(user', email', exp')
    ensures user == user' && email == email' && exp == exp'
  {
    UuidRoundTrip(user);
    UuidRoundTrip(user');
    PrintIntPlain(exp);
    PrintIntPlain(exp');
    var last, last' := email + "|" + PrintInt(exp), email' + "|" + PrintInt(exp');
    FirstSeparator('|', DOMAIN_RECIPIENT, PrintUuid(user) + "|" + last, DOMAIN_RECIPIENT,
        PrintUuid(user') + "|" + last');
    FirstSeparator('|', PrintUuid(user), last, PrintUuid(user'), last');
    LastSeparator('|', email, PrintInt(exp), email', PrintInt(exp'));
    UuidInjective(user, user');
    PrintIntInjective(exp, exp');
  }

  function Domain(c: Claim): string {
    match c
    case BearerClaim(_, _, _, _) => DOMAIN_BEARER
    case InviteClaim(_, _, _, _) => DOMAIN_INVITE
    case RecipientClaim(_, _, _) => DOMAIN_RECIPIENT
  }

  // What follows the first bar of a pre-image.
  function Body(c: Claim): string {
    match c
    case BearerClaim(id, nonce, user, exp) => CapabilityInput("", id, nonce, BearerGrant(user), exp)[1..]
    case InviteClaim(id, nonce, email, exp) => CapabilityInput("", id, nonce, InviteGrant(email), exp)[1..]
    case RecipientClaim(user, email, exp) => PrintUuid(user) + "|" + (email + "|" + PrintInt(exp))
  }

  lemma DomainFirst(c: Claim)
    ensures PreImage(c) == Domain(c) + "|" + Body(c) && '|' !in Domain(c)
  {
    assert '|' !in DOMAIN_BEARER && '|' !in DOMAIN_INVITE && '|' !in DOMAIN_RECIPIENT;
  }

  lemma DomainLetter(c: Claim)
    ensures |Domain(c)| > 7
    ensures Domain(c)[7] == if c.BearerClaim? then 'b' else if c.InviteClaim? then 'i' else 'r'
  {
  }

  // The text before the first bar names the family.
  lemma FamiliesDisjoint(c: Claim, c': Claim)
    requires PreImage(c) == PreImage(c')
    ensures c.BearerClaim? == c'.BearerClaim? && c.InviteClaim? == c'.InviteClaim?
  {
    DomainFirst(c);
    DomainFirst(c');
    FirstSeparator('|', Domain(c), Body(c), Domain(c'), Body(c'));
    DomainLetter(c);
    DomainLetter(c');
  }

  lemma BearerGrantInjective(user: Uuid, user': Uuid)
    requires BearerGrant(user) == BearerGrant(user')
    ensures user == user'
  {
    assert BearerGrant(user)[14..] == PrintUuid(user) && BearerGrant(user')[14..] == PrintUuid(user');
    UuidInjective(user, user');
  }

  lemma InviteGrantInjective(email: string, email': string)
    requires InviteGrant(email) == InviteGrant(email')
    ensures email == email'
  {
    assert InviteGrant(email)[14..] == email && InviteGrant(email')[14..] == email';
  }

  // Distinct claims have distinct pre-images, whatever dots and bars the
  // email holds.
  lemma PreImageInjective(c: Claim, c': Claim)
    requires DotlessNonce(c) && DotlessNonce(c')
    requires PreImage(c) == PreImage(c')
    ensures c == c'
  {
    FamiliesDisjoint(c, c');
    match c
    case BearerClaim(id, nonce, user, exp) =>
      CapabilityInputInjective(DOMAIN_BEARER, id, nonce, BearerGrant(user), exp,
                               DOMAIN_BEARER, c'.id, c'.nonce, BearerGrant(c'.user), c'.exp);
      BearerGrantInjective(user, c'.user);
    case InviteClaim(id, nonce, email, exp) =>
      CapabilityInputInjective(DOMAIN_INVITE, id, nonce, InviteGrant(email), exp,
                               DOMAIN_INVITE, c'.id, c'.nonce, InviteGrant(c'.email), c'.exp);
      InviteGrantInjective(email, c'.email);
    case RecipientClaim(user, email, exp) =>
      RecipientInputInjective(user, email, exp, c'.user, c'.email, c'.exp);
  }

  // The signed messages and the links, letter by letter.
  lemma Formats(e: Engine, id: Uuid, nonce: string, user: Uuid, email: string, exp: int)
    ensures PreImage(BearerClaim(id, nonce, user, exp)) ==
            "portal-bearer|" + PrintUuid(id) + "." + nonce + ".portal_bearer:" + PrintUuid(user) + "." + PrintInt(exp)
    ensures PreImage(InviteClaim(id, nonce, email, exp)) ==
            "portal-invite|" + PrintUuid(id) + "." + nonce + ".portal_invite:" + email + "." + PrintInt(exp)
    ensures PreImage(RecipientClaim(user, email, exp)) ==
            "portal-recipient|" + PrintUuid(user) + "|" + email + "|" + PrintInt(exp)
  {
    hide PrintUuid, PrintInt;
    var i, u, x := PrintUuid(id), PrintUuid(user), PrintInt(exp);
    assert "portal-bearer" + "|" == "portal-bearer|" && "portal-invite" + "|" == "portal-invite|";
    assert "portal-recipient" + "|" == "portal-recipient|";
    assert "." + "portal_bearer:" == ".portal_bearer:" && "." + "portal_invite:" == ".portal_invite:";
    Chain("portal-bearer|", i, nonce, "portal_bearer:", u, x);
    Chain("portal-invite|", i, nonce, "portal_invite:", email, x);
    assert "portal-recipient|" + (u + "|" + (email + "|" + x)) == "portal-recipient|" + u + "|" + email + "|" + x;
  }

  lemma Chain(domain: string, i: string, nonce: string, tag: string, g: string, x: string)
    ensures domain + (i + "." + (nonce + "." + ((tag + g) + "." + x))) ==
            domain + i + "." + nonce + ("." + tag) + g + "." + x
  {
  }

  predicate Vouches(e: Engine, mac: string, c: Claim) {
    VerifyMac(e, Key(e, c), PreImage(c), mac)
  }

  // A MAC that vouches for two claims, of one family or of two, exhibits a
  // collision of the keyed hash on two different messages.
  lemma OneMacOneClaim(e: Engine, mac: string, c: Claim, c': Claim)
    requires DotlessNonce(c) && DotlessNonce(c')
    requires Vouches(e, mac, c) && Vouches(e, mac, c')
    ensures c == c' ||
            (PreImage(c) != PreImage(c') && e.tag(Key(e, c), PreImage(c)) == e.tag(Key(e, c'), PreImage(c')))
  {
    if PreImage(c) == PreImage(c') {
      PreImageInjective(c, c');
    }
  }

  // ----- the bearer and invitation links ----------------------------------

  // `bearer_link`: refused while the secret is unset.
  function BearerLink(e: Engine, id: Uuid, nonce: string, user: Uuid, expires: Time): Option<string> {
    if e.bearerSecret == [] then None
    else
      var exp := Timestamp(expires);
      var mac := ComputeMac(e, e.bearerSecret, PreImage(BearerClaim(id, nonce, user, exp)));
      Some(PrintCapability(Capability(id, nonce, exp, mac)))
  }

  function InviteLink(e: Engine, id: Uuid, nonce: string, email: string, exp: int): Option<string> {
    if e.bearerSecret == [] then None
    else
      var mac := ComputeMac(e, e.bearerSecret, PreImage(InviteClaim(id, nonce, email, exp)));
      Some(PrintCapability(Capability(id, nonce, exp, mac)))
  }

  // The arm tests `verify_bearer` makes on a parsed link against the stored
  // nonce, owner and expiry.
  predicate BearerArmsMatch(e: Engine, c: Capability, nonce: string, user: Uuid, expires: Time) {
    var exp := Timestamp(expires);
    VerifyMac(e, e.bearerSecret, PreImage(BearerClaim(c.id, nonce, user, exp)), c.mac)
    && c.nonce == nonce && c.exp == exp
  }

  predicate InviteArmsMatch(e: Engine, c: Capability, nonce: string, email: string, expires: Time) {
    var exp := Timestamp(expires);
    e.bearerSecret != []
    && VerifyMac(e, e.bearerSecret, PreImage(InviteClaim(c.id, nonce, email, exp)), c.mac)
    && c.nonce == nonce && c.exp == exp
  }

  // Two links that read the same up to the letter case of the MAC.
  predicate SameReading(link: string, printed: string) {
    var a, b := ParseCapability(link), ParseCapability(printed);
    a.Some? && b.Some? && a.value.id == b.value.id && a.value.nonce == b.value.nonce
    && a.value.exp == b.value.exp && LowerHex(a.value.mac) == LowerHex(b.value.mac)
  }

  lemma LowerHexOfPrinted(bytes: seq<Byte>)
    ensures LowerHex(EncodeHex(bytes)) == EncodeHex(bytes)
  {
    DecodeEncode(bytes);
    EncodeDecode(EncodeHex(bytes));
  }

  lemma PrintedArms(e: Engine, claim: string, id: Uuid, nonce: string, exp: int)
    requires WellFormedNonce(nonce) && IsI64(exp)
    ensures var c := Capability(id, nonce, exp, ComputeMac(e, e.bearerSecret, claim));
            ParseCapability(PrintCapability(c)) == Some(c) && LowerHex(c.mac) == c.mac
  {
    ComputedMacVerifies(e, e.bearerSecret, claim);
    LowerHexOfPrinted(e.tag(e.bearerSecret, claim));
    CapabilityRoundTrip(Capability(id, nonce, exp, ComputeMac(e, e.bearerSecret, claim)));
  }

  // The arm tests pass exactly for the readings of the row's own link.
  lemma BearerArmsIffReading(e: Engine, link: string, id: Uuid, nonce: string, user: Uuid, expires: Time)
    requires WellFormedNonce(nonce) && InRange(expires) && e.bearerSecret != []
    ensures SameReading(link, BearerLink(e, id, nonce, user, expires).value) <==>
            ParseCapability(link).Some? && ParseCapability(link).value.id == id
            && BearerArmsMatch(e, ParseCapability(link).value, nonce, user, expires)
  {
    var claim := PreImage(BearerClaim(id, nonce, user, Timestamp(expires)));
    PrintedArms(e, claim, id, nonce, Timestamp(expires));
    if ParseCapability(link).Some? {
      VerifyMacIffSpelling(e, e.bearerSecret, claim, ParseCapability(link).value.mac);
    }
  }

  lemma InviteArmsIffReading(e: Engine, link: string, id: Uuid, nonce: string, email: string, expires: Time)
    requires WellFormedNonce(nonce) && InRange(expires) && e.bearerSecret != []
    ensures SameReading(link, InviteLink(e, id, nonce, email, Timestamp(expires)).value) <==>
            ParseCapability(link).Some? && ParseCapability(link).value.id == id
            && InviteArmsMatch(e, ParseCapability(link).value, nonce, email, expires)
  {
    var claim := PreImage(InviteClaim(id, nonce, email, Timestamp(expires)));
    PrintedArms(e, claim, id, nonce, Timestamp(expires));
    if ParseCapability(link).Some? {
      VerifyMacIffSpelling(e, e.bearerSecret, claim, ParseCapability(link).value.mac);
    }
  }

  // ----- the recipient credential -----------------------------------------

  datatype Recipient = Recipient(user: Uuid, email: string, exp: int, mac: string)

  function PrintRecipient(r: Recipient): string {
    PrintUuid(r.user) + "." + r.email + "." + PrintInt(r.exp) + "." + r.mac
  }

  function Last(parts: seq<string>): string {
    if parts == [] then "" else parts[|parts| - 1]
  }

  function Front(parts: seq<string>): seq<string> {
    if parts == [] then [] else parts[..|parts| - 1]
  }

  // The arms after the user: the MAC and then the expiry from the right, and
  // the middle joined again is the email.
  function ReadArms(user: Uuid, rest: seq<string>): Option<Recipient> {
    var mac, exp := Last(rest), ParseI64(Last(Front(rest)));
    if |mac| != 64 || exp.None? then None
    else Some(Recipient(user, Join(Front(Front(rest))), exp.value, mac))
  }

  // Arms are consumed from both ends, the user from the left.
  function ParseRecipient(value: string): Option<Recipient> {
    var parts := Split(value);
    var user := ParseUuid(parts[0]);
    if user.None? then None else ReadArms(user.value, parts[1..])
  }

  // `verify_recipient_credential`
  predicate VerifyRecipient(e: Engine, value: string, now: int) {
    var r := ParseRecipient(value);
    e.recipientSecret != [] && r.Some?
    && VerifyMac(e, e.recipientSecret, RecipientInput(r.value.user, r.value.email, r.value.exp), r.value.mac)
    && now <= r.value.exp
  }

  // The link `mint_recipient_credential` returns at instant `at`.
  function MintRecipient(e: Engine, user: Uuid, email: string, at: Time): Option<string> {
    if e.recipientSecret == [] then None
    else
      var exp := Timestamp(at + RECIPIENT_HMAC_TTL_DAYS * DAY);
      var mac := ComputeMac(e, e.recipientSecret, RecipientInput(user, email, exp));
      Some(PrintRecipient(Recipient(user, email, exp, mac)))
  }

  lemma SplitRecipient(a: string, email: string, c: string, d: string)
    requires '.' !in a && '.' !in c && '.' !in d
    ensures var parts := Split(a + "." + email + "." + c + "." + d);
            parts[0] == a && parts[1..] == Split(email) + [c] + [d]
  {
    SplitDotless(a);
    SplitDotless(c);
    SplitDotless(d);
    SplitConcat(a, email);
    SplitConcat(a + "." + email, c);
    SplitConcat(a + "." + email + "." + c, d);
    var parts := Split(a + "." + email + "." + c + "." + d);
    assert parts == [a] + (Split(email) + [c] + [d]);
  }

  lemma SplitThree(a: string, c: string, d: string)
    requires '.' !in a && '.' !in c && '.' !in d
    ensures var parts := Split(a + "." + c + "." + d); parts[0] == a && parts[1..] == [c] + [d]
  {
    SplitDotless(a);
    SplitDotless(c);
    SplitDotless(d);
    SplitConcat(a, c);
    SplitConcat(a + "." + c, d);
    assert [a] + [c] + [d] == [a] + ([c] + [d]);
  }

  lemma FrontLast(parts: seq<string>, x: string)
    ensures Front(parts + [x]) == parts && Last(parts + [x]) == x
  {
  }

  lemma ReadPrintedArms(middle: seq<string>, c: string, r: Recipient)
    requires ParseI64(c) == Some(r.exp) && |r.mac| == 64 && Join(middle) == r.email
    ensures ReadArms(r.user, middle + [c] + [r.mac]) == Some(r)
  {
    FrontLast(middle + [c], r.mac);
    FrontLast(middle, c);
  }

  // Reading a printed recipient credential returns it, for every email
  // string, dots included.
  lemma RecipientRoundTrip(r: Recipient)
    requires IsI64(r.exp) && |r.mac| == 64 && '.' !in r.mac
    ensures ParseRecipient(PrintRecipient(r)) == Some(r)
  {
    UuidRoundTrip(r.user);
    PrintIntPlain(r.exp);
    I64RoundTrip(r.exp);
    SplitRecipient(PrintUuid(r.user), r.email, PrintInt(r.exp), r.mac);
    JoinSplit(r.email);
    ReadPrintedArms(Split(r.email), PrintInt(r.exp), r);
  }

  // A minted credential verifies up to and including its expiry second and
  // at no later one.
  lemma MintedRecipientVerifies(e: Engine, user: Uuid, email: string, at: Time, now: int)
    requires e.recipientSecret != []
    requires -0x8000_0000_0000_0000 <= (at + 180 * 86_400_000_000) / 1_000_000 <= 0x7FFF_FFFF_FFFF_FFFF
    ensures VerifyRecipient(e, MintRecipient(e, user, email, at).value, now) <==>
            now <= (at + 180 * 86_400_000_000) / 1_000_000
  {
    var exp := Timestamp(at + RECIPIENT_HMAC_TTL_DAYS * DAY);
    var input := RecipientInput(user, email, exp);
    ComputedMacVerifies(e, e.recipientSecret, input);
    var mac := ComputeMac(e, e.recipientSecret, input);
    HexPlain(mac);
    RecipientRoundTrip(Recipient(user, email, exp, mac));
  }

  // A verified value vouches for what it reads as, and the MAC then decides
  // the whole reading: two verified values with the same MAC read alike, or
  // the keyed hash collides.
  lemma VerifiedRecipientReading(e: Engine, value: string, now: int, value': string, now': int)
    requires VerifyRecipient(e, value, now) && VerifyRecipient(e, value', now')
    requires ParseRecipient(value).value.mac == ParseRecipient(value').value.mac
    ensures var r, r' := ParseRecipient(value).value, ParseRecipient(value').value;
            var m, m' := RecipientInput(r.user, r.email, r.exp), RecipientInput(r'.user, r'.email, r'.exp);
            r == r' || (m != m' && e.tag(e.recipientSecret, m) == e.tag(e.recipientSecret, m'))
  {
    var r, r' := ParseRecipient(value).value, ParseRecipient(value').value;
    OneMacOneClaim(e, r.mac, RecipientClaim(r.user, r.email, r.exp), RecipientClaim(r'.user, r'.email, r'.exp));
  }

  // A missing email arm and an empty one read alike: as the empty email.
  lemma MissingEmailArm(r: Recipient)
    requires r.email == "" && IsI64(r.exp) && |r.mac| == 64 && '.' !in r.mac
    ensures ParseRecipient(PrintUuid(r.user) + "." + PrintInt(r.exp) + "." + r.mac) == Some(r)
    ensures ParseRecipient(PrintRecipient(r)) == Some(r)
  {
    RecipientRoundTrip(r);
    UuidRoundTrip(r.user);
    PrintIntPlain(r.exp);
    I64RoundTrip(r.exp);
    SplitThree(PrintUuid(r.user), PrintInt(r.exp), r.mac);
    ReadPrintedArms([], PrintInt(r.exp), r);
    assert [] + [PrintInt(r.exp)] + [r.mac] == [PrintInt(r.exp)] + [r.mac];
  }
}
