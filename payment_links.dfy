/**
 * Payment-link creation (`POST /api/payment-links`): a pending link record
 * built from a random URL-safe token and the current time, both supplied by
 * the caller, which the front end turns into a mock checkout at `/pay/<token>`.
 */
module PaymentLinks {
  import opened Wrappers
  import opened Schemas
  import opened ObjectIds
  import opened Documents

  datatype PaymentLinkCreate = PaymentLinkCreate(
    customerId: string,
    amountCents: int,
    description: Option<string>)

  const PayPrefix := "/pay/"

  /** How long a link stays valid: seven days. */
  const LinkLifetime: int := 7 * SecondsPerDay

  /** The alphabet of URL-safe base64. */
  predicate UrlSafe(c: char) {
    'A' <= c <= 'Z' || 'a' <= c <= 'z' || '0' <= c <= '9' || c == '-' || c == '_'
  }

  /** What a 12-byte URL-safe token looks like: 16 characters of that alphabet. */
  predicate IsUrlToken(token: string) {
    |token| == 16 && forall i :: 0 <= i < |token| ==> UrlSafe(token[i])
  }

  function PayUrl(token: string): string {
    PayPrefix + token
  }

  /** The token a checkout page reads back from a link's path. */
  function TokenOfUrl(url: string): Option<string> {
    if |url| >= |PayPrefix| && url[..|PayPrefix|] == PayPrefix then Some(url[|PayPrefix|..]) else None
  }

  /** The path of a link gives back its token, so distinct tokens give distinct paths. */
  lemma PayUrlRoundTrip(token: string)
    ensures TokenOfUrl(PayUrl(token)) == Some(token)
  {
  }

  lemma PayUrlInjective(a: string, b: string)
    ensures PayUrl(a) == PayUrl(b) ==> a == b
  {
    PayUrlRoundTrip(a);
    PayUrlRoundTrip(b);
  }

  /** A link built from a URL-safe token is a 21-character path made of `/` and URL-safe characters. */
  lemma PayUrlIsSafePath(token: string)
    requires IsUrlToken(token)
    ensures |PayUrl(token)| == 21
    ensures forall i :: 0 <= i < |PayUrl(token)| ==> PayUrl(token)[i] == '/' || UrlSafe(PayUrl(token)[i])
  {
  }

  /** The link record written for a request. */
  function LinkFor(req: PaymentLinkCreate, token: string, now: Timestamp): PaymentLink {
    PaymentLink(req.customerId, req.amountCents, "AUD", req.description, PaymentStatus.Pending,
                Some(token), Some(PayUrl(token)), Some(now + LinkLifetime))
  }

  /** The endpoint's reply: the link's identifier, its token and its path. */
  datatype LinkReply = LinkReply(id: string, token: string, url: string)

  /**
   * The store after one request, and the reply: slots and bookings are
   * untouched, one link is appended under the fresh identifier, and the
   * reply carries that identifier, the token and a path that gives the
   * token back.
   */
  function IssueLink(t: Tables, req: PaymentLinkCreate, token: string, now: Timestamp): (res: (Tables, LinkReply))
    ensures res.0.slots == t.slots && res.0.bookings == t.bookings
    ensures |res.0.links| == |t.links| + 1 && res.0.links[..|t.links|] == t.links
    ensures res.0.links[|t.links|].id == t.nextId && res.0.nextId == t.nextId + 1
    ensures ParseObjectId(res.1.id) == Some(t.nextId)
    ensures res.1.token == token && TokenOfUrl(res.1.url) == Some(token)
  {
    ParseIdString(t.nextId);
    PayUrlRoundTrip(token);
    var link := LinkFor(req, token, now);
    (t.(links := t.links + [LinkDoc(t.nextId, link)], nextId := t.nextId + 1),
     LinkReply(IdString(t.nextId), token, link.url.value))
  }

  /**
   * Exactly one link is appended under a fresh identifier: pending, in AUD,
   * for the requested customer, amount and description, carrying the token,
   * the path "/pay/" + token, and an expiry seven days after `now`. Slots and
   * bookings are untouched, and the reply names the new record.
   */
  lemma IssueLinkAppendsPendingLink(t: Tables, req: PaymentLinkCreate, token: string, now: Timestamp)
    ensures var (after, reply) := IssueLink(t, req, token, now);
            && after.slots == t.slots
            && after.bookings == t.bookings
            && after.nextId == t.nextId + 1
            && |after.links| == |t.links| + 1
            && after.links[..|t.links|] == t.links
            && var l := after.links[|t.links|];
            && l.id == t.nextId
            && ParseObjectId(reply.id) == Some(l.id)
            && l.link.customerId == req.customerId
            && l.link.amountCents == req.amountCents
            && l.link.description == req.description
            && l.link.status == PaymentStatus.Pending
            && l.link.currency == "AUD"
            && l.link.token == Some(token) && reply.token == token
            && l.link.url == Some(reply.url) && TokenOfUrl(reply.url) == Some(token)
            && l.link.expiresAt == Some(now + 7 * 86400)
  {
    ParseIdString(t.nextId);
    PayUrlRoundTrip(token);
  }

  /** A new link agrees with the schema's defaults for currency and status. */
  lemma LinkUsesSchemaDefaults(req: PaymentLinkCreate, token: string, now: Timestamp)
    ensures var l := LinkFor(req, token, now);
            var d := NewPaymentLink(req.customerId, req.amountCents);
            l.currency == d.currency && l.status == d.status
  {
  }

  lemma IssueLinkPreservesWellFormed(t: Tables, req: PaymentLinkCreate, token: string, now: Timestamp)
    requires WellFormed(t)
    ensures WellFormed(IssueLink(t, req, token, now).0)
  {
    var after := IssueLink(t, req, token, now).0;
    forall i, j | 0 <= i < j < |after.links| ensures after.links[i].id != after.links[j].id {
      if j == |t.links| {
        assert t.links[i] in t.links;
      }
    }
  }
}
