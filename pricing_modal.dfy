/**
 * The checkout logic of `src/components/PricingModal.tsx`: the tiers of the
 * pricing configuration get their `stripe:` references resolved against
 * the checkout table of `src/config/stripe.ts`, a chosen plan is dispatched
 * to closing the modal, a prefilled e-mail or a checkout tab, and each
 * tier's button is labelled by its price. The rendering is not modelled;
 * the tiers themselves come from a JSON file and are a parameter.
 */
module PricingModal {
  import opened Wrappers
  import opened Strings
  import opened Uri

  /** A tier's `checkoutUrl`: `null`, `undefined` (what a missing checkout
      key resolves to) or a string. */
  datatype Link = NoLink | Missing | Href(url: string)

  datatype Color = Gray | ElectricTeal | CyberViolet

  /** `PricingMetadata`; the optional flags are `None` when absent. */
  datatype PricingMetadata = PricingMetadata(
    tier: string,
    tierLevel: int,
    models: string,
    requestsPerMonth: int,
    rateLimit: string,
    support: string,
    apiAccess: bool,
    workspaces: int,
    earlyAccess: Option<bool>,
    sso: Option<bool>,
    onPremise: Option<bool>,
    sla: Option<string>,
    customModels: Option<bool>)

  /** `PricingTier`; a `None` price is custom pricing. */
  datatype Tier = Tier(
    name: string,
    price: Option<real>,
    popular: bool,
    description: string,
    features: seq<string>,
    checkoutUrl: Link,
    color: Color,
    metadata: PricingMetadata)

  const CheckoutHost := "https://buy.stripe.com/"

  /** `STRIPE_CHECKOUT_URLS`. */
  const StripeCheckoutUrls: map<string, string> := map[
    "starter" := CheckoutHost + "cNi28tgqvadt5yI6Yl2Ry00",
    "pro" := CheckoutHost + "cNi00l5LRclB4uEgyV2Ry01",
    "business" := CheckoutHost + "5kQdRbfmr4T9f9i1E12Ry02"]

  const StripePrefix := "stripe:"

  /** The checkout link of one tier: a `stripe:` reference is replaced by the
      table entry for the rest of the string (`undefined` when there is
      none); anything else is kept. */
  function Resolve(link: Link): (r: Link)
    ensures link.Href? && StartsWith(link.url, StripePrefix) ==>
              var key := link.url[|StripePrefix|..];
              r == if key in StripeCheckoutUrls then Href(StripeCheckoutUrls[key]) else Missing
    ensures !(link.Href? && StartsWith(link.url, StripePrefix)) ==> r == link
  {
    match link
    case Href(url) =>
      if StartsWith(url, StripePrefix) then
        var key := ReplaceFirst(url, StripePrefix, "");
        ReplacePrefix(url, StripePrefix);
        if key in StripeCheckoutUrls then Href(StripeCheckoutUrls[key]) else Missing
      else link
    case _ => link
  }

  /** No checkout URL is itself a `stripe:` reference. */
  lemma CheckoutUrlsAreFinal()
    ensures forall key :: key in StripeCheckoutUrls ==> !StartsWith(StripeCheckoutUrls[key], StripePrefix)
  {
    forall key | key in StripeCheckoutUrls
      ensures !StartsWith(StripeCheckoutUrls[key], StripePrefix)
    {
      assert StripeCheckoutUrls[key][0] == CheckoutHost[0] == 'h';
    }
  }

  /** Resolving twice is resolving once. */
  lemma ResolveIdempotent(link: Link)
    ensures Resolve(Resolve(link)) == Resolve(link)
  {
    CheckoutUrlsAreFinal();
  }

  /** A `stripe:` reference names its checkout URL, a reference to a key
      the table lacks comes out `undefined`, and `contact` is kept. */
  lemma StripeProResolves()
    ensures Resolve(Href("stripe:pro")) == Href(CheckoutHost + "cNi00l5LRclB4uEgyV2Ry01")
  {
    assert "stripe:pro"[7..] == "pro";
  }

  lemma UnknownStripeKeyIsMissing()
    ensures Resolve(Href("stripe:enterprise")) == Missing
  {
    assert "stripe:enterprise"[7..] == "enterprise";
  }

  lemma ContactIsKept()
    ensures Resolve(Href("contact")) == Href("contact")
  {
    assert "contact"[0] != StripePrefix[0];
  }

  /** The `tiers` mapping: same tiers in the same order, only the checkout
      link resolved. */
  function ResolveTiers(tiers: seq<Tier>): (r: seq<Tier>)
    ensures |r| == |tiers|
    ensures forall i :: 0 <= i < |tiers| ==> r[i] == tiers[i].(checkoutUrl := Resolve(tiers[i].checkoutUrl))
  {
    if tiers == [] then []
    else [tiers[0].(checkoutUrl := Resolve(tiers[0].checkoutUrl))] + ResolveTiers(tiers[1..])
  }

  /** The modal renders nothing when closed; otherwise the resolved tiers. */
  function VisibleTiers(isOpen: bool, tiers: seq<Tier>): (r: Option<seq<Tier>>)
    ensures r.None? <==> !isOpen
    ensures r.Some? ==> r.value == ResolveTiers(tiers)
  {
    if !isOpen then None else Some(ResolveTiers(tiers))
  }

  /** What choosing a plan does. */
  datatype Action =
    | CloseModal                          // onClose()
    | Navigate(href: string)              // window.location.href = href
    | OpenNewTab(url: Option<string>)     // window.open(url, '_blank', 'noopener,noreferrer')

  /** The e-mail link up to the subject's value. */
  const MailtoPrefix := "mailto:hello@hacktoolkit.com?subject="
  const ContactSubject := "Hexa Enterprise Inquiry"
  const ContactBody :=
    "Hi Hacktoolkit team,\n\nI'm interested in learning more about Hexa ⟡ Enterprise for my organization.\n\n" +
    "Company Details:\n- Company Name:\n- Number of Developers:\n- Use Case:\n\n" +
    "Please provide information about:\n- Pricing and licensing options\n- On-premise deployment\n" +
    "- Custom model training\n- SLA and support options\n\nBest regards"

  /** The prefilled e-mail link, its subject and body encoded. */
  function MailtoHref(subject: string, body: string): (href: string)
    ensures StartsWith(href, MailtoPrefix)
    ensures QueryText(href[|MailtoPrefix|..])
    ensures BodyQuery(href[|MailtoPrefix|..], |EncodeURIComponent(subject)|)
  {
    EncodedQuery(subject, body);
    EncodedHasNoDelimiter(subject);
    EncodedHasNoDelimiter(body);
    EncodedBodyQuery(EncodeURIComponent(subject), EncodeURIComponent(body));
    AfterHead(MailtoPrefix, EncodeURIComponent(subject), "&body=", EncodeURIComponent(body));
    MailtoPrefix + EncodeURIComponent(subject) + "&body=" + EncodeURIComponent(body)
  }

  lemma AfterHead(head: string, a: string, b: string, c: string)
    ensures StartsWith(head + a + b + c, head)
    ensures (head + a + b + c)[|head|..] == a + b + c
  {
    assert (head + a + b + c) == head + (a + b + c);
  }

  /** Text made only of unreserved characters, `%` escapes and the `&` and
      `=` that separate query parameters. */
  predicate QueryText(q: string) {
    forall i :: 0 <= i < |q| ==> Unreserved(q[i]) || q[i] in "%&="
  }

  lemma EncodedQuery(subject: string, body: string)
    ensures QueryText(EncodeURIComponent(subject) + "&body=" + EncodeURIComponent(body))
  {
    assert QueryText("&body=");
    QueryTextJoin(EncodeURIComponent(subject), "&body=", EncodeURIComponent(body));
  }

  lemma QueryTextJoin(a: string, sep: string, b: string)
    requires QueryText(a) && QueryText(sep) && QueryText(b)
    ensures QueryText(a + sep + b)
  {
    var q := a + sep + b;
    forall i | 0 <= i < |q|
      ensures Unreserved(q[i]) || q[i] in "%&="
    {
      if i < |a| {
        assert q[i] == a[i];
      } else if i < |a| + |sep| {
        assert q[i] == sep[i - |a|];
      } else {
        assert q[i] == b[i - |a| - |sep|];
      }
    }
  }

  /** `q` is a subject value, then `&body=` at `k`, then a body value: it
      holds no other `&` or `=`, and every `%` in it starts an escape. */
  predicate BodyQuery(q: string, k: int) {
    0 <= k && k + 6 <= |q| && q[k..k + 6] == "&body=" && WellEscaped(q) &&
    forall i :: 0 <= i < |q| ==> (q[i] == '&' <==> i == k) && (q[i] == '=' <==> i == k + 5)
  }

  lemma EncodedBodyQuery(a: string, b: string)
    requires WellEscaped(a) && '&' !in a && '=' !in a
    requires WellEscaped(b) && '&' !in b && '=' !in b
    ensures BodyQuery(a + "&body=" + b, |a|)
  {
    var sep := "&body=";
    var q := a + sep + b;
    assert sep[0] == '&' && sep[1] == 'b' && sep[2] == 'o' && sep[3] == 'd' && sep[4] == 'y' && sep[5] == '=';
    assert WellEscaped(sep);
    EscapedJoin(a, sep);
    EscapedJoin(a + sep, b);
    forall i | 0 <= i < |q|
      ensures (q[i] == '&' <==> i == |a|) && (q[i] == '=' <==> i == |a| + 5)
    {
      if i < |a| {
        assert q[i] == a[i];
      } else if i < |a| + 6 {
        assert q[i] == sep[i - |a|];
      } else {
        assert q[i] == b[i - |a| - 6];
      }
    }
    assert q[|a|..|a| + 6] == sep;
  }

  /** `handleChoosePlan(url)`. */
  function ChoosePlan(url: Link): (a: Action)
    ensures a == CloseModal <==> url == NoLink
    ensures a.Navigate? <==> url == Href("contact")
    ensures a.Navigate? ==> a.href == MailtoHref(ContactSubject, ContactBody)
    ensures a.OpenNewTab? ==> a.url == (if url.Href? then Some(url.url) else None)
  {
    match url
    case NoLink => CloseModal
    case Missing => OpenNewTab(None)
    case Href(u) =>
      if u == "contact" then Navigate(MailtoHref(ContactSubject, ContactBody))
      else OpenNewTab(Some(u))
  }

  /** In a text made of an `&`-free head, an `&`-free value and a rest that
      starts with `&`, the first `&` is the one that ends the value. */
  lemma FirstAmpersand(head: string, value: string, rest: string)
    requires '&' !in head && '&' !in value && StartsWith(rest, "&")
    ensures var text := head + value + rest;
            IndexOf(text, "&") == Some(|head| + |value|) &&
            text[..|head| + |value|] == head + value && text[|head|..|head| + |value|] == value &&
            text[|head| + |value|..] == rest
  {
    var text := head + value + rest;
    var end := |head| + |value|;
    forall j | 0 <= j < end
      ensures !OccursAt(text, "&", j)
    {
      assert text[j..j + 1][0] == text[j];
      if j < |head| {
        assert text[j] == head[j];
      } else {
        assert text[j] == value[j - |head|];
      }
    }
    assert text[end..end + 1] == rest[..1];
    assert OccursAt(text, "&", end);
    assert text[..end] == head + value;
    assert text[|head|..end] == value;
    assert text[end..] == rest;
  }

  lemma MailtoPrefixHasNoAmpersand()
    ensures '&' !in MailtoPrefix
  {
  }

  /** The first `&` of the e-mail link is the one that ends the encoded
      subject, and what follows `&body=` is exactly the encoded body, so a
      mail client reading the link gets back the subject and the body as
      written. */
  lemma MailtoQuerySplits(subject: string, body: string)
    ensures var href := MailtoHref(subject, body);
            var end := |MailtoPrefix| + |EncodeURIComponent(subject)|;
            IndexOf(href, "&") == Some(end) &&
            href[..end] == MailtoPrefix + EncodeURIComponent(subject) &&
            href[end..] == "&body=" + EncodeURIComponent(body) &&
            DecodeURIComponent(href[|MailtoPrefix|..end]) == Some(subject) &&
            DecodeURIComponent(href[end + 6..]) == Some(body)
  {
    MailtoPrefixHasNoAmpersand();
    EncodedHasNoDelimiter(subject);
    var encoded := EncodeURIComponent(subject);
    var href := MailtoHref(subject, body);
    var end := |MailtoPrefix| + |encoded|;
    assert href == MailtoPrefix + encoded + "&body=" + EncodeURIComponent(body);
    QuerySplits(MailtoPrefix, encoded, EncodeURIComponent(body));
    DecodesBack(href[|MailtoPrefix|..end], subject);
    DecodesBack(href[end + 6..], body);
  }

  lemma DecodesBack(text: string, s: string)
    requires text == EncodeURIComponent(s)
    ensures DecodeURIComponent(text) == Some(s)
  {
    DecodeEncode(s);
  }

  /** How a query `head + subject + "&body=" + body` splits when neither
      `head` nor `subject` holds an `&`. */
  lemma QuerySplits(head: string, subject: string, body: string)
    requires '&' !in head && '&' !in subject
    ensures var href := head + subject + "&body=" + body;
            var end := |head| + |subject|;
            IndexOf(href, "&") == Some(end) &&
            href[..end] == head + subject && href[|head|..end] == subject &&
            href[end..] == "&body=" + body && href[end + 6..] == body
  {
    var rest := "&body=" + body;
    var href := head + subject + "&body=" + body;
    assert href == head + subject + rest;
    assert rest[..1] == "&";
    FirstAmpersand(head, subject, rest);
    var end := |head| + |subject|;
    assert href[end + 6..] == rest[6..] == body;
  }

  /** `'Current Plan'` for a free tier, `'Contact Sales'` for custom pricing,
      otherwise `'Choose '` and the tier's name. */
  function ButtonLabel(tier: Tier): (caption: string)
    ensures caption == "Current Plan" <==> tier.price == Some(0.0)
    ensures caption == "Contact Sales" <==> tier.price.None?
    ensures tier.price.Some? && tier.price.value != 0.0 ==> caption == "Choose " + tier.name
  {
    if tier.price == Some(0.0) then "Current Plan"
    else if tier.price.None? then "Contact Sales"
    else
      assert ("Choose " + tier.name)[1] == 'h';
      "Choose " + tier.name
  }
}
