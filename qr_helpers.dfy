/**
 * The payload formatter: from a content type and the details record to the
 * one string the QR code encodes. One branch per micro-format: the URL
 * itself, plain text, a mailto URI, a tel URI, the SMSTO and WIFI barcode
 * conventions, a wa.me link, a vCard 3.0 body and a bare VEVENT block.
 */
module QrHelpers {
  import opened Wrappers
  import opened Types
  import opened Strings
  import opened UriEncoding

  /**
   * `s.replace(/\D/g, '')`. In JavaScript `\D` is every character but the
   * ASCII digits, so only 0-9 survive.
   */
  function OnlyDigits(s: string): string
  {
    Filter(s, IsDecimalDigit)
  }

  predicate IsNotDateSeparator(c: char)
  {
    c != '-' && c != ':'
  }

  /** `s.replace(/[-:]/g, '')`. */
  function StripDateSeparators(s: string): string
  {
    Filter(s, IsNotDateSeparator)
  }

  /** generateQRString(type, details); each `x || d` is `Or(x, d)`. */
  function GenerateQRString(t: QRType, d: Details): string
  {
    match t
    case Link | Pdf | App | Image | Video | Social => Or(d.url, "")
    case Text => Or(d.text, "")
    case Email => EmailPayload(d)
    case Phone => "tel:" + Or(d.phone, "")
    case Sms => SmsPayload(d)
    case WhatsApp => WhatsAppPayload(d)
    case Wifi => WifiPayload(d)
    case VCard => VCardPayload(d)
    case Event => EventPayload(d)
    case Unknown(_) => ""
  }

  function EmailPayload(d: Details): string
  {
    "mailto:" + Or(d.email, "") + "?subject=" + EncodeURIComponent(Or(d.subject, ""))
    + "&body=" + EncodeURIComponent(Or(d.body, ""))
  }

  function SmsPayload(d: Details): string
  {
    "SMSTO:" + Or(d.phone, "") + ":" + Or(d.text, "")
  }

  function WhatsAppPayload(d: Details): string
  {
    "https://wa.me/" + OnlyDigits(Or(d.phone, "")) + "?text=" + EncodeURIComponent(Or(d.text, ""))
  }

  function WifiPayload(d: Details): string
  {
    "WIFI:T:" + Or(d.encryption, "WPA") + ";S:" + Or(d.ssid, "") + ";P:" + Or(d.password, "") + ";;"
  }

  function VCardPayload(d: Details): string
  {
    VCardText(Or(d.firstName, ""), Or(d.lastName, ""), Or(d.organization, ""), Or(d.phone, ""),
              Or(d.email, ""))
  }

  /**
   * The vCard template with its field values filled in. The template's line
   * breaks are LF; each line is one parenthesised group.
   */
  function VCardText(first: string, last: string, org: string, phone: string, email: string)
    : string
  {
    "BEGIN:VCARD" + "\n"
    + "VERSION:3.0" + "\n"
    + ("N:" + last + ";" + first) + "\n"
    + ("FN:" + first + " " + last) + "\n"
    + ("ORG:" + org) + "\n"
    + ("TEL:" + phone) + "\n"
    + ("EMAIL:" + email) + "\n"
    + "END:VCARD"
  }

  function EventPayload(d: Details): string
  {
    EventText(Or(d.eventTitle, ""), Or(d.eventLocation, ""),
              StripDateSeparators(Or(d.eventStart, "")), StripDateSeparators(Or(d.eventEnd, "")))
  }

  /** The event template with its (already stripped) values filled in. */
  function EventText(title: string, location: string, start: string, end: string): string
  {
    "BEGIN:VEVENT" + "\n"
    + ("SUMMARY:" + title) + "\n"
    + ("LOCATION:" + location) + "\n"
    + ("DTSTART:" + start) + "\n"
    + ("DTEND:" + end) + "\n"
    + "END:VEVENT"
  }

  // ---- the two regular-expression filters ----

  /**
   * The WhatsApp phone clean-up keeps exactly the ASCII digits, each as often
   * as it occurs, in their original order, and is idempotent.
   */
  lemma OnlyDigitsSpec(s: string)
    ensures forall i :: 0 <= i < |OnlyDigits(s)| ==> '0' <= OnlyDigits(s)[i] <= '9'
    ensures forall c :: multiset(OnlyDigits(s))[c] == if '0' <= c <= '9' then multiset(s)[c] else 0
    ensures IsSubsequence(OnlyDigits(s), s)
    ensures OnlyDigits(OnlyDigits(s)) == OnlyDigits(s)
  {
    FilterKeepsOnly(s, IsDecimalDigit);
    FilterCounts(s, IsDecimalDigit);
    FilterIsSubsequence(s, IsDecimalDigit);
    FilterIdempotent(s, IsDecimalDigit);
  }

  /** A phone number already made of digits passes unchanged. */
  lemma OnlyDigitsOfDigits(s: string)
    requires forall i :: 0 <= i < |s| ==> '0' <= s[i] <= '9'
    ensures OnlyDigits(s) == s
  {
    FilterKeepsAll(s, IsDecimalDigit);
  }

  /** Digits of other scripts are not `0`-`9` and are dropped. */
  lemma OnlyDigitsDropsArabicIndicDigits()
    ensures OnlyDigits("\U{0661}\U{0662}") == ""
  {
    var s := "\U{0661}\U{0662}";
    assert s[1..] == "\U{0662}" && s[1..][1..] == "";
  }

  /**
   * The date clean-up removes every `-` and `:` and keeps every other
   * character, each as often as it occurs, in order; it is idempotent.
   */
  lemma StripDateSeparatorsSpec(s: string)
    ensures '-' !in StripDateSeparators(s) && ':' !in StripDateSeparators(s)
    ensures forall c :: multiset(StripDateSeparators(s))[c] ==
                        (if c == '-' || c == ':' then 0 else multiset(s)[c])
    ensures IsSubsequence(StripDateSeparators(s), s)
    ensures StripDateSeparators(StripDateSeparators(s)) == StripDateSeparators(s)
  {
    FilterKeepsOnly(s, IsNotDateSeparator);
    FilterCounts(s, IsNotDateSeparator);
    FilterIsSubsequence(s, IsNotDateSeparator);
    FilterIdempotent(s, IsNotDateSeparator);
  }

  // ---- the formatter ----

  /** The six link-like types echo the URL, the empty string when it is unset. */
  lemma UrlLikeTypesEchoUrl(t: QRType, d: Details)
    requires t.IsUrlLike()
    ensures GenerateQRString(t, d) == Or(d.url, "")
    ensures d.url == None ==> GenerateQRString(t, d) == ""
  {
  }

  /** Any other tag gives the empty payload. */
  lemma UnknownTypeIsEmpty(tag: ForeignTag, d: Details)
    ensures GenerateQRString(Unknown(tag), d) == ""
  {
  }

  /** `||` makes an unset field and an empty one indistinguishable in every payload. */
  lemma UnsetIsEmpty(t: QRType, d: Details, f: Field)
    ensures GenerateQRString(t, d.With(f, None)) == GenerateQRString(t, d.With(f, Some("")))
  {
    var a, b := d.With(f, None), d.With(f, Some(""));
    assert forall g, dflt :: Or(a.Get(g), dflt) == Or(b.Get(g), dflt);
    assert Or(a.url, "") == Or(b.url, "") && Or(a.text, "") == Or(b.text, "");
  }
}
