/**
 * Readers for the payloads the formatter writes, as a scanning device would
 * read them. Each reader inverts one formatter branch: the lemmas
 * here show that it recovers the form fields from the payload, which pins
 * down the field order, the delimiters and the encoding of each branch.
 */
module Payloads {
  import opened Wrappers
  import opened Types
  import opened Strings
  import opened UriEncoding
  import opened QrHelpers

  /** A `mailto:` URI with its `subject` and `body` query parameters, decoded. */
  function ParseMailto(s: string): Option<(string, string, string)>
  {
    match DropPrefix("mailto:", s)
    case None => None
    case Some(rest) =>
      match SplitFirst(rest, '?')
      case None => None
      case Some((address, query)) =>
        match DropPrefix("subject=", query)
        case None => None
        case Some(q) =>
          match SplitFirst(q, '&')
          case None => None
          case Some((subject, tail)) =>
            match DropPrefix("body=", tail)
            case None => None
            case Some(body) =>
              match (DecodeURIComponent(subject), DecodeURIComponent(body))
              case (Some(sj), Some(b)) => Some((address, sj, b))
              case _ => None
  }

  /**
   * The e-mail payload gives back the address verbatim and the subject and
   * body decoded, as long as the address holds no `?` (it is not encoded).
   */
  lemma EmailRoundTrip(d: Details)
    requires '?' !in Or(d.email, "")
    ensures ParseMailto(GenerateQRString(Email, d))
            == Some((Or(d.email, ""), Or(d.subject, ""), Or(d.body, "")))
  {
    var e, sj, b := Or(d.email, ""), Or(d.subject, ""), Or(d.body, "");
    var es, eb := EncodeURIComponent(sj), EncodeURIComponent(b);
    var bodyPart := "body=" + eb;
    var q := es + ['&'] + bodyPart;
    var query := "subject=" + q;
    var rest := e + ['?'] + query;
    EmailShape(d);
    DropPrefixOfConcat("mailto:", rest);
    SplitFirstOfJoin(e, '?', query);
    DropPrefixOfConcat("subject=", q);
    EncodeAlphabet(sj);
    SplitFirstOfJoin(es, '&', bodyPart);
    DropPrefixOfConcat("body=", eb);
    DecodeEncode(sj);
    DecodeEncode(b);
  }

  lemma EmailShape(d: Details)
    ensures var es, eb := EncodeURIComponent(Or(d.subject, "")), EncodeURIComponent(Or(d.body, ""));
            GenerateQRString(Email, d)
            == "mailto:" + (Or(d.email, "") + ['?'] + ("subject=" + (es + ['&'] + ("body=" + eb))))
  {
    MailtoShape(Or(d.email, ""), EncodeURIComponent(Or(d.subject, "")), EncodeURIComponent(Or(d.body, "")));
  }

  lemma MailtoShape(e: string, es: string, eb: string)
    ensures "mailto:" + e + "?subject=" + es + "&body=" + eb
            == "mailto:" + (e + ['?'] + ("subject=" + (es + ['&'] + ("body=" + eb))))
  {
    assert "?subject=" == ['?'] + "subject=";
    assert "&body=" == ['&'] + "body=";
  }

  /** A `tel:` URI: the number after the scheme. */
  function ParseTel(s: string): Option<string>
  {
    DropPrefix("tel:", s)
  }

  /** The phone payload carries the number verbatim. */
  lemma PhoneRoundTrip(d: Details)
    ensures ParseTel(GenerateQRString(Phone, d)) == Some(Or(d.phone, ""))
  {
    DropPrefixOfConcat("tel:", Or(d.phone, ""));
  }

  /** An `SMSTO:number:message` string. */
  function ParseSmsTo(s: string): Option<(string, string)>
  {
    match DropPrefix("SMSTO:", s)
    case None => None
    case Some(rest) => SplitFirst(rest, ':')
  }

  /** The SMS payload gives back number and message, if the number holds no `:`. */
  lemma SmsRoundTrip(d: Details)
    requires ':' !in Or(d.phone, "")
    ensures ParseSmsTo(GenerateQRString(Sms, d)) == Some((Or(d.phone, ""), Or(d.text, "")))
  {
    var p, t := Or(d.phone, ""), Or(d.text, "");
    assert GenerateQRString(Sms, d) == "SMSTO:" + (p + [':'] + t);
    DropPrefixOfConcat("SMSTO:", p + [':'] + t);
    SplitFirstOfJoin(p, ':', t);
  }

  /** A `https://wa.me/<digits>?text=<message>` link, with the message decoded. */
  function ParseWaMe(s: string): Option<(string, string)>
  {
    match DropPrefix("https://wa.me/", s)
    case None => None
    case Some(rest) =>
      match SplitFirst(rest, '?')
      case None => None
      case Some((phone, query)) =>
        match DropPrefix("text=", query)
        case None => None
        case Some(t) =>
          match DecodeURIComponent(t)
          case None => None
          case Some(text) => Some((phone, text))
  }

  /**
   * The WhatsApp link always gives back the digits of the phone number and
   * the message as typed; no side condition is needed, because the digits
   * cannot contain `?`.
   */
  lemma WhatsAppRoundTrip(d: Details)
    ensures ParseWaMe(GenerateQRString(WhatsApp, d))
            == Some((OnlyDigits(Or(d.phone, "")), Or(d.text, "")))
  {
    var p, t := OnlyDigits(Or(d.phone, "")), Or(d.text, "");
    var query := "text=" + EncodeURIComponent(t);
    assert GenerateQRString(WhatsApp, d) == "https://wa.me/" + (p + ['?'] + query);
    DropPrefixOfConcat("https://wa.me/", p + ['?'] + query);
    FilterKeepsOnly(Or(d.phone, ""), IsDecimalDigit);
    SplitFirstOfJoin(p, '?', query);
    DropPrefixOfConcat("text=", EncodeURIComponent(t));
    DecodeEncode(t);
  }

  /** A `WIFI:T:<auth>;S:<ssid>;P:<password>;;` string. */
  function ParseWifi(s: string): Option<(string, string, string)>
  {
    match DropPrefix("WIFI:T:", s)
    case None => None
    case Some(r0) =>
      match SplitFirst(r0, ';')
      case None => None
      case Some((auth, r1)) =>
        match DropPrefix("S:", r1)
        case None => None
        case Some(r2) =>
          match SplitFirst(r2, ';')
          case None => None
          case Some((ssid, r3)) =>
            match DropPrefix("P:", r3)
            case None => None
            case Some(r4) =>
              match SplitFirst(r4, ';')
              case None => None
              case Some((password, r5)) =>
                if r5 == ";" then Some((auth, ssid, password)) else None
  }

  /**
   * The Wi-Fi payload has its fields in the fixed order T, S, P and ends in
   * `;;`; it gives back the authentication type (WPA when unset or empty),
   * the SSID and the password, as long as none of them holds `;`.
   */
  lemma WifiRoundTrip(d: Details)
    requires ';' !in Or(d.encryption, "WPA")
    requires ';' !in Or(d.ssid, "") && ';' !in Or(d.password, "")
    ensures ParseWifi(GenerateQRString(Wifi, d))
            == Some((Or(d.encryption, "WPA"), Or(d.ssid, ""), Or(d.password, "")))
  {
    var a, s, p := Or(d.encryption, "WPA"), Or(d.ssid, ""), Or(d.password, "");
    var r4 := p + [';'] + ";";
    var r2 := s + [';'] + ("P:" + r4);
    var r0 := a + [';'] + ("S:" + r2);
    assert GenerateQRString(Wifi, d) == "WIFI:T:" + r0;
    DropPrefixOfConcat("WIFI:T:", r0);
    SplitFirstOfJoin(a, ';', "S:" + r2);
    DropPrefixOfConcat("S:", r2);
    SplitFirstOfJoin(s, ';', "P:" + r4);
    DropPrefixOfConcat("P:", r4);
    SplitFirstOfJoin(p, ';', ";");
  }

  /** Whatever the fields hold, the Wi-Fi payload starts with `WIFI:T:` and ends with `;;`. */
  lemma WifiFraming(d: Details)
    ensures "WIFI:T:" <= GenerateQRString(Wifi, d)
    ensures var r := GenerateQRString(Wifi, d); |r| >= 2 && r[|r| - 2..] == ";;"
  {
    var r := GenerateQRString(Wifi, d);
    var body := Or(d.encryption, "WPA") + ";S:" + Or(d.ssid, "") + ";P:" + Or(d.password, "");
    assert r == "WIFI:T:" + body + ";;";
  }
}
