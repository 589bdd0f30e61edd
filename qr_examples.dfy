/**
 * Worked examples of the payload formatter: the e-mail subject and body
 * with their encoded space and ampersand, the WhatsApp link built from a
 * formatted phone number, the Wi-Fi string with its WPA default, and an
 * event start date with its separators stripped.
 */
module QrExamples {
  import opened Wrappers
  import opened Types
  import opened Strings
  import opened UriEncoding
  import opened QrHelpers
  import opened PayloadLayout

  /** The date half of the start loses its dashes... */
  lemma StripDateHalf()
    ensures StripDateSeparators("2023-12-31") == "20231231"
  {
  }

  /** ...and the time half its colons. */
  lemma StripTimeHalf()
    ensures StripDateSeparators("T19:00:00") == "T190000"
  {
  }

  /**
   * `2023-12-31T19:00:00` loses its dashes and colons: `20231231T190000`.
   * The sample is written as its two halves so that each is worked out once.
   */
  lemma StripDateExample()
    ensures StripDateSeparators("2023-12-31" + "T19:00:00") == "20231231" + "T190000"
  {
    FilterConcat("2023-12-31", "T19:00:00", IsNotDateSeparator);
    StripDateHalf();
    StripTimeHalf();
  }

  /** The fourth of the event payload's six lines is its start line, with the date stripped. */
  lemma EventStartExample()
    ensures var d := Empty.(eventStart := Some("2023-12-31" + "T19:00:00"));
            var lines := Split(GenerateQRString(Event, d), '\n');
            |lines| == 6 && lines[3] == "DTSTART:" + ("20231231" + "T190000")
  {
    var d := Empty.(eventStart := Some("2023-12-31" + "T19:00:00"));
    EventReadsBack(d);
    StripDateExample();
  }

  /** The country and area code of `+55 (11) 99999-9999` keep their digits only... */
  lemma PhonePrefixDigits()
    ensures OnlyDigits("+55 (11) ") == "5511"
  {
  }

  /** ...and so does the subscriber number... */
  lemma PhoneNumberDigits()
    ensures OnlyDigits("99999-9999") == "999999999"
  {
  }

  /** ...so the whole number gives `5511999999999`. */
  lemma PhoneDigitsExample()
    ensures OnlyDigits("+55 (11) " + "99999-9999") == "5511" + "999999999"
  {
    FilterConcat("+55 (11) ", "99999-9999", IsDecimalDigit);
    PhonePrefixDigits();
    PhoneNumberDigits();
  }

  /** The WhatsApp link of that phone number with the message `Oi`. */
  lemma WhatsAppExample()
    ensures var d := Empty.(phone := Some("+55 (11) " + "99999-9999"), text := Some("Oi"));
            GenerateQRString(WhatsApp, d) == "https://wa.me/" + ("5511" + "999999999") + "?text=Oi"
  {
    PhoneDigitsExample();
    assert EncodeURIComponent("Oi") == "Oi";
  }

  /** A space is encoded as `%20`: the subject `Hi there`. */
  lemma EncodeSubjectExample()
    ensures EncodeURIComponent("Hi" + " " + "there") == "Hi" + "%20" + "there"
  {
    EncodeConcat("Hi" + " ", "there");
    EncodeConcat("Hi", " ");
    assert EncodeURIComponent("Hi") == "Hi";
    assert EncodeURIComponent(" ") == "%20";
    assert EncodeURIComponent("there") == "there";
  }

  /** `&` is encoded as `%26`, so it cannot end the query early. */
  lemma EncodeAmpersandExample()
    ensures EncodeURIComponent(" & ") == "%20%26%20"
  {
  }

  /** The body `Hello & welcome`: the words stay, the space and the ampersand are escaped. */
  lemma EncodeBodyExample()
    ensures EncodeURIComponent("Hello" + " & " + "welcome") == "Hello" + "%20%26%20" + "welcome"
  {
    EncodeConcat("Hello" + " & ", "welcome");
    EncodeConcat("Hello", " & ");
    EncodeAmpersandExample();
    assert EncodeURIComponent("Hello") == "Hello";
    assert EncodeURIComponent("welcome") == "welcome";
  }

  /** The e-mail payload of that subject and body, sent to `a@b.com`. */
  lemma EmailExample()
    ensures var d := Empty.(email := Some("a@b.com"), subject := Some("Hi" + " " + "there"),
                            body := Some("Hello" + " & " + "welcome"));
            GenerateQRString(Email, d)
            == "mailto:a@b.com?subject=" + ("Hi" + "%20" + "there")
               + "&body=" + ("Hello" + "%20%26%20" + "welcome")
  {
    EncodeSubjectExample();
    EncodeBodyExample();
  }

  /** An unset encryption is written as WPA. */
  lemma WifiExample()
    ensures GenerateQRString(Wifi, Empty.(ssid := Some("Home"), password := Some("secret")))
            == "WIFI:T:WPA;S:Home;P:secret;;"
  {
  }
}
