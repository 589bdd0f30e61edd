/**
 * The line layout of the two multi-line payloads, the vCard and the event:
 * each is a fixed list of lines joined with a single line feed, and the
 * field values are copied in unescaped, so a line feed inside a field
 * shows up as an extra line for a reader that splits on line feeds.
 */
module PayloadLayout {
  import opened Wrappers
  import opened Types
  import opened Strings
  import opened QrHelpers

  // ---- the vCard ----

  /** The eight lines of the vCard, before they are joined. */
  function VCardLines(first: string, last: string, org: string, phone: string, email: string)
    : seq<string>
  {
    ["BEGIN:VCARD",
     "VERSION:3.0",
     "N:" + last + ";" + first,
     "FN:" + first + " " + last,
     "ORG:" + org,
     "TEL:" + phone,
     "EMAIL:" + email,
     "END:VCARD"]
  }

  /** The vCard's lines for a details record. */
  function VCardLinesOf(d: Details): seq<string>
  {
    VCardLines(Or(d.firstName, ""), Or(d.lastName, ""), Or(d.organization, ""),
               Or(d.phone, ""), Or(d.email, ""))
  }

  lemma VCardTextIsJoined(first: string, last: string, org: string, phone: string,
                          email: string)
    ensures VCardText(first, last, org, phone, email)
            == Join(VCardLines(first, last, org, phone, email), '\n')
  {
    var ls := VCardLines(first, last, org, phone, email);
    JoinEight(ls[0], ls[1], ls[2], ls[3], ls[4], ls[5], ls[6], ls[7]);
  }

  /**
   * The line feeds of any text laid out as the vCard is, with the fixed
   * parts (`begin`, `version`, the tags and `end`) free of line feeds.
   */
  lemma VCardShapeLineFeeds(begin: string, version: string, n: string, semi: string,
                            fn: string, space: string, org: string, tel: string,
                            email: string, end: string,
                            f: string, l: string, o: string, p: string, e: string)
    requires '\n' !in begin && '\n' !in version && '\n' !in end
    requires '\n' !in n && '\n' !in semi && '\n' !in fn && '\n' !in space
    requires '\n' !in org && '\n' !in tel && '\n' !in email
    ensures LineFeeds(begin + "\n" + version + "\n" + (n + l + semi + f) + "\n"
                      + (fn + f + space + l) + "\n" + (org + o) + "\n" + (tel + p) + "\n"
                      + (email + e) + "\n" + end)
            == 7 + 2 * LineFeeds(f) + 2 * LineFeeds(l) + LineFeeds(o) + LineFeeds(p)
               + LineFeeds(e)
  {
    var l1 := begin + "\n" + version;
    var l2 := l1 + "\n" + (n + l + semi + f);
    var l3 := l2 + "\n" + (fn + f + space + l);
    var l4 := l3 + "\n" + (org + o);
    var l5 := l4 + "\n" + (tel + p);
    var l6 := l5 + "\n" + (email + e);
    LineFeedsSnoc(l6, end);
    LineFeedsSnoc(l5, email + e);
    LineFeedsSnoc(l4, tel + p);
    LineFeedsSnoc(l3, org + o);
    LineFeedsSnoc(l2, fn + f + space + l);
    LineFeedsSnoc(l1, n + l + semi + f);
    LineFeedsSnoc(begin, version);
    NoLineFeeds(begin);
    NoLineFeeds(version);
    NoLineFeeds(end);
    PairLineFeeds(n, l, semi, f);
    PairLineFeeds(fn, f, space, l);
    TaggedLineFeeds(org, o);
    TaggedLineFeeds(tel, p);
    TaggedLineFeeds(email, e);
  }

  lemma VCardTextLineFeeds(first: string, last: string, org: string, phone: string,
                           email: string)
    ensures LineFeeds(VCardText(first, last, org, phone, email))
            == 7 + 2 * LineFeeds(first) + 2 * LineFeeds(last) + LineFeeds(org)
               + LineFeeds(phone) + LineFeeds(email)
  {
    VCardShapeLineFeeds("BEGIN:VCARD", "VERSION:3.0", "N:", ";", "FN:", " ", "ORG:", "TEL:",
                        "EMAIL:", "END:VCARD", first, last, org, phone, email);
  }

  /** The vCard payload is its eight lines joined with LF, not CRLF. */
  lemma VCardIsJoinedLines(d: Details)
    ensures GenerateQRString(VCard, d) == Join(VCardLinesOf(d), '\n')
  {
    VCardTextIsJoined(Or(d.firstName, ""), Or(d.lastName, ""), Or(d.organization, ""),
                      Or(d.phone, ""), Or(d.email, ""));
  }

  /**
   * Values are not escaped, so each line feed in a field adds a line (the
   * names appear twice): the vCard has exactly eight lines if and only if
   * no field holds a line feed.
   */
  lemma VCardLineCount(d: Details)
    ensures |Split(GenerateQRString(VCard, d), '\n')| ==
            8 + 2 * LineFeeds(Or(d.firstName, "")) + 2 * LineFeeds(Or(d.lastName, ""))
            + LineFeeds(Or(d.organization, "")) + LineFeeds(Or(d.phone, ""))
            + LineFeeds(Or(d.email, ""))
    ensures |Split(GenerateQRString(VCard, d), '\n')| == 8 <==>
            && '\n' !in Or(d.firstName, "") && '\n' !in Or(d.lastName, "")
            && '\n' !in Or(d.organization, "") && '\n' !in Or(d.phone, "")
            && '\n' !in Or(d.email, "")
  {
    VCardTextLineFeeds(Or(d.firstName, ""), Or(d.lastName, ""), Or(d.organization, ""),
                       Or(d.phone, ""), Or(d.email, ""));
    SplitLength(GenerateQRString(VCard, d), '\n');
    CountAbsent(Or(d.firstName, ""), '\n');
    CountAbsent(Or(d.lastName, ""), '\n');
    CountAbsent(Or(d.organization, ""), '\n');
    CountAbsent(Or(d.phone, ""), '\n');
    CountAbsent(Or(d.email, ""), '\n');
  }

  /** With no line feed in a field, the vCard splits back into its eight lines. */
  lemma VCardReadsBack(d: Details)
    requires '\n' !in Or(d.firstName, "") && '\n' !in Or(d.lastName, "")
    requires '\n' !in Or(d.organization, "") && '\n' !in Or(d.phone, "")
    requires '\n' !in Or(d.email, "")
    ensures Split(GenerateQRString(VCard, d), '\n') == VCardLinesOf(d)
  {
    var ls := VCardLinesOf(d);
    VCardIsJoinedLines(d);
    assert forall i :: 0 <= i < |ls| ==> '\n' !in ls[i];
    SplitJoin(ls, '\n');
  }

  // ---- the event ----

  /** The six lines of the event, before they are joined. */
  function EventLines(title: string, location: string, start: string, end: string)
    : seq<string>
  {
    ["BEGIN:VEVENT",
     "SUMMARY:" + title,
     "LOCATION:" + location,
     "DTSTART:" + start,
     "DTEND:" + end,
     "END:VEVENT"]
  }

  /** The event's lines for a details record; the dates are stripped of `-` and `:`. */
  function EventLinesOf(d: Details): seq<string>
  {
    EventLines(Or(d.eventTitle, ""), Or(d.eventLocation, ""),
               StripDateSeparators(Or(d.eventStart, "")), StripDateSeparators(Or(d.eventEnd, "")))
  }

  lemma EventTextIsJoined(title: string, location: string, start: string, end: string)
    ensures EventText(title, location, start, end)
            == Join(EventLines(title, location, start, end), '\n')
  {
    var ls := EventLines(title, location, start, end);
    JoinSix(ls[0], ls[1], ls[2], ls[3], ls[4], ls[5]);
  }

  /**
   * The line feeds of any text laid out as the event is, with the fixed
   * parts (`begin`, the tags and `end`) free of line feeds.
   */
  lemma EventShapeLineFeeds(begin: string, summary: string, location: string, dtstart: string,
                            dtend: string, end: string,
                            t: string, loc: string, st: string, en: string)
    requires '\n' !in begin && '\n' !in end
    requires '\n' !in summary && '\n' !in location && '\n' !in dtstart && '\n' !in dtend
    ensures LineFeeds(begin + "\n" + (summary + t) + "\n" + (location + loc) + "\n"
                      + (dtstart + st) + "\n" + (dtend + en) + "\n" + end)
            == 5 + LineFeeds(t) + LineFeeds(loc) + LineFeeds(st) + LineFeeds(en)
  {
    var l1 := begin + "\n" + (summary + t);
    var l2 := l1 + "\n" + (location + loc);
    var l3 := l2 + "\n" + (dtstart + st);
    var l4 := l3 + "\n" + (dtend + en);
    LineFeedsSnoc(l4, end);
    LineFeedsSnoc(l3, dtend + en);
    LineFeedsSnoc(l2, dtstart + st);
    LineFeedsSnoc(l1, location + loc);
    LineFeedsSnoc(begin, summary + t);
    NoLineFeeds(begin);
    NoLineFeeds(end);
    TaggedLineFeeds(summary, t);
    TaggedLineFeeds(location, loc);
    TaggedLineFeeds(dtstart, st);
    TaggedLineFeeds(dtend, en);
  }

  lemma EventTextLineFeeds(title: string, location: string, start: string, end: string)
    ensures LineFeeds(EventText(title, location, start, end))
            == 5 + LineFeeds(title) + LineFeeds(location) + LineFeeds(start) + LineFeeds(end)
  {
    EventShapeLineFeeds("BEGIN:VEVENT", "SUMMARY:", "LOCATION:", "DTSTART:", "DTEND:",
                        "END:VEVENT", title, location, start, end);
  }

  lemma StripKeepsLineFeeds(s: string)
    ensures LineFeeds(StripDateSeparators(s)) == LineFeeds(s)
  {
    FilterCounts(s, IsNotDateSeparator);
    CountIsMultiplicity(s, '\n');
    CountIsMultiplicity(StripDateSeparators(s), '\n');
  }

  /** The event payload is its six lines joined with LF, not CRLF. */
  lemma EventIsJoinedLines(d: Details)
    ensures GenerateQRString(Event, d) == Join(EventLinesOf(d), '\n')
  {
    EventTextIsJoined(Or(d.eventTitle, ""), Or(d.eventLocation, ""),
                      StripDateSeparators(Or(d.eventStart, "")),
                      StripDateSeparators(Or(d.eventEnd, "")));
  }

  /** The event has exactly six lines if and only if no field holds a line feed. */
  lemma EventLineCount(d: Details)
    ensures |Split(GenerateQRString(Event, d), '\n')| ==
            6 + LineFeeds(Or(d.eventTitle, "")) + LineFeeds(Or(d.eventLocation, ""))
            + LineFeeds(Or(d.eventStart, "")) + LineFeeds(Or(d.eventEnd, ""))
    ensures |Split(GenerateQRString(Event, d), '\n')| == 6 <==>
            && '\n' !in Or(d.eventTitle, "") && '\n' !in Or(d.eventLocation, "")
            && '\n' !in Or(d.eventStart, "") && '\n' !in Or(d.eventEnd, "")
  {
    var st, en := Or(d.eventStart, ""), Or(d.eventEnd, "");
    EventTextLineFeeds(Or(d.eventTitle, ""), Or(d.eventLocation, ""),
                       StripDateSeparators(st), StripDateSeparators(en));
    StripKeepsLineFeeds(st);
    StripKeepsLineFeeds(en);
    SplitLength(GenerateQRString(Event, d), '\n');
    CountAbsent(Or(d.eventTitle, ""), '\n');
    CountAbsent(Or(d.eventLocation, ""), '\n');
    CountAbsent(st, '\n');
    CountAbsent(en, '\n');
  }

  /** With no line feed in a field, the event splits back into its six lines. */
  lemma EventReadsBack(d: Details)
    requires '\n' !in Or(d.eventTitle, "") && '\n' !in Or(d.eventLocation, "")
    requires '\n' !in Or(d.eventStart, "") && '\n' !in Or(d.eventEnd, "")
    ensures Split(GenerateQRString(Event, d), '\n') == EventLinesOf(d)
  {
    var ls := EventLinesOf(d);
    var st, en := Or(d.eventStart, ""), Or(d.eventEnd, "");
    StripKeepsLineFeeds(st);
    StripKeepsLineFeeds(en);
    CountAbsent(st, '\n');
    CountAbsent(en, '\n');
    CountAbsent(StripDateSeparators(st), '\n');
    CountAbsent(StripDateSeparators(en), '\n');
    EventIsJoinedLines(d);
    assert forall i :: 0 <= i < |ls| ==> '\n' !in ls[i];
    SplitJoin(ls, '\n');
  }
}
