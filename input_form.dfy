/**
 * The entry form: which fields each content type lets the user edit, what
 * each input shows, and the single-field update that every input sends to
 * its parent on change.
 */
module InputForm {
  import opened Wrappers
  import opened Types
  import opened UriEncoding
  import opened QrHelpers

  /**
   * `handleChange`: the record with the input's field set to its value, as
   * the spread `{...data, [name]: value}` builds it. `name` is always one of
   * the sixteen field names, since every input of the form carries one.
   */
  function HandleChange(data: Details, name: Field, value: string): (r: Details)
    ensures r.Get(name) == Some(value)
    ensures forall g :: g != name ==> r.Get(g) == data.Get(g)
  {
    data.With(name, Some(value))
  }

  /** Typing the value a field already holds changes nothing. */
  lemma ChangeToSameValueIsNoOp(data: Details, name: Field, value: string)
    requires data.Get(name) == Some(value)
    ensures HandleChange(data, name, value) == data
  {
    DetailsExtensional(HandleChange(data, name, value), data);
  }

  /** The last change of a field wins: the earlier value leaves no trace. */
  lemma LastChangeWins(data: Details, name: Field, v: string, w: string)
    ensures HandleChange(HandleChange(data, name, v), name, w) == HandleChange(data, name, w)
  {
    DetailsExtensional(HandleChange(HandleChange(data, name, v), name, w), HandleChange(data, name, w));
  }

  /** Changes of two different fields give the same record in either order. */
  lemma ChangesCommute(data: Details, f: Field, v: string, g: Field, w: string)
    requires f != g
    ensures HandleChange(HandleChange(data, f, v), g, w) == HandleChange(HandleChange(data, g, w), f, v)
  {
    DetailsExtensional(HandleChange(HandleChange(data, f, v), g, w),
                       HandleChange(HandleChange(data, g, w), f, v));
  }

  /** The fields the form renders an input for, per content type. */
  function EditableFields(t: QRType): set<Field>
  {
    match t
    case Link | Pdf | App | Image | Video | Social => {Url}
    case Text => {TextField}
    case Email => {EmailField, Subject, Body}
    case Phone => {PhoneField}
    case Sms | WhatsApp => {PhoneField, TextField}
    case Wifi => {Ssid, Password, Encryption}
    case VCard => {FirstName, LastName, PhoneField, EmailField, Organization}
    case Event => {EventTitle, EventLocation, EventStart, EventEnd}
    case Unknown(_) => {}
  }

  /**
   * The six link-like types, and only they, edit just the URL; a type with
   * no case of its own shows no input at all.
   */
  lemma EditableFieldsShape(t: QRType)
    ensures t.IsUrlLike() <==> EditableFields(t) == {Url}
    ensures t.Unknown? <==> EditableFields(t) == {}
  {
    match t
    case Text | Sms | WhatsApp => assert TextField in EditableFields(t);
    case Email | VCard => assert EmailField in EditableFields(t);
    case Phone => assert PhoneField in EditableFields(t);
    case Wifi => assert Ssid in EditableFields(t);
    case Event => assert EventTitle in EditableFields(t);
    case _ =>
  }

  /** The options of the encryption select, in their order on screen. */
  const EncryptionOptions: seq<string> := ["WPA", "WEP", "nopass"]

  /**
   * What the input of field `f` shows: `data.f || ''`, except the
   * encryption select, which shows `data.encryption || 'WPA'`.
   */
  function ShownValue(data: Details, f: Field): string
  {
    if f == Encryption then Or(data.encryption, "WPA") else Or(data.Get(f), "")
  }

  // ---- the form against the formatter ----

  /**
   * The formatter reads no field the form does not let the user edit:
   * two records that agree on the editable fields give the same payload.
   */
  lemma OnlyEditableFieldsMatter(t: QRType, d1: Details, d2: Details)
    requires forall f :: f in EditableFields(t) ==> d1.Get(f) == d2.Get(f)
    ensures GenerateQRString(t, d1) == GenerateQRString(t, d2)
  {
    var fs := EditableFields(t);
    match t
    case Link | Pdf | App | Image | Video | Social =>
      assert Url in fs;
    case Text =>
      assert TextField in fs;
    case Email =>
      assert EmailField in fs && Subject in fs && Body in fs;
      EmailReadsItsFields(d1, d2);
    case Phone =>
      assert PhoneField in fs;
    case Sms | WhatsApp =>
      assert PhoneField in fs && TextField in fs;
    case Wifi =>
      assert Ssid in fs && Password in fs && Encryption in fs;
      WifiReadsItsFields(d1, d2);
    case VCard =>
      assert FirstName in fs && LastName in fs && PhoneField in fs;
      assert EmailField in fs && Organization in fs;
      VCardReadsItsFields(d1, d2);
    case Event =>
      assert EventTitle in fs && EventLocation in fs && EventStart in fs && EventEnd in fs;
      EventReadsItsFields(d1, d2);
    case Unknown(_) =>
  }

  lemma EmailReadsItsFields(d1: Details, d2: Details)
    requires d1.email == d2.email && d1.subject == d2.subject && d1.body == d2.body
    ensures GenerateQRString(Email, d1) == GenerateQRString(Email, d2)
  {
  }

  lemma WifiReadsItsFields(d1: Details, d2: Details)
    requires d1.ssid == d2.ssid && d1.password == d2.password && d1.encryption == d2.encryption
    ensures GenerateQRString(Wifi, d1) == GenerateQRString(Wifi, d2)
  {
  }

  lemma VCardReadsItsFields(d1: Details, d2: Details)
    requires d1.firstName == d2.firstName && d1.lastName == d2.lastName
    requires d1.phone == d2.phone && d1.email == d2.email && d1.organization == d2.organization
    ensures GenerateQRString(VCard, d1) == GenerateQRString(VCard, d2)
  {
  }

  lemma EventReadsItsFields(d1: Details, d2: Details)
    requires d1.eventTitle == d2.eventTitle && d1.eventLocation == d2.eventLocation
    requires d1.eventStart == d2.eventStart && d1.eventEnd == d2.eventEnd
    ensures GenerateQRString(Event, d1) == GenerateQRString(Event, d2)
  {
  }

  /** Changing a field the form does not show for `t` leaves the payload alone. */
  lemma HiddenFieldsIgnored(t: QRType, d: Details, f: Field, v: Option<string>)
    requires f !in EditableFields(t)
    ensures GenerateQRString(t, d.With(f, v)) == GenerateQRString(t, d)
  {
    OnlyEditableFieldsMatter(t, d.With(f, v), d);
  }

  /**
   * Every field the form shows for `t` reaches the payload: whatever the
   * other fields hold, typing `1` into an empty field changes the payload.
   */
  lemma EditableFieldsMatter(t: QRType, d: Details, f: Field)
    requires f in EditableFields(t)
    ensures GenerateQRString(t, d.With(f, None)) != GenerateQRString(t, d.With(f, Some("1")))
  {
    match t
    case Link | Pdf | App | Image | Video | Social =>
    case Text =>
    case Phone =>
    case Email => EmailFieldsMatter(d, f);
    case Sms => SmsFieldsMatter(d, f);
    case WhatsApp => WhatsAppFieldsMatter(d, f);
    case Wifi => WifiFieldsMatter(d, f);
    case VCard => VCardFieldsMatter(d, f);
    case Event => EventFieldsMatter(d, f);
  }

  lemma EmailFieldsMatter(d: Details, f: Field)
    requires f in EditableFields(Email)
    ensures |GenerateQRString(Email, d.With(f, Some("1")))|
            == |GenerateQRString(Email, d.With(f, None))| + 1
  {
    EncodeOne();
  }

  lemma SmsFieldsMatter(d: Details, f: Field)
    requires f in EditableFields(Sms)
    ensures |GenerateQRString(Sms, d.With(f, Some("1")))|
            == |GenerateQRString(Sms, d.With(f, None))| + 1
  {
  }

  lemma WhatsAppFieldsMatter(d: Details, f: Field)
    requires f in EditableFields(WhatsApp)
    ensures |GenerateQRString(WhatsApp, d.With(f, Some("1")))|
            == |GenerateQRString(WhatsApp, d.With(f, None))| + 1
  {
    EncodeOne();
    OneKept();
  }

  /** An empty encryption is written as WPA, so typing `1` shortens the payload. */
  lemma WifiFieldsMatter(d: Details, f: Field)
    requires f in EditableFields(Wifi)
    ensures var x, y := |GenerateQRString(Wifi, d.With(f, None))|,
                        |GenerateQRString(Wifi, d.With(f, Some("1")))|;
            if f == Encryption then y + 2 == x else y == x + 1
  {
  }

  /** The names appear twice in the vCard. */
  lemma VCardFieldsMatter(d: Details, f: Field)
    requires f in EditableFields(VCard)
    ensures var x, y := |GenerateQRString(VCard, d.With(f, None))|,
                        |GenerateQRString(VCard, d.With(f, Some("1")))|;
            if f == FirstName || f == LastName then y == x + 2 else y == x + 1
  {
  }

  lemma EventFieldsMatter(d: Details, f: Field)
    requires f in EditableFields(Event)
    ensures |GenerateQRString(Event, d.With(f, Some("1")))|
            == |GenerateQRString(Event, d.With(f, None))| + 1
  {
    OneKept();
  }

  /** `1` is unreserved and a digit, so both filters and the encoder keep it. */
  lemma EncodeOne()
    ensures EncodeURIComponent("") == "" && EncodeURIComponent("1") == "1"
  {
    assert "1"[1..] == "";
  }

  lemma OneKept()
    ensures OnlyDigits("") == "" && OnlyDigits("1") == "1"
    ensures StripDateSeparators("") == "" && StripDateSeparators("1") == "1"
  {
    assert "1"[1..] == "";
  }

  // ---- what the inputs show ----

  /**
   * The inputs are controlled: after typing a non-empty `v` into the input
   * of `f`, that input shows `v` and every other input shows what it showed.
   * Clearing a text input shows `''` again, and the select falls back to WPA.
   */
  lemma ShownAfterChange(data: Details, f: Field, v: string)
    ensures v != "" ==> ShownValue(HandleChange(data, f, v), f) == v
    ensures v == "" ==> ShownValue(HandleChange(data, f, v), f) == (if f == Encryption then "WPA" else "")
    ensures forall g :: g != f ==> ShownValue(HandleChange(data, f, v), g) == ShownValue(data, g)
  {
  }

  /**
   * The select shows WPA when the encryption is unset, which is what the
   * formatter writes, and it shows one of its three options whenever the
   * field holds one of them or nothing.
   */
  lemma EncryptionSelectMatchesPayload(d: Details)
    ensures "WIFI:T:" + ShownValue(d, Encryption) + ";S:" <= GenerateQRString(Wifi, d)
    ensures d.encryption == None ==> ShownValue(d, Encryption) == "WPA"
    ensures d.encryption == None || d.encryption.value == "" || d.encryption.value in EncryptionOptions
            ==> ShownValue(d, Encryption) in EncryptionOptions
  {
    var p := "WIFI:T:" + Or(d.encryption, "WPA") + ";S:";
    var rest := Or(d.ssid, "") + ";P:" + Or(d.password, "") + ";;";
    assert GenerateQRString(Wifi, d) == p + rest;
  }

  /** Picking an option of the select stores it, and the payload then carries it. */
  lemma PickEncryption(d: Details, i: nat)
    requires i < |EncryptionOptions|
    ensures ShownValue(HandleChange(d, Encryption, EncryptionOptions[i]), Encryption)
            == EncryptionOptions[i]
    ensures "WIFI:T:" + EncryptionOptions[i] + ";S:"
            <= GenerateQRString(Wifi, HandleChange(d, Encryption, EncryptionOptions[i]))
  {
    EncryptionSelectMatchesPayload(HandleChange(d, Encryption, EncryptionOptions[i]));
  }
}
