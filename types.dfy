/**
 * The content model of the QR code generator: the content-type tag, the flat
 * record of optional form fields, and the decoration of the preview frame.
 */
module Types {
  import opened Wrappers

  /** The string values of the fourteen members of the enum. */
  const DeclaredTags: set<string> :=
    {"link", "text", "email", "phone", "sms", "vcard", "whatsapp", "wifi", "event",
     "pdf", "app", "image", "video", "social"}

  /** A runtime value of the tag that is none of the enum's values. */
  type ForeignTag = s: string | s !in DeclaredTags witness ""

  /**
   * The fourteen content types of the application. `Unknown` stands for any
   * other runtime value of the tag, so that the formatter's `default` branch
   * can be reached.
   */
  datatype QRType =
    | Link | Text | Email | Phone | Sms | VCard | WhatsApp | Wifi | Event
    | Pdf | App | Image | Video | Social
    | Unknown(tag: ForeignTag)
  {
    /** The string value of the enum member. */
    function Tag(): string
    {
      match this
      case Link => "link"
      case Text => "text"
      case Email => "email"
      case Phone => "phone"
      case Sms => "sms"
      case VCard => "vcard"
      case WhatsApp => "whatsapp"
      case Wifi => "wifi"
      case Event => "event"
      case Pdf => "pdf"
      case App => "app"
      case Image => "image"
      case Video => "video"
      case Social => "social"
      case Unknown(t) => t
    }

    /** One of the fourteen declared members of the enum. */
    predicate Declared()
    {
      !Unknown?
    }

    /** The types that are, for the formatter, a URL echoed verbatim. */
    predicate IsUrlLike()
    {
      this in {Link, Pdf, App, Image, Video, Social}
    }
  }

  /**
   * The tag value identifies the type: a type is declared exactly when its
   * value is one of the enum's, and two types with the same value are equal.
   */
  lemma TagIdentifiesType(a: QRType, b: QRType)
    ensures a.Declared() <==> a.Tag() in DeclaredTags
    ensures a.Tag() == b.Tag() ==> a == b
  {
  }

  /** The names of the sixteen fields of the details record. */
  datatype Field =
    | Url | TextField | EmailField | Subject | Body | PhoneField
    | FirstName | LastName | Organization | Ssid | Password | Encryption
    | EventTitle | EventLocation | EventStart | EventEnd

  /** The details record; every field is optional. */
  datatype Details = Details(
    url: Option<string>,
    text: Option<string>,
    email: Option<string>,
    subject: Option<string>,
    body: Option<string>,
    phone: Option<string>,
    firstName: Option<string>,
    lastName: Option<string>,
    organization: Option<string>,
    ssid: Option<string>,
    password: Option<string>,
    encryption: Option<string>,
    eventTitle: Option<string>,
    eventLocation: Option<string>,
    eventStart: Option<string>,
    eventEnd: Option<string>)
  {
    /** Reads field `f` of the record. */
    function Get(f: Field): Option<string>
    {
      match f
      case Url => url
      case TextField => text
      case EmailField => email
      case Subject => subject
      case Body => body
      case PhoneField => phone
      case FirstName => firstName
      case LastName => lastName
      case Organization => organization
      case Ssid => ssid
      case Password => password
      case Encryption => encryption
      case EventTitle => eventTitle
      case EventLocation => eventLocation
      case EventStart => eventStart
      case EventEnd => eventEnd
    }

    /** The record with field `f` replaced by `v` (the object spread `{...d, [f]: v}`). */
    function With(f: Field, v: Option<string>): (r: Details)
      ensures r.Get(f) == v
      ensures forall g :: g != f ==> r.Get(g) == Get(g)
    {
      match f
      case Url => this.(url := v)
      case TextField => this.(text := v)
      case EmailField => this.(email := v)
      case Subject => this.(subject := v)
      case Body => this.(body := v)
      case PhoneField => this.(phone := v)
      case FirstName => this.(firstName := v)
      case LastName => this.(lastName := v)
      case Organization => this.(organization := v)
      case Ssid => this.(ssid := v)
      case Password => this.(password := v)
      case Encryption => this.(encryption := v)
      case EventTitle => this.(eventTitle := v)
      case EventLocation => this.(eventLocation := v)
      case EventStart => this.(eventStart := v)
      case EventEnd => this.(eventEnd := v)
    }
  }

  /** The empty object literal `{}`. */
  const Empty: Details :=
    Details(None, None, None, None, None, None, None, None,
            None, None, None, None, None, None, None, None)

  /** Two records are equal exactly when they agree on every field. */
  lemma DetailsExtensional(d: Details, e: Details)
    requires forall f :: d.Get(f) == e.Get(f)
    ensures d == e
  {
    assert d.url == e.Get(Url);
    assert d.text == e.Get(TextField);
    assert d.email == e.Get(EmailField);
    assert d.subject == e.Get(Subject);
    assert d.body == e.Get(Body);
    assert d.phone == e.Get(PhoneField);
    assert d.firstName == e.Get(FirstName);
    assert d.lastName == e.Get(LastName);
    assert d.organization == e.Get(Organization);
    assert d.ssid == e.Get(Ssid);
    assert d.password == e.Get(Password);
    assert d.encryption == e.Get(Encryption);
    assert d.eventTitle == e.Get(EventTitle);
    assert d.eventLocation == e.Get(EventLocation);
    assert d.eventStart == e.Get(EventStart);
    assert d.eventEnd == e.Get(EventEnd);
  }

  /**
   * JavaScript's `x || d` on an optional string: `d` when `x` is unset or the
   * empty string (both are falsy), otherwise the value of `x`.
   */
  function Or(x: Option<string>, d: string): string
  {
    match x
    case None => d
    case Some(v) => if v == "" then d else v
  }

  /** The three frame styles of the preview. */
  datatype FrameStyle = Simple | ScanMe | Custom

  /** The decoration drawn around the QR code. */
  datatype FrameConfig = FrameConfig(
    enabled: bool,
    text: string,
    style: FrameStyle,
    color: string,
    bgColor: string)
}
