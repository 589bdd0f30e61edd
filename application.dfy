/**
 * The application's state: the selected content type, the details record,
 * the payload and the frame configuration. The payload is recomputed right
 * after every change of the type or of the details, so it always equals
 * the formatter applied to the current type and details.
 */
module Application {
  import opened Wrappers
  import opened Types
  import opened QrHelpers
  import opened InputForm
  import opened QrPreview

  /** One button of the content-type menu. */
  datatype NavItem = NavItem(qrType: QRType, caption: string)

  /** The content-type menu, in its order on screen. */
  const NavItems: seq<NavItem> := [
    NavItem(Link, "Link"),
    NavItem(Text, "Texto"),
    NavItem(Email, "E-mail"),
    NavItem(Phone, "Chamada"),
    NavItem(Sms, "SMS"),
    NavItem(WhatsApp, "WhatsApp"),
    NavItem(Wifi, "WI-FI"),
    NavItem(VCard, "V-Card"),
    NavItem(Event, "Evento"),
    NavItem(Pdf, "PDF"),
    NavItem(App, "App"),
    NavItem(Image, "Imagens"),
    NavItem(Video, "Vídeo"),
    NavItem(Social, "Social")
  ]

  /** The frame the preview starts with. */
  const InitialFrame: FrameConfig := FrameConfig(true, ScanMeText, ScanMe, "#000000", "#000000")

  /** The position of a declared type in the menu. */
  function MenuIndex(t: QRType): (i: nat)
    requires t.Declared()
    ensures i < |NavItems| && NavItems[i].qrType == t
  {
    match t
    case Link => 0
    case Text => 1
    case Email => 2
    case Phone => 3
    case Sms => 4
    case WhatsApp => 5
    case Wifi => 6
    case VCard => 7
    case Event => 8
    case Pdf => 9
    case App => 10
    case Image => 11
    case Video => 12
    case Social => 13
  }

  /** The menu lists each of the fourteen declared types exactly once, and nothing else. */
  lemma NavItemsListEachTypeOnce()
    ensures |NavItems| == 14
    ensures forall i :: 0 <= i < |NavItems| ==> NavItems[i].qrType.Declared()
    ensures forall t: QRType :: t.Declared() ==> exists i :: 0 <= i < |NavItems| && NavItems[i].qrType == t
    ensures forall i, j :: 0 <= i < |NavItems| && 0 <= j < |NavItems| && i != j
                           ==> NavItems[i].qrType != NavItems[j].qrType
  {
    forall i | 0 <= i < |NavItems|
      ensures NavItems[i].qrType.Declared() && MenuIndex(NavItems[i].qrType) == i
    {
    }
    forall t: QRType | t.Declared()
      ensures exists i :: 0 <= i < |NavItems| && NavItems[i].qrType == t
    {
      var i := MenuIndex(t);
      assert NavItems[i].qrType == t;
    }
  }

  /** The state of the application component. */
  class AppState {
    var selectedType: QRType
    var details: Details
    var qrValue: string
    var frameConfig: FrameConfig

    /** The payload matches the type and the details, and the frame is consistent. */
    predicate Valid()
      reads this
    {
      && qrValue == GenerateQRString(selectedType, details)
      && FrameConsistent(frameConfig)
    }

    /**
     * The initial state: a link with empty details, an empty payload (which
     * is already the formatter's output for them) and the Scan Me frame.
     */
    constructor ()
      ensures Valid()
      ensures selectedType == Link && details == Empty && qrValue == ""
      ensures frameConfig == InitialFrame
    {
      selectedType := Link;
      details := Empty;
      qrValue := "";
      frameConfig := InitialFrame;
    }

    /** The effect that recomputes the payload after the type or the details changed. */
    method Recompute()
      modifies this
      ensures qrValue == GenerateQRString(selectedType, details)
      ensures selectedType == old(selectedType) && details == old(details)
      ensures frameConfig == old(frameConfig)
    {
      qrValue := GenerateQRString(selectedType, details);
    }

    /** `handleTypeChange`: a new type starts from empty details. */
    method HandleTypeChange(t: QRType)
      requires Valid()
      modifies this
      ensures Valid()
      ensures selectedType == t && details == Empty
      ensures qrValue == GenerateQRString(t, Empty)
      ensures frameConfig == old(frameConfig)
    {
      selectedType := t;
      details := Empty;
      Recompute();
    }

    /** A click on the menu button at position `i`. */
    method SelectNavItem(i: nat)
      requires Valid() && i < |NavItems|
      modifies this
      ensures Valid()
      ensures selectedType == NavItems[i].qrType && details == Empty
      ensures frameConfig == old(frameConfig)
    {
      HandleTypeChange(NavItems[i].qrType);
    }

    /** The form's `onChange`, which is `setDetails`. */
    method SetDetails(d: Details)
      requires Valid()
      modifies this
      ensures Valid()
      ensures details == d && selectedType == old(selectedType)
      ensures qrValue == GenerateQRString(old(selectedType), d)
      ensures frameConfig == old(frameConfig)
    {
      details := d;
      Recompute();
    }

    /**
     * Typing `value` into the form's input for field `name`. A field the
     * form does not show for the current type leaves the payload as it was.
     */
    method HandleFieldChange(name: Field, value: string)
      requires Valid()
      modifies this
      ensures Valid()
      ensures details == HandleChange(old(details), name, value)
      ensures selectedType == old(selectedType) && frameConfig == old(frameConfig)
      ensures name !in EditableFields(selectedType) ==> qrValue == old(qrValue)
    {
      if name !in EditableFields(selectedType) {
        HiddenFieldsIgnored(selectedType, details, name, Some(value));
      }
      SetDetails(HandleChange(details, name, value));
    }

    /** The preview's `onFrameChange` after a frame-style button. */
    method SelectFrameStyle(style: FrameStyle)
      requires Valid()
      modifies this
      ensures Valid()
      ensures frameConfig == HandleFrameSelect(old(frameConfig), style)
      ensures selectedType == old(selectedType) && details == old(details)
      ensures qrValue == old(qrValue)
    {
      FrameSelectConsistent(frameConfig, style);
      frameConfig := HandleFrameSelect(frameConfig, style);
    }

    /** The preview's `onFrameChange` after a colour picker. */
    method ChangeColor(name: ColorField, value: string)
      requires Valid()
      modifies this
      ensures Valid()
      ensures frameConfig == HandleColorChange(old(frameConfig), name, value)
      ensures selectedType == old(selectedType) && details == old(details)
      ensures qrValue == old(qrValue)
    {
      ColorChangeConsistent(frameConfig, name, value);
      frameConfig := HandleColorChange(frameConfig, name, value);
    }

    /** The preview's `onFrameChange` after the custom-text input, shown only for Custom. */
    method EditFrameText(value: string)
      requires Valid() && frameConfig.style == Custom
      modifies this
      ensures Valid()
      ensures frameConfig == HandleTextChange(old(frameConfig), value)
      ensures selectedType == old(selectedType) && details == old(details)
      ensures qrValue == old(qrValue)
    {
      TextChangeConsistent(frameConfig, value);
      frameConfig := HandleTextChange(frameConfig, value);
    }
  }

  /** The initial state already holds the payload of a link with empty details. */
  lemma InitialPayloadIsGenerated()
    ensures GenerateQRString(Link, Empty) == ""
    ensures FrameConsistent(InitialFrame)
  {
  }
}
