/**
 * The preview panel's logic: the frame-style buttons, the two colour
 * pickers and the custom-text input, each a record update of the frame
 * configuration, plus the label colour, the frame background, the value
 * handed to the barcode canvas and the rule that enables the download.
 */
module QrPreview {
  import opened Wrappers
  import opened Types

  /** The names of the two colour inputs. */
  datatype ColorField = Color | BgColor

  /** The frame text put in place when a style is picked and the text is empty. */
  const DefaultFrameText: string := "ESCANEAR"

  /** The frame text of the Scan Me style. */
  const ScanMeText: string := "SCAN ME"

  /** The placeholder the canvas encodes while there is no payload yet. */
  const PlaceholderValue: string := "https://example.com"

  /**
   * `handleFrameSelect(style)`: the frame is drawn for every style but
   * Simple; Scan Me brings its own text, and the other styles keep the
   * current text unless it is empty.
   */
  function HandleFrameSelect(config: FrameConfig, style: FrameStyle): (r: FrameConfig)
    ensures r.style == style
    ensures r.enabled <==> style != Simple
    ensures style == ScanMe ==> r.text == ScanMeText
    ensures style != ScanMe && config.text != "" ==> r.text == config.text
    ensures style != ScanMe && config.text == "" ==> r.text == DefaultFrameText
    ensures r.color == config.color && r.bgColor == config.bgColor
  {
    config.(enabled := style != Simple,
            style := style,
            text := if style == ScanMe then ScanMeText else Or(Some(config.text), DefaultFrameText))
  }

  /** `handleColorChange`: the input's field, and only it, takes the picked colour. */
  function HandleColorChange(config: FrameConfig, name: ColorField, value: string)
    : (r: FrameConfig)
    ensures r.color == (if name == Color then value else config.color)
    ensures r.bgColor == (if name == BgColor then value else config.bgColor)
    ensures r.enabled == config.enabled && r.text == config.text && r.style == config.style
  {
    match name
    case Color => config.(color := value)
    case BgColor => config.(bgColor := value)
  }

  /** The custom-text input: the text, verbatim, and nothing else. */
  function HandleTextChange(config: FrameConfig, value: string): (r: FrameConfig)
    ensures r.text == value
    ensures r.enabled == config.enabled && r.style == config.style
    ensures r.color == config.color && r.bgColor == config.bgColor
  {
    config.(text := value)
  }

  /** The colour of the label under the code, as the preview's style expression picks it. */
  function LabelColor(config: FrameConfig): string
  {
    if config.color == "#000000" && config.bgColor == "#000000" then "white"
    else if config.bgColor == "#ffffff" then config.color
    else "white"
  }

  /** The background of the downloadable area. */
  function FrameBackground(config: FrameConfig): string
  {
    if config.enabled then config.bgColor else "white"
  }

  /** The value handed to the canvas: `value || 'https://example.com'`. */
  function CanvasValue(value: string): (r: string)
    ensures r != ""
    ensures value != "" ==> r == value
    ensures value == "" ==> r == PlaceholderValue
  {
    Or(Some(value), PlaceholderValue)
  }

  /** The download button is enabled unless the value is empty or a download runs. */
  function DownloadEnabled(value: string, downloading: bool): bool
  {
    !(value == "" || downloading)
  }

  /**
   * The consistency the buttons keep: the frame is drawn exactly when the
   * style is not Simple, and the Scan Me style always carries its text.
   */
  predicate FrameConsistent(config: FrameConfig)
  {
    && config.enabled == (config.style != Simple)
    && (config.style == ScanMe ==> config.text == ScanMeText)
  }

  // ---- properties ----

  /**
   * The first condition of the label expression is subsumed by the second: the
   * label takes the code colour on a white frame and is white otherwise.
   */
  lemma LabelColorOnWhiteOnly(config: FrameConfig)
    ensures LabelColor(config) == (if config.bgColor == "#ffffff" then config.color else "white")
    ensures LabelColor(config) == config.color || LabelColor(config) == "white"
  {
    if config.color == "#000000" && config.bgColor == "#000000" {
      assert config.bgColor != "#ffffff" by {
        assert config.bgColor[1] == '0';
        assert "#ffffff"[1] == 'f';
      }
    }
  }

  /**
   * On a frame the style buttons produced, the background follows the
   * style: white for Simple, the chosen background colour for the others.
   */
  lemma FrameBackgroundFollowsStyle(config: FrameConfig)
    requires FrameConsistent(config)
    ensures FrameBackground(config) == (if config.style == Simple then "white" else config.bgColor)
  {
  }

  /** Whenever the download is enabled, the canvas shows the payload, not the placeholder. */
  lemma DownloadOnlyRealPayload(value: string, downloading: bool)
    ensures DownloadEnabled(value, downloading) ==> CanvasValue(value) == value
    ensures CanvasValue(value) == PlaceholderValue && value != PlaceholderValue
            ==> !DownloadEnabled(value, downloading)
  {
  }

  /** Picking the same style twice is the same as picking it once. */
  lemma FrameSelectIdempotent(config: FrameConfig, style: FrameStyle)
    ensures HandleFrameSelect(HandleFrameSelect(config, style), style)
            == HandleFrameSelect(config, style)
  {
  }

  /** After any style is picked the frame text is never empty, and the frame is consistent. */
  lemma FrameSelectConsistent(config: FrameConfig, style: FrameStyle)
    ensures HandleFrameSelect(config, style).text != ""
    ensures FrameConsistent(HandleFrameSelect(config, style))
  {
  }

  /** The colour pickers keep a consistent frame consistent. */
  lemma ColorChangeConsistent(config: FrameConfig, name: ColorField, value: string)
    requires FrameConsistent(config)
    ensures FrameConsistent(HandleColorChange(config, name, value))
  {
  }

  /**
   * The text input, rendered only for the Custom style, keeps a
   * consistent frame consistent.
   */
  lemma TextChangeConsistent(config: FrameConfig, value: string)
    requires FrameConsistent(config) && config.style == Custom
    ensures FrameConsistent(HandleTextChange(config, value))
  {
  }

  /**
   * Leaving Scan Me for Custom keeps the text SCAN ME: the custom input
   * starts from the previous text, not from the default.
   */
  lemma ScanMeThenCustom(config: FrameConfig)
    ensures HandleFrameSelect(HandleFrameSelect(config, ScanMe), Custom).text == ScanMeText
  {
  }
}
