/**
 * `MarkdownConverter` and `convertMarkdownToHtml`: option defaults, theme
 * composition, the renderer handle's lifecycle, the statistics update and
 * the title extraction loop. The rendering engine and theme utilities
 * (`@md/core`, `@md/shared`), `Number()` and the browser document are the
 * function values of a `Host`, whose bodies are not modelled.
 */
module Converter {
  import opened Wrappers
  import opened JsString
  import opened HeadingDom

  /** A theme object (`themeMap.default` or one built by the theme utilities). */
  type Theme(==)
  /** The structured CSS produced by `css2json`. */
  type CssJson(==)

  /** The `{ fontSize, color }` argument of `customizeTheme`. */
  datatype ThemeOverrides = ThemeOverrides(fontSize: JsNumber, color: string)

  /** The `readingTime` part of the engine's result. */
  datatype EngineStats = EngineStats(words: int, minutes: real)
  datatype Rendered = Rendered(html: string, stats: EngineStats)

  /** The layout flags a handle is created with. */
  datatype Layout = Layout(isUseIndent: bool, isUseJustify: bool, isMacCodeBlock: bool, isShowLineNumber: bool)

  /** The resolved per-call record passed to `renderer.reset`. */
  datatype RenderSettings = RenderSettings(
    citeStatus: bool, legend: string, isUseIndent: bool, isUseJustify: bool,
    countStatus: bool, isMacCodeBlock: bool, isShowLineNumber: bool)

  /**
   * What a renderer handle holds: the theme, fonts and size it was created
   * or last updated with, its creation-time layout, and the render options
   * of the last `reset` (`None` before the first one).
   */
  datatype HandleConfig = HandleConfig(
    theme: Theme, fonts: string, size: string, layout: Layout, renderSettings: Option<RenderSettings>)

  /** The external collaborators of `@md/core` and `@md/shared`. */
  datatype Engine = Engine(
    defaultTheme: Theme,
    css2json: string -> CssJson,
    customizeTheme: (Theme, ThemeOverrides) -> Theme,
    customCssWithTemplate: (CssJson, string, Theme) -> Theme,
    renderMarkdown: (string, HandleConfig) -> Rendered,
    postProcessHtml: (string, EngineStats, HandleConfig) -> string)

  datatype Host = Host(engine: Engine, document: Document, number: string -> JsNumber)

  /** `RendererInitOptions`; `None` is an absent (undefined) field. */
  datatype InitOptions = InitOptions(
    cssContent: Option<string>, theme: Option<Theme>, fonts: Option<string>, size: Option<string>,
    primaryColor: Option<string>, isUseIndent: Option<bool>, isUseJustify: Option<bool>,
    isMacCodeBlock: Option<bool>, isShowLineNumber: Option<bool>)

  const NoInitOptions := InitOptions(None, None, None, None, None, None, None, None, None)

  /** `RenderOptions`. */
  datatype RenderOptions = RenderOptions(
    isCiteStatus: Option<bool>, legend: Option<string>, isUseIndent: Option<bool>, isUseJustify: Option<bool>,
    isCountStatus: Option<bool>, isMacCodeBlock: Option<bool>, isShowLineNumber: Option<bool>)

  const NoRenderOptions := RenderOptions(None, None, None, None, None, None, None)

  /** `RendererInitOptions & RenderOptions`, the argument of `convertMarkdownToHtml`. */
  datatype ConvertOptions = ConvertOptions(
    cssContent: Option<string>, theme: Option<Theme>, fonts: Option<string>, size: Option<string>,
    primaryColor: Option<string>, isUseIndent: Option<bool>, isUseJustify: Option<bool>,
    isMacCodeBlock: Option<bool>, isShowLineNumber: Option<bool>,
    isCiteStatus: Option<bool>, legend: Option<string>, isCountStatus: Option<bool>)

  const DefaultFonts := "-apple-system, BlinkMacSystemFont, \"Segoe UI\", Roboto, Oxygen, Ubuntu, Cantarell, \"Fira Sans\", \"Droid Sans\", \"Helvetica Neue\", sans-serif"
  const DefaultSize := "16px"
  const DefaultColor := "#3f51b5"

  /** The theme-related fields of the options once their defaults are applied. */
  datatype ThemeSettings = ThemeSettings(cssContent: string, theme: Theme, fonts: string, size: string, primaryColor: string)

  /** Destructuring with defaults, shared by `init` and `updateTheme`: given values are kept, absent ones defaulted. */
  function ResolveThemeOptions(defaultTheme: Theme, o: InitOptions): (r: ThemeSettings)
    ensures r.cssContent == (if o.cssContent.Some? then o.cssContent.value else "")
    ensures r.theme == (if o.theme.Some? then o.theme.value else defaultTheme)
    ensures r.fonts == (if o.fonts.Some? then o.fonts.value else DefaultFonts)
    ensures r.size == (if o.size.Some? then o.size.value else DefaultSize)
    ensures r.primaryColor == (if o.primaryColor.Some? then o.primaryColor.value else DefaultColor)
  {
    ThemeSettings(o.cssContent.GetOr(""), o.theme.GetOr(defaultTheme), o.fonts.GetOr(DefaultFonts),
                  o.size.GetOr(DefaultSize), o.primaryColor.GetOr(DefaultColor))
  }

  /** The layout flags of `init`: indent, justify and Mac code blocks default off, line numbers on. */
  function ResolveLayout(o: InitOptions): (r: Layout)
    ensures r.isUseIndent <==> o.isUseIndent == Some(true)
    ensures r.isUseJustify <==> o.isUseJustify == Some(true)
    ensures r.isMacCodeBlock <==> o.isMacCodeBlock == Some(true)
    ensures r.isShowLineNumber <==> o.isShowLineNumber != Some(false)
  {
    Layout(o.isUseIndent.GetOr(false), o.isUseJustify.GetOr(false),
           o.isMacCodeBlock.GetOr(false), o.isShowLineNumber.GetOr(true))
  }

  /**
   * The theme composer: the font size is `Number(size.replace('px', ''))`;
   * an empty `cssContent` gives the customised theme, a non-empty one merges
   * its parsed CSS over it.
   */
  function ComposeTheme(host: Host, s: ThemeSettings): (r: Theme)
    ensures s.cssContent == "" ==>
              r == host.engine.customizeTheme(s.theme, ThemeOverrides(host.number(StripPx(s.size)), s.primaryColor))
    ensures s.cssContent != "" ==>
              r == host.engine.customCssWithTemplate(
                     host.engine.css2json(s.cssContent), s.primaryColor,
                     host.engine.customizeTheme(s.theme, ThemeOverrides(host.number(StripPx(s.size)), s.primaryColor)))
  {
    var fontSize := host.number(StripPx(s.size));
    var base := host.engine.customizeTheme(s.theme, ThemeOverrides(fontSize, s.primaryColor));
    if s.cssContent != "" then host.engine.customCssWithTemplate(host.engine.css2json(s.cssContent), s.primaryColor, base)
    else base
  }

  /** The configuration `init` creates its handle with. */
  function InitialConfig(host: Host, o: InitOptions): (r: HandleConfig)
    ensures r.theme == ComposeTheme(host, ResolveThemeOptions(host.engine.defaultTheme, o))
    ensures r.fonts == o.fonts.GetOr(DefaultFonts) && r.size == o.size.GetOr(DefaultSize)
    ensures r.layout == ResolveLayout(o)
    ensures r.renderSettings == None
  {
    var s := ResolveThemeOptions(host.engine.defaultTheme, o);
    HandleConfig(ComposeTheme(host, s), s.fonts, s.size, ResolveLayout(o), None)
  }

  /** The configuration after `updateTheme(o)`: only theme, fonts and size are replaced. */
  function ThemeUpdate(host: Host, o: InitOptions, cfg: HandleConfig): (r: HandleConfig)
    ensures r.theme == ComposeTheme(host, ResolveThemeOptions(host.engine.defaultTheme, o))
    ensures r.fonts == o.fonts.GetOr(DefaultFonts) && r.size == o.size.GetOr(DefaultSize)
    ensures r.layout == cfg.layout && r.renderSettings == cfg.renderSettings
  {
    var s := ResolveThemeOptions(host.engine.defaultTheme, o);
    cfg.(theme := ComposeTheme(host, s), fonts := s.fonts, size := s.size)
  }

  /** `??` on each render option: a given value (`false` included) is kept, an absent one defaulted. */
  function ResolveRenderOptions(o: RenderOptions): (r: RenderSettings)
    ensures r.citeStatus <==> o.isCiteStatus == Some(true)
    ensures r.legend == (if o.legend.Some? then o.legend.value else "alt")
    ensures r.isUseIndent <==> o.isUseIndent == Some(true)
    ensures r.isUseJustify <==> o.isUseJustify == Some(true)
    ensures r.countStatus <==> o.isCountStatus != Some(false)
    ensures r.isMacCodeBlock <==> o.isMacCodeBlock == Some(true)
    ensures r.isShowLineNumber <==> o.isShowLineNumber != Some(false)
  {
    RenderSettings(o.isCiteStatus.GetOr(false), o.legend.GetOr("alt"), o.isUseIndent.GetOr(false),
                   o.isUseJustify.GetOr(false), o.isCountStatus.GetOr(true), o.isMacCodeBlock.GetOr(false),
                   o.isShowLineNumber.GetOr(true))
  }

  /** The handle's configuration once `render` has reset it. */
  function RenderConfig(cfg: HandleConfig, o: RenderOptions): HandleConfig {
    cfg.(renderSettings := Some(ResolveRenderOptions(o)))
  }

  /** `postProcessHtml(renderMarkdown(content, handle))` for a handle in configuration `cfg`. */
  function PostProcessed(engine: Engine, content: string, cfg: HandleConfig): string {
    var out := engine.renderMarkdown(content, cfg);
    engine.postProcessHtml(out.html, out.stats, cfg)
  }

  /** `Math.ceil` on the engine's minute estimate. */
  function Ceil(x: real): (r: int)
    ensures r as real - 1.0 < x <= r as real
  {
    if x.Floor as real == x then x.Floor else x.Floor + 1
  }

  /** `output` after title extraction: the stamped fragment with a document, the input without one. */
  function ExtractedHtml(document: Document, html: string): string {
    match document
    case Undefined => html
    case Available(parse, serialize) => serialize(Stamp(parse(html)))
  }

  /** `titleList` after title extraction: empty without a document. */
  function ExtractedTitles(host: Host, html: string): seq<TitleItem> {
    match host.document
    case Undefined => []
    case Available(parse, _) => Titles(host.number, parse(html))
  }

  /** The options `convertMarkdownToHtml` passes to `init`. */
  function InitPart(o: ConvertOptions): (r: InitOptions)
    ensures r.cssContent == o.cssContent && r.theme == o.theme && r.fonts == o.fonts
    ensures r.size == o.size && r.primaryColor == o.primaryColor
    ensures r.isUseIndent == o.isUseIndent && r.isUseJustify == o.isUseJustify
    ensures r.isMacCodeBlock == o.isMacCodeBlock && r.isShowLineNumber == o.isShowLineNumber
  {
    InitOptions(o.cssContent, o.theme, o.fonts, o.size, o.primaryColor,
                o.isUseIndent, o.isUseJustify, o.isMacCodeBlock, o.isShowLineNumber)
  }

  /** The options `convertMarkdownToHtml` passes to `render`. */
  function RenderPart(o: ConvertOptions): (r: RenderOptions)
    ensures r.isCiteStatus == o.isCiteStatus && r.legend == o.legend && r.isCountStatus == o.isCountStatus
    ensures r.isUseIndent == o.isUseIndent && r.isUseJustify == o.isUseJustify
    ensures r.isMacCodeBlock == o.isMacCodeBlock && r.isShowLineNumber == o.isShowLineNumber
  {
    RenderOptions(o.isCiteStatus, o.legend, o.isUseIndent, o.isUseJustify,
                  o.isCountStatus, o.isMacCodeBlock, o.isShowLineNumber)
  }

  /**
   * `init` with no options: size `16px` read as the number `"16"`, colour
   * `#3f51b5`, the default theme and fonts, line numbers on and the other
   * layout flags off; an empty `cssContent` takes only `customizeTheme`.
   */
  lemma InitDefaults(host: Host)
    ensures InitialConfig(host, NoInitOptions) ==
            HandleConfig(host.engine.customizeTheme(host.engine.defaultTheme, ThemeOverrides(host.number("16"), DefaultColor)),
                         DefaultFonts, DefaultSize, Layout(false, false, false, true), None)
  {
    StripPxDefault();
  }

  /** With an empty `cssContent` the theme does not depend on `css2json` or `customCssWithTemplate`. */
  lemma EmptyCssSkipsTemplate(host: Host, other: Host, s: ThemeSettings)
    requires s.cssContent == ""
    requires other.engine.customizeTheme == host.engine.customizeTheme && other.number == host.number
    ensures ComposeTheme(other, s) == ComposeTheme(host, s)
  {
  }

  /** A non-empty `cssContent` is merged, with the primary colour, over the theme an empty one would give. */
  lemma CssMergedOverBase(host: Host, s: ThemeSettings)
    requires s.cssContent != ""
    ensures ComposeTheme(host, s) ==
            host.engine.customCssWithTemplate(host.engine.css2json(s.cssContent), s.primaryColor,
                                              ComposeTheme(host, s.(cssContent := "")))
  {
  }

  /** A size written with one trailing `px` composes the same theme as the bare number. */
  lemma PxSuffixIrrelevant(host: Host, s: ThemeSettings)
    requires HasNoPx(s.size)
    ensures ComposeTheme(host, s.(size := s.size + "px")) == ComposeTheme(host, s)
  {
    StripPxSuffix(s.size);
  }

  /** `render` with no options resets the handle to the documented defaults, whatever it held before. */
  lemma RenderDefaults(cfg: HandleConfig)
    ensures RenderConfig(cfg, NoRenderOptions).renderSettings ==
            Some(RenderSettings(false, "alt", false, false, true, false, true))
  {
  }

  /** Render options do not accumulate: the second reset wipes out the first. */
  lemma RenderConfigIndependent(cfg: HandleConfig, first: RenderOptions, second: RenderOptions)
    ensures RenderConfig(RenderConfig(cfg, first), second) == RenderConfig(cfg, second)
  {
  }

  /**
   * `updateTheme(o)` on a freshly initialised handle gives what `init` with
   * `o`'s theme fields would have given, keeping the first `init`'s layout flags.
   */
  lemma UpdateAfterInit(host: Host, first: InitOptions, o: InitOptions)
    ensures ThemeUpdate(host, o, InitialConfig(host, first)) ==
            InitialConfig(host, o.(isUseIndent := first.isUseIndent, isUseJustify := first.isUseJustify,
                                   isMacCodeBlock := first.isMacCodeBlock, isShowLineNumber := first.isShowLineNumber))
  {
  }

  /**
   * `convertMarkdownToHtml` hands the shared layout flags to both `init` and
   * `render`, whose defaults coincide, so the handle and the per-call
   * options agree on every one of them.
   */
  lemma ConvertLayoutAgrees(o: ConvertOptions)
    ensures var layout := ResolveLayout(InitPart(o));
            var settings := ResolveRenderOptions(RenderPart(o));
            && layout.isUseIndent == settings.isUseIndent
            && layout.isUseJustify == settings.isUseJustify
            && layout.isMacCodeBlock == settings.isMacCodeBlock
            && layout.isShowLineNumber == settings.isShowLineNumber
  {
  }

  /** A positive minute estimate gives at least one minute; a zero estimate gives zero. */
  lemma MinutesRoundUp(x: real)
    ensures x > 0.0 ==> Ceil(x) >= 1
    ensures x == 0.0 ==> Ceil(x) == 0
  {
  }

  datatype ConverterError = Uninitialized

  /** The handle returned by `initRenderer`. */
  class RendererHandle {
    var config: HandleConfig

    constructor (config: HandleConfig)
      ensures this.config == config
    {
      this.config := config;
    }

    /** `reset(renderOptions)`: the render options are replaced as a whole. */
    method Reset(settings: RenderSettings)
      modifies this
      ensures config == old(config).(renderSettings := Some(settings))
    {
      config := config.(renderSettings := Some(settings));
    }

    /** `setOptions({ theme, fonts, size })`: those three are replaced, the rest kept. */
    method SetOptions(theme: Theme, fonts: string, size: string)
      modifies this
      ensures config == old(config).(theme := theme, fonts := fonts, size := size)
    {
      config := config.(theme := theme, fonts := fonts, size := size);
    }
  }

  /** `ReadingStats`: an object whose fields `render` assigns one by one. */
  class ReadingStats {
    var chars: int
    var words: int
    var minutes: int

    constructor Zero()
      ensures chars == 0 && words == 0 && minutes == 0
    {
      chars, words, minutes := 0, 0, 0;
    }
  }

  /**
   * `ConvertResult`: holds the converter's own stats object, not a copy. The
   * title list is a value here, while the source hands out its array.
   */
  datatype ConvertResult = ConvertResult(html: string, readingTime: ReadingStats, titleList: seq<TitleItem>)

  class MarkdownConverter {
    var renderer: RendererHandle?
    var output: string
    var readingTime: ReadingStats
    var titleList: seq<TitleItem>

    constructor ()
      ensures renderer == null && output == "" && titleList == []
      ensures fresh(readingTime) && readingTime.chars == 0 && readingTime.words == 0 && readingTime.minutes == 0
    {
      renderer := null;
      output := "";
      readingTime := new ReadingStats.Zero();
      titleList := [];
    }

    /** `init(options)`: a new handle replaces any earlier one; the results are left as they were. */
    method Init(host: Host, options: InitOptions) returns (self: MarkdownConverter)
      modifies this
      ensures self == this
      ensures renderer != null && fresh(renderer)
      ensures renderer.config == InitialConfig(host, options)
      ensures output == old(output) && titleList == old(titleList) && readingTime == old(readingTime)
    {
      var s := ResolveThemeOptions(host.engine.defaultTheme, options);
      var themeConfig := ComposeTheme(host, s);
      renderer := new RendererHandle(HandleConfig(themeConfig, s.fonts, s.size, ResolveLayout(options), None));
      self := this;
    }

    /**
     * `render(content, options)`: fails without touching anything when there
     * is no handle; otherwise resets the handle, updates the statistics in
     * place, post-processes the HTML and extracts the titles.
     */
    method Render(host: Host, content: string, options: RenderOptions) returns (r: Result<string, ConverterError>)
      modifies this, readingTime, renderer
      ensures old(renderer) == null ==> r == Err(Uninitialized) && unchanged(this) && unchanged(readingTime)
      ensures old(renderer) != null ==>
                renderer == old(renderer) && readingTime == old(readingTime) &&
                renderer.config == RenderConfig(old(renderer.config), options)
      ensures old(renderer) != null ==>
                var stats := host.engine.renderMarkdown(content, renderer.config).stats;
                readingTime.chars == |content| && readingTime.words == stats.words &&
                readingTime.minutes == Ceil(stats.minutes)
      ensures old(renderer) != null ==>
                var html := PostProcessed(host.engine, content, renderer.config);
                output == ExtractedHtml(host.document, html) && titleList == ExtractedTitles(host, html) &&
                r == Ok(output)
    {
      if renderer == null {
        return Err(Uninitialized);
      }
      var settings := ResolveRenderOptions(options);
      renderer.Reset(settings);
      var rendered := host.engine.renderMarkdown(content, renderer.config);
      readingTime.chars := |content|;
      readingTime.words := rendered.stats.words;
      readingTime.minutes := Ceil(rendered.stats.minutes);
      output := host.engine.postProcessHtml(rendered.html, rendered.stats, renderer.config);
      ExtractTitles(host);
      r := Ok(output);
    }

    /**
     * `extractTitles()`: walks the selected headings with a counter `i`,
     * stamps `id = i` on each and appends its entry, then serialises.
     */
    method ExtractTitles(host: Host)
      modifies this
      ensures renderer == old(renderer) && readingTime == old(readingTime)
      ensures output == ExtractedHtml(host.document, old(output))
      ensures titleList == ExtractedTitles(host, old(output))
    {
      if host.document.Undefined? {
        titleList := [];
        return;
      }
      var doc := host.document.parse(output);
      ghost var original := doc;
      var list := HeadingIndices(doc);
      titleList := [];
      StampedUpToStart(original);
      for i := 0 to |list|
        invariant StampedUpTo(original, doc, i)
        invariant titleList == Titles(host.number, original)[..i]
        invariant renderer == old(renderer) && readingTime == old(readingTime) && output == old(output)
      {
        StampedUpToStep(original, doc, i);
        TitlesStep(host.number, original, i);
        var item := doc[list[i]];
        doc := doc[list[i] := item.(id := Some(NatToDecimal(i)))];
        titleList := titleList + [TitleItem("#" + NatToDecimal(i), item.textContent, host.number(SliceFrom(item.tagName, 1)))];
      }
      StampedUpToEnd(original, doc);
      output := host.document.serialize(doc);
    }

    /** `updateTheme(options)`: without a handle nothing changes; with one, only its theme, fonts and size. */
    method UpdateTheme(host: Host, options: InitOptions)
      modifies renderer
      ensures unchanged(this) && unchanged(readingTime)
      ensures old(renderer) != null ==> renderer.config == ThemeUpdate(host, options, old(renderer.config))
    {
      if renderer == null {
        return;
      }
      var s := ResolveThemeOptions(host.engine.defaultTheme, options);
      var newTheme := ComposeTheme(host, s);
      renderer.SetOptions(newTheme, s.fonts, s.size);
    }

    /** `getRenderer()`: the live handle, or null before `init`. */
    method GetRenderer() returns (h: RendererHandle?)
      ensures h == renderer
    {
      h := renderer;
    }

    /** `reset()`: empty output, a new zeroed stats object, an empty list; the handle stays. */
    method Reset()
      modifies this
      ensures renderer == old(renderer) && output == "" && titleList == []
      ensures fresh(readingTime) && readingTime.chars == 0 && readingTime.words == 0 && readingTime.minutes == 0
    {
      output := "";
      readingTime := new ReadingStats.Zero();
      titleList := [];
    }

    /** `getResult()`: the current output, stats object and list, shared rather than copied. */
    method GetResult() returns (r: ConvertResult)
      ensures r.html == output && r.readingTime == readingTime && r.titleList == titleList
    {
      r := ConvertResult(output, readingTime, titleList);
    }
  }

  /** `convertMarkdownToHtml(content, options)`: a fresh converter, `init`, `render`, `getResult`. */
  method ConvertMarkdownToHtml(host: Host, content: string, options: ConvertOptions) returns (r: ConvertResult)
    ensures fresh(r.readingTime)
    ensures var cfg := RenderConfig(InitialConfig(host, InitPart(options)), RenderPart(options));
            var stats := host.engine.renderMarkdown(content, cfg).stats;
            var html := PostProcessed(host.engine, content, cfg);
            && r.html == ExtractedHtml(host.document, html)
            && r.titleList == ExtractedTitles(host, html)
            && r.readingTime.chars == |content|
            && r.readingTime.words == stats.words
            && r.readingTime.minutes == Ceil(stats.minutes)
  {
    var converter := new MarkdownConverter();
    var _ := converter.Init(host, InitPart(options));
    var _ := converter.Render(host, content, RenderPart(options));
    r := converter.GetResult();
  }
}
