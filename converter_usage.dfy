/** How the converter's lifecycle behaves for a caller, derived from the method contracts alone. */
module ConverterUsage {
  import opened Wrappers
  import opened HeadingDom
  import opened Converter

  /** `render` before `init` fails and a fresh converter keeps its empty state. */
  method RenderBeforeInit(host: Host, content: string) returns (r: Result<string, ConverterError>, result: ConvertResult)
    ensures r == Err(Uninitialized)
    ensures result.html == "" && result.titleList == []
    ensures result.readingTime.chars == 0 && result.readingTime.words == 0 && result.readingTime.minutes == 0
  {
    var c := new MarkdownConverter();
    r := c.Render(host, content, NoRenderOptions);
    result := c.GetResult();
  }

  /** `updateTheme` before `init` leaves the converter without a handle and with its empty state. */
  method UpdateThemeBeforeInit(host: Host, options: InitOptions) returns (h: RendererHandle?, result: ConvertResult)
    ensures h == null
    ensures result.html == "" && result.titleList == []
    ensures result.readingTime.chars == 0 && result.readingTime.words == 0 && result.readingTime.minutes == 0
  {
    var c := new MarkdownConverter();
    c.UpdateTheme(host, options);
    h := c.GetRenderer();
    result := c.GetResult();
  }

  /**
   * `reset` after a render empties the result but keeps the handle, so a
   * second `render` succeeds without another `init`.
   */
  method ResetKeepsHandle(host: Host, first: string, second: string)
    returns (cleared: ConvertResult, chars: int, words: int, minutes: int, again: Result<string, ConverterError>)
    ensures cleared.html == "" && cleared.titleList == []
    ensures chars == 0 && words == 0 && minutes == 0
    ensures again.Ok?
  {
    var c := new MarkdownConverter();
    var _ := c.Init(host, NoInitOptions);
    var _ := c.Render(host, first, NoRenderOptions);
    c.Reset();
    cleared := c.GetResult();
    chars, words, minutes := cleared.readingTime.chars, cleared.readingTime.words, cleared.readingTime.minutes;
    again := c.Render(host, second, NoRenderOptions);
  }

  /** `updateTheme` after `init` reconfigures the handle `init` created instead of replacing it. */
  method UpdateKeepsHandle(host: Host, init: InitOptions, theme: InitOptions)
    returns (before: RendererHandle?, after: RendererHandle?)
    ensures before != null && before == after
    ensures after.config == ThemeUpdate(host, theme, InitialConfig(host, init))
  {
    var c := new MarkdownConverter();
    var _ := c.Init(host, init);
    before := c.GetRenderer();
    c.UpdateTheme(host, theme);
    after := c.GetRenderer();
  }

  /**
   * `getResult` shares the converter's stats object: a later `render`
   * rewrites the numbers inside a result taken earlier, while the earlier
   * html and title list stay as they were.
   */
  method ResultSharesStats(host: Host, first: string, second: string)
    returns (earlier: ConvertResult, later: ConvertResult)
    ensures earlier.readingTime == later.readingTime
    ensures earlier.readingTime.chars == |second|
    ensures later.readingTime.chars == |second|
  {
    var c := new MarkdownConverter();
    var _ := c.Init(host, NoInitOptions);
    var _ := c.Render(host, first, NoRenderOptions);
    earlier := c.GetResult();
    var _ := c.Render(host, second, NoRenderOptions);
    later := c.GetResult();
  }

  /** After `reset`, a result taken earlier keeps the old stats object and its numbers. */
  method ResetDetachesStats(host: Host, content: string) returns (earlier: ConvertResult, later: ConvertResult)
    ensures earlier.readingTime != later.readingTime
    ensures earlier.readingTime.chars == |content| && later.readingTime.chars == 0
  {
    var c := new MarkdownConverter();
    var _ := c.Init(host, NoInitOptions);
    var _ := c.Render(host, content, NoRenderOptions);
    earlier := c.GetResult();
    c.Reset();
    later := c.GetResult();
  }

  /** The character count of `"# Title\n\nSome text."` is its 19 code units. */
  method TitleExample(host: Host) returns (result: ConvertResult)
    ensures result.readingTime.chars == 19
  {
    result := ConvertMarkdownToHtml(host, "# Title\n\nSome text.",
                                    ConvertOptions(None, None, None, None, None, None, None, None, None, None, None, None));
  }
}
