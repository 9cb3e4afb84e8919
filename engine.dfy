/** Template execution. A template body is an abstract script of the calls it
    makes; `Partial` runs one body on a fresh output buffer, and the two
    `render` variants compose a body with its layout. */
module Engine {
  import opened Base
  import opened OutputBuffering
  import opened Paths
  import opened Capture

  /** What a template body does, in order: print text, print a section,
      open or close a capture, register a layout, or print another template
      rendered without layout (`insert`, `<?= $this->partial(...) ?>`). */
  datatype Action =
    | Echo(text: string)
    | EchoSection(name: string, default: string)
    | Start(name: string)
    | Append(name: string)
    | Prepend(name: string)
    | Stop
    | Layout(name: string, data: Data)
    | Insert(name: string, data: Data)

  type Script = seq<Action>

  /** The file system: which paths exist, and the body a template file runs
      when it is required with a given data array. */
  datatype FileSystem = FileSystem(fileExists: string -> bool, body: (string, Data) -> Script)

  /** One call made by a template body. */
  function Act(cfg: Config, fs: FileSystem, st: State, a: Action, fuel: nat): (r: Step<()>)
    decreases fuel, 1, 0
    ensures Passive(a) ==> r.result.Ok?
    ensures Passive(a) ==> r.state.page.sections == st.page.sections && r.state.page.sectionName == st.page.sectionName
    ensures a.Layout? ==> r.state.out == st.out
  {
    match a
    case Echo(text) => Step(st.(out := Write(st.out, text)), Ok(()))
    case EchoSection(name, default) => Step(st.(out := Write(st.out, Section(st.page, name, default))), Ok(()))
    case Start(name) => Capture.Start(st, name)
    case Append(name) => Capture.Append(st, name)
    case Prepend(name) => Capture.Prepend(st, name)
    case Stop => Capture.Stop(st)
    case Layout(name, data) => Step(st.(page := SetLayout(st.page, name, data)), Ok(()))
    case Insert(name, data) =>
      var r := Partial(cfg, fs, st, name, data, fuel);
      match r.result
      case Err(e) => Step(r.state, Err(e))
      case Ok(text) => Step(r.state.(out := Write(r.state.out, text)), Ok(()))
  }

  /** A body's calls in order; the first exception ends the body. */
  function Run(cfg: Config, fs: FileSystem, st: State, script: Script, fuel: nat): (r: Step<()>)
    decreases fuel, 1, |script|
    ensures script == [] ==> r == Step(st, Ok(()))
    ensures r.result.Err? ==> exists k :: 0 <= k < |script| && !Passive(script[k])
  {
    if script == [] then Step(st, Ok(()))
    else
      var s := Act(cfg, fs, st, script[0], fuel);
      if s.result.Err? then s
      else
        assert forall k :: 0 <= k < |script[1..]| ==> script[1..][k] == script[k + 1];
        Run(cfg, fs, s.state, script[1..], fuel)
  }

  /** renderPartial / partial: resolve the path, open a buffer, run the body,
      and return what the innermost buffer then holds. A body that throws
      leaves its buffer open. `fuel` bounds the depth of nested inserts. */
  function Partial(cfg: Config, fs: FileSystem, st: State, name: string, data: Data, fuel: nat): (r: Step<string>)
    decreases fuel, 0, 0
    ensures r.result.Ok? ==> fuel > 0 && Resolve(cfg, fs.fileExists, name).Ok?
    ensures Resolve(cfg, fs.fileExists, name).Err? ==> r.state == st
  {
    if fuel == 0 then Step(st, Err(OutOfFuel))
    else
      match Resolve(cfg, fs.fileExists, name)
      case Err(e) => Step(st, Err(e))
      case Ok(path) =>
        var ran := Run(cfg, fs, st.(out := Push(st.out)), fs.body(path, data), fuel - 1);
        match ran.result
        case Err(e) => Step(ran.state, Err(e))
        case Ok(_) =>
          var (text, out') := Pop(ran.state.out);
          Step(ran.state.(out := out'), Ok(text))
  }

  /** TemplateRenderer::render: the body's output is written straight into
      the same object's `content` section and the layout, if one is set, is
      rendered once as a partial on that same object. */
  function RendererRender(cfg: Config, fs: FileSystem, st: State, name: string, data: Data, fuel: nat): (r: Step<string>)
    ensures r.result.Ok? ==> Resolve(cfg, fs.fileExists, name).Ok?
    ensures Partial(cfg, fs, st, name, data, fuel).result.Err? ==> r == Partial(cfg, fs, st, name, data, fuel)
    ensures var body := Partial(cfg, fs, st, name, data, fuel);
            body.result.Ok? && body.state.page.layout.Some? && r.result.Ok? ==>
              Resolve(cfg, fs.fileExists, body.state.page.layout.value).Ok?
  {
    var body := Partial(cfg, fs, st, name, data, fuel);
    if body.result.Err? || body.state.page.layout.None? then body
    else
      var page := body.state.page;
      var seeded := body.state.(page := page.(sections := page.sections[ContentSection := body.result.value]));
      Partial(cfg, fs, seeded, page.layout.value, page.layoutData, fuel)
  }

  /** Template::render: the layout is rendered by a new Template whose only
      section is `content`, recursively, so a layout may itself have a layout.
      The new object's page is discarded; the caller keeps its own. Each
      layout level spends one unit of fuel (at 0, Partial fails the same way). */
  function TemplateRender(cfg: Config, fs: FileSystem, st: State, name: string, data: Data, fuel: nat): (r: Step<string>)
    decreases fuel
    ensures r.result.Ok? ==> Resolve(cfg, fs.fileExists, name).Ok?
  {
    if fuel == 0 then Step(st, Err(OutOfFuel))
    else
      var body := Partial(cfg, fs, st, name, data, fuel);
      if body.result.Err? || body.state.page.layout.None? then body
      else
        var layoutState := State(FreshPage.(sections := map[ContentSection := body.result.value]), body.state.out);
        var outer := TemplateRender(cfg, fs, layoutState, body.state.page.layout.value, body.state.page.layoutData, fuel - 1);
        Step(State(body.state.page, outer.state.out), outer.result)
  }

  /** An insert call echoes the partial's text, or passes its exception on. */
  lemma ActInsert(cfg: Config, fs: FileSystem, st: State, name: string, data: Data, fuel: nat)
    ensures var p := Partial(cfg, fs, st, name, data, fuel);
            Act(cfg, fs, st, Action.Insert(name, data), fuel) ==
              if p.result.Err? then Step(p.state, Err(p.result.error))
              else Step(p.state.(out := Write(p.state.out, p.result.value)), Ok(()))
  {
  }

  // ---------------------------------------------------------------------
  // Running scripts

  /** Running two scripts one after the other is running their concatenation;
      an exception in the first skips the second. */
  lemma {:induction false} RunConcat(cfg: Config, fs: FileSystem, st: State, a: Script, b: Script, fuel: nat)
    ensures Run(cfg, fs, st, a + b, fuel) ==
            var r := Run(cfg, fs, st, a, fuel);
            if r.result.Err? then r else Run(cfg, fs, r.state, b, fuel)
    decreases |a|
  {
    if a == [] {
      assert a + b == b;
    } else {
      assert (a + b)[0] == a[0];
      assert (a + b)[1..] == a[1..] + b;
      var s := Act(cfg, fs, st, a[0], fuel);
      if s.result.Ok? {
        RunConcat(cfg, fs, s.state, a[1..], b, fuel);
      }
    }
  }

  /** A call that neither captures nor renders: printing text, printing a
      section, registering a layout. */
  predicate Passive(a: Action)
  {
    a.Echo? || a.EchoSection? || a.Layout?
  }

  predicate PassiveScript(script: Script)
  {
    forall k :: 0 <= k < |script| ==> Passive(script[k])
  }

  /** The text a passive script prints when run on page `p`. */
  function Printed(p: Page, script: Script): string
    requires PassiveScript(script)
  {
    if script == [] then ""
    else
      var head := match script[0]
        case Echo(text) => text
        case EchoSection(name, default) => Section(p, name, default)
        case Layout(_, _) => "";
      head + Printed(p, script[1..])
  }

  /** The page after a passive script: the last layout it registers wins. */
  function Layouts(p: Page, script: Script): Page
    decreases |script|
  {
    if script == [] then p
    else Layouts(if script[0].Layout? then SetLayout(p, script[0].name, script[0].data) else p, script[1..])
  }

  lemma {:induction false} LayoutsKeepSections(p: Page, script: Script)
    ensures Layouts(p, script).sections == p.sections
    ensures Layouts(p, script).sectionName == p.sectionName
    ensures Layouts(p, script).appendSection == p.appendSection
    ensures Layouts(p, script).prependSection == p.prependSection
    decreases |script|
  {
    if script != [] {
      LayoutsKeepSections(if script[0].Layout? then SetLayout(p, script[0].name, script[0].data) else p, script[1..]);
    }
  }

  /** A passive script never throws, registers its layouts in order, and
      writes its text into the innermost buffer as one piece. */
  lemma {:induction false} RunPassive(cfg: Config, fs: FileSystem, st: State, script: Script, fuel: nat)
    requires PassiveScript(script)
    ensures Run(cfg, fs, st, script, fuel) ==
            Step(State(Layouts(st.page, script), Write(st.out, Printed(st.page, script))), Ok(()))
    decreases |script|
  {
    if script == [] {
      WriteEmpty(st.out);
    } else {
      var s := Act(cfg, fs, st, script[0], fuel);
      var head := match script[0]
        case Echo(text) => text
        case EchoSection(name, default) => Section(st.page, name, default)
        case Layout(_, _) => "";
      var page1 := if script[0].Layout? then SetLayout(st.page, script[0].name, script[0].data) else st.page;
      WriteEmpty(st.out);
      assert s == Step(State(page1, Write(st.out, head)), Ok(()));
      RunPassive(cfg, fs, s.state, script[1..], fuel);
      assert Printed(page1, script[1..]) == Printed(st.page, script[1..]) by {
        PrintedDependsOnSections(page1, st.page, script[1..]);
      }
      WriteWrite(st.out, head, Printed(st.page, script[1..]));
    }
  }

  lemma {:induction false} PrintedDependsOnSections(p: Page, q: Page, script: Script)
    requires PassiveScript(script) && p.sections == q.sections
    ensures Printed(p, script) == Printed(q, script)
    decreases |script|
  {
    if script != [] {
      PrintedDependsOnSections(p, q, script[1..]);
    }
  }

  /** start(name) ... stop() around a passive script in replace mode stores
      exactly the text printed in between under `name` and leaves the buffers
      as they were. */
  lemma {:induction false} CaptureScript(cfg: Config, fs: FileSystem, st: State, name: string, body: Script, fuel: nat)
    requires PassiveScript(body)
    requires Capture.Start(st, name).result.Ok?
    requires name !in st.page.sections || (!st.page.appendSection && !st.page.prependSection)
    ensures var r := Run(cfg, fs, st, [Start(name)] + body + [Stop], fuel);
            && r.result.Ok?
            && r.state.page.sections == st.page.sections[name := Printed(st.page, body)]
            && r.state.out == st.out
            && r.state.page.sectionName.None?
  {
    var started := Capture.Start(st, name).state;
    RunConcat(cfg, fs, st, [Start(name)] + body, [Stop], fuel);
    RunConcat(cfg, fs, st, [Start(name)], body, fuel);
    assert Run(cfg, fs, st, [Start(name)], fuel) == Step(started, Ok(()));
    RunPassive(cfg, fs, started, body, fuel);
    PrintedDependsOnSections(started.page, st.page, body);
    LayoutsKeepSections(started.page, body);
    var text := Printed(st.page, body);
    var printed := State(Layouts(started.page, body), Write(started.out, text));
    assert Run(cfg, fs, st, [Start(name)] + body, fuel) == Step(printed, Ok(()));
    assert Run(cfg, fs, printed, [Stop], fuel) == Capture.Stop(printed);
    CaptureRoundTrip(st, name, text, "");
    var viaStart := State(started.page, Write(started.out, text));
    assert Capture.Stop(printed).state.page.sections == Capture.Stop(viaStart).state.page.sections;
    assert Capture.Stop(printed).state.out == Capture.Stop(viaStart).state.out;
  }

  // ---------------------------------------------------------------------
  // Partial

  /** A resolution failure ends the partial before anything runs. */
  lemma PartialResolutionFailure(cfg: Config, fs: FileSystem, st: State, name: string, data: Data, fuel: nat)
    requires fuel > 0 && Resolve(cfg, fs.fileExists, name).Err?
    ensures Partial(cfg, fs, st, name, data, fuel) == Step(st, Err(Resolve(cfg, fs.fileExists, name).error))
  {
  }

  /** A passive body returns exactly its printed text, leaves the buffers as
      it found them, and changes the page only by the layouts it registers. */
  lemma PartialOfPassive(cfg: Config, fs: FileSystem, st: State, name: string, data: Data, fuel: nat)
    requires fuel > 0 && Resolve(cfg, fs.fileExists, name).Ok?
    requires PassiveScript(fs.body(Resolve(cfg, fs.fileExists, name).value, data))
    ensures var body := fs.body(Resolve(cfg, fs.fileExists, name).value, data);
            Partial(cfg, fs, st, name, data, fuel) == Step(State(Layouts(st.page, body), st.out), Ok(Printed(st.page, body)))
  {
    var body := fs.body(Resolve(cfg, fs.fileExists, name).value, data);
    RunPassive(cfg, fs, st.(out := Push(st.out)), body, fuel - 1);
    PushWritePop(st.out, Printed(st.page, body));
  }

  // ---------------------------------------------------------------------
  // Render

  /** Without a layout registered by the body, both renders return the body's
      partial output. */
  lemma RenderWithoutLayout(cfg: Config, fs: FileSystem, st: State, name: string, data: Data, fuel: nat)
    requires fuel > 0
    requires Partial(cfg, fs, st, name, data, fuel).state.page.layout.None?
    ensures RendererRender(cfg, fs, st, name, data, fuel) == Partial(cfg, fs, st, name, data, fuel)
    ensures TemplateRender(cfg, fs, st, name, data, fuel) == Partial(cfg, fs, st, name, data, fuel)
  {
  }

  /** TemplateRenderer::render applies one layout level: the layout runs on
      the same object, sees every section the body stored plus `content`, and
      a layout registered by the layout itself is left unapplied. */
  lemma RendererAppliesOneLayout(cfg: Config, fs: FileSystem, st: State, name: string, data: Data, fuel: nat)
    requires Partial(cfg, fs, st, name, data, fuel).result.Ok?
    requires Partial(cfg, fs, st, name, data, fuel).state.page.layout.Some?
    ensures var body := Partial(cfg, fs, st, name, data, fuel);
            var p := body.state.page;
            var seeded := body.state.(page := p.(sections := p.sections[ContentSection := body.result.value]));
            && seeded.page.sections.Keys == p.sections.Keys + {ContentSection}
            && Section(seeded.page, ContentSection, "") == body.result.value
            && RendererRender(cfg, fs, st, name, data, fuel) == Partial(cfg, fs, seeded, p.layout.value, p.layoutData, fuel)
  {
  }

  /** Template::render hands the layout a new page whose only section is
      `content`; the sections the body stored are invisible to the layout, so
      two bodies with the same output, layout and buffers render alike. */
  lemma TemplateLayoutSeesOnlyContent(cfg: Config, fs: FileSystem, st1: State, st2: State, name1: string, name2: string,
                                      data1: Data, data2: Data, fuel: nat)
    requires fuel > 0
    requires var b1 := Partial(cfg, fs, st1, name1, data1, fuel);
             var b2 := Partial(cfg, fs, st2, name2, data2, fuel);
             && b1.result.Ok? && b1.result == b2.result && b1.state.out == b2.state.out
             && b1.state.page.layout.Some? && b1.state.page.layout == b2.state.page.layout
             && b1.state.page.layoutData == b2.state.page.layoutData
    ensures TemplateRender(cfg, fs, st1, name1, data1, fuel).result == TemplateRender(cfg, fs, st2, name2, data2, fuel).result
    ensures TemplateRender(cfg, fs, st1, name1, data1, fuel).state.out == TemplateRender(cfg, fs, st2, name2, data2, fuel).state.out
  {
  }

  /** One layout level of Template::render: a fresh page seeded with the
      body's output as `content`, rendered with the layout's own render. */
  lemma TemplateLayoutStep(cfg: Config, fs: FileSystem, st: State, name: string, data: Data, fuel: nat)
    requires fuel > 0
    requires Partial(cfg, fs, st, name, data, fuel).result.Ok?
    requires Partial(cfg, fs, st, name, data, fuel).state.page.layout.Some?
    ensures var body := Partial(cfg, fs, st, name, data, fuel);
            var p := body.state.page;
            var outer := TemplateRender(cfg, fs, State(FreshPage.(sections := map[ContentSection := body.result.value]), body.state.out),
                                        p.layout.value, p.layoutData, fuel - 1);
            TemplateRender(cfg, fs, st, name, data, fuel) == Step(State(p, outer.state.out), outer.result)
  {
  }

  /** Without a layout, or when the body throws, Template::render is the
      partial. */
  lemma TemplateRenderWithoutLayout(cfg: Config, fs: FileSystem, st: State, name: string, data: Data, fuel: nat)
    requires fuel > 0
    requires var body := Partial(cfg, fs, st, name, data, fuel);
             body.result.Err? || body.state.page.layout.None?
    ensures TemplateRender(cfg, fs, st, name, data, fuel) == Partial(cfg, fs, st, name, data, fuel)
  {
  }

  /** Template::render leaves the calling object's page as its body left it;
      what the layout renders never leaks back. */
  lemma TemplateRenderKeepsCallerPage(cfg: Config, fs: FileSystem, st: State, name: string, data: Data, fuel: nat)
    requires fuel > 0
    ensures TemplateRender(cfg, fs, st, name, data, fuel).state.page == Partial(cfg, fs, st, name, data, fuel).state.page
  {
  }
}
