/** Concrete runs that show how the two render variants and the capture
    machine behave on small template bodies. The file system is abstract:
    each lemma only says which script a template name runs. */
module Scenarios {
  import opened Base
  import opened OutputBuffering
  import opened Paths
  import opened Capture
  import opened Engine

  const Start0 := State(FreshPage, NoBuffers)

  /** Template `name` resolves to a file whose body, given no data, is `script`. */
  ghost predicate Runs(cfg: Config, fs: FileSystem, name: string, script: Script)
  {
    Resolve(cfg, fs.fileExists, name).Ok? && fs.body(Resolve(cfg, fs.fileExists, name).value, map[]) == script
  }

  const ChildBody: Script := [Layout("mid", map[]), Echo("X")]
  const MidBody: Script := [Layout("base", map[]), Echo("["), EchoSection(ContentSection, ""), Echo("]")]
  const BaseBody: Script := [Echo("<"), EchoSection(ContentSection, ""), Echo(">")]

  lemma ChildPartial(cfg: Config, fs: FileSystem, st: State, fuel: nat)
    requires fuel > 0 && Runs(cfg, fs, "child", ChildBody)
    ensures Partial(cfg, fs, st, "child", map[], fuel) ==
            Step(State(SetLayout(st.page, "mid", map[]), st.out), Ok("X"))
  {
    PartialOfPassive(cfg, fs, st, "child", map[], fuel);
    var b := ChildBody;
    assert b[1..] == [Echo("X")] && b[1..][1..] == [];
    assert Printed(st.page, b[1..]) == "X" + "";
    assert Printed(st.page, b) == "" + Printed(st.page, b[1..]);
    var p1 := SetLayout(st.page, "mid", map[]);
    assert Layouts(st.page, b) == Layouts(p1, b[1..]);
    assert Layouts(p1, b[1..]) == Layouts(p1, b[1..][1..]);
    assert Printed(st.page, b) == "X";
    assert Layouts(st.page, b) == p1;
    assert fs.body(Resolve(cfg, fs.fileExists, "child").value, map[]) == b;
  }

  lemma MidPartial(cfg: Config, fs: FileSystem, st: State, fuel: nat)
    requires fuel > 0 && Runs(cfg, fs, "mid", MidBody)
    ensures Partial(cfg, fs, st, "mid", map[], fuel) ==
            Step(State(SetLayout(st.page, "base", map[]), st.out), Ok("[" + Section(st.page, ContentSection, "") + "]"))
  {
    PartialOfPassive(cfg, fs, st, "mid", map[], fuel);
    var b := MidBody;
    var c := Section(st.page, ContentSection, "");
    assert b[1..] == [Echo("["), EchoSection(ContentSection, ""), Echo("]")];
    assert b[1..][1..] == [EchoSection(ContentSection, ""), Echo("]")];
    assert b[1..][1..][1..] == [Echo("]")];
    assert b[1..][1..][1..][1..] == [];
    assert Printed(st.page, b[1..][1..][1..]) == "]" + "";
    assert Printed(st.page, b[1..][1..]) == c + "]";
    assert Printed(st.page, b[1..]) == "[" + (c + "]");
    assert Printed(st.page, b) == "" + Printed(st.page, b[1..]);
    var p1 := SetLayout(st.page, "base", map[]);
    assert Layouts(st.page, b) == Layouts(p1, b[1..]);
    assert Layouts(p1, b[1..]) == Layouts(p1, b[1..][1..]);
    assert Layouts(p1, b[1..][1..]) == Layouts(p1, b[1..][1..][1..]);
    assert Layouts(p1, b[1..][1..][1..]) == Layouts(p1, b[1..][1..][1..][1..]);
    assert Printed(st.page, b) == "[" + c + "]";
    assert Layouts(st.page, b) == p1;
    assert fs.body(Resolve(cfg, fs.fileExists, "mid").value, map[]) == b;
  }

  lemma BasePartial(cfg: Config, fs: FileSystem, st: State, fuel: nat)
    requires fuel > 0 && Runs(cfg, fs, "base", BaseBody)
    ensures Partial(cfg, fs, st, "base", map[], fuel) ==
            Step(st, Ok("<" + Section(st.page, ContentSection, "") + ">"))
  {
    PartialOfPassive(cfg, fs, st, "base", map[], fuel);
    var b := BaseBody;
    var c := Section(st.page, ContentSection, "");
    assert b[1..] == [EchoSection(ContentSection, ""), Echo(">")];
    assert b[1..][1..] == [Echo(">")];
    assert b[1..][1..][1..] == [];
    assert Printed(st.page, b[1..][1..]) == ">" + "";
    assert Printed(st.page, b[1..]) == c + ">";
    assert Printed(st.page, b) == "<" + (c + ">");
    assert Layouts(st.page, b) == Layouts(st.page, b[1..]);
    assert Layouts(st.page, b[1..]) == Layouts(st.page, b[1..][1..]);
    assert Layouts(st.page, b[1..][1..]) == Layouts(st.page, b[1..][1..][1..]);
    assert Printed(st.page, b) == "<" + c + ">";
    assert Layouts(st.page, b) == st.page;
    assert fs.body(Resolve(cfg, fs.fileExists, "base").value, map[]) == b;
  }

  /** child registers layout "mid" and prints "X"; mid registers layout
      "base" and wraps `content` in brackets; base wraps it in angle brackets.
      Template::render applies both layouts. */
  lemma TemplateAppliesChainedLayouts(cfg: Config, fs: FileSystem)
    requires Runs(cfg, fs, "child", ChildBody)
    requires Runs(cfg, fs, "mid", MidBody)
    requires Runs(cfg, fs, "base", BaseBody)
    ensures TemplateRender(cfg, fs, Start0, "child", map[], 3).result == Ok("<[X]>")
  {
    MidRendersBase(cfg, fs);
    ChildPartial(cfg, fs, Start0, 3);
    TemplateLayoutStep(cfg, fs, Start0, "child", map[], 3);
  }

  /** The layout level of the chain: mid, holding content "X", wrapped by base. */
  lemma MidRendersBase(cfg: Config, fs: FileSystem)
    requires Runs(cfg, fs, "mid", MidBody)
    requires Runs(cfg, fs, "base", BaseBody)
    ensures TemplateRender(cfg, fs, State(FreshPage.(sections := map[ContentSection := "X"]), NoBuffers), "mid", map[], 2).result == Ok("<[X]>")
  {
    BaseRenders(cfg, fs);
    var page1 := FreshPage.(sections := map[ContentSection := "X"]);
    MidPartial(cfg, fs, State(page1, NoBuffers), 2);
    TemplateLayoutStep(cfg, fs, State(page1, NoBuffers), "mid", map[], 2);
    assert Section(page1, ContentSection, "") == "X";
    assert "[" + "X" + "]" == "[X]";
  }

  lemma BaseRenders(cfg: Config, fs: FileSystem)
    requires Runs(cfg, fs, "base", BaseBody)
    ensures TemplateRender(cfg, fs, State(FreshPage.(sections := map[ContentSection := "[X]"]), NoBuffers), "base", map[], 1).result == Ok("<[X]>")
  {
    var page2 := FreshPage.(sections := map[ContentSection := "[X]"]);
    BasePartial(cfg, fs, State(page2, NoBuffers), 1);
    assert Section(page2, ContentSection, "") == "[X]";
    assert "<" + "[X]" + ">" == "<[X]>";
  }

  /** The same three templates under TemplateRenderer::render: only the
      first layout is applied; the layout registered by "mid" is recorded on
      the object but not rendered. */
  lemma RendererAppliesOneLayoutLevel(cfg: Config, fs: FileSystem)
    requires Runs(cfg, fs, "child", ChildBody)
    requires Runs(cfg, fs, "mid", MidBody)
    ensures RendererRender(cfg, fs, Start0, "child", map[], 3).result == Ok("[X]")
    ensures RendererRender(cfg, fs, Start0, "child", map[], 3).state.page.layout == Some("base")
  {
    ChildPartial(cfg, fs, Start0, 3);
    var seeded := SetLayout(FreshPage, "mid", map[]).(sections := map[ContentSection := "X"]);
    MidPartial(cfg, fs, State(seeded, NoBuffers), 3);
    assert Section(seeded, ContentSection, "") == "X";
    assert "[" + "X" + "]" == "[X]";
  }

  const TitledBody: Script := [Start("title"), Echo("T"), Stop, Layout("page", map[])]
  const PageBody: Script := [EchoSection("title", "none")]

  lemma TitledCapture(cfg: Config, fs: FileSystem, fuel: nat)
    ensures Run(cfg, fs, State(FreshPage, Push(NoBuffers)), [Start("title"), Echo("T"), Stop], fuel) ==
            Step(State(FreshPage.(sections := map["title" := "T"]), Push(NoBuffers)), Ok(()))
  {
    var a := [Start("title"), Echo("T"), Stop];
    var s0 := State(FreshPage, Push(NoBuffers));
    var s1 := State(FreshPage.(sectionName := Some("title")), Push(Push(NoBuffers)));
    var s2 := State(s1.page, Write(s1.out, "T"));
    assert s1.out.stack == ["", ""];
    assert s1.out.stack[..1] == [""] && "" + "T" == "T";
    assert Write(s1.out, "T") == Buffers(["", "T"], "");
    assert Capture.Start(s0, "title") == Step(s1, Ok(()));
    assert a[1..] == [Echo("T"), Stop] && a[1..][1..] == [Stop] && a[1..][1..][1..] == [];
    assert Run(cfg, fs, s0, a, fuel) == Run(cfg, fs, s1, a[1..], fuel);
    assert Run(cfg, fs, s1, a[1..], fuel) == Run(cfg, fs, s2, a[1..][1..], fuel);
    assert Pop(s2.out) == ("T", Push(NoBuffers));
    var s3 := State(FreshPage.(sections := map["title" := "T"]), Push(NoBuffers));
    assert Capture.Stop(s2) == Step(s3, Ok(()));
    assert Run(cfg, fs, s2, a[1..][1..], fuel) == Run(cfg, fs, s3, [], fuel);
  }

  lemma TitledRun(cfg: Config, fs: FileSystem, fuel: nat)
    ensures Run(cfg, fs, State(FreshPage, Push(NoBuffers)), TitledBody, fuel) ==
            Step(State(SetLayout(FreshPage.(sections := map["title" := "T"]), "page", map[]), Push(NoBuffers)), Ok(()))
  {
    var pushed := State(FreshPage, Push(NoBuffers));
    assert TitledBody == [Start("title"), Echo("T"), Stop] + [Layout("page", map[])];
    RunConcat(cfg, fs, pushed, [Start("title"), Echo("T"), Stop], [Layout("page", map[])], fuel);
    TitledCapture(cfg, fs, fuel);
    var captured := State(FreshPage.(sections := map["title" := "T"]), Push(NoBuffers));
    var done := State(SetLayout(captured.page, "page", map[]), Push(NoBuffers));
    assert [Layout("page", map[])][1..] == [];
    assert Run(cfg, fs, captured, [Layout("page", map[])], fuel) == Step(done, Ok(()));
  }

  lemma TitledPartial(cfg: Config, fs: FileSystem, fuel: nat)
    requires fuel > 0 && Runs(cfg, fs, "titled", TitledBody)
    ensures Partial(cfg, fs, Start0, "titled", map[], fuel) ==
            Step(State(SetLayout(FreshPage.(sections := map["title" := "T"]), "page", map[]), NoBuffers), Ok(""))
  {
    TitledRun(cfg, fs, fuel - 1);
    assert fs.body(Resolve(cfg, fs.fileExists, "titled").value, map[]) == TitledBody;
    assert Start0.(out := Push(Start0.out)) == State(FreshPage, Push(NoBuffers));
    assert Pop(Push(NoBuffers)) == ("", NoBuffers);
  }

  /** The body stores section "title" and registers layout "page", which
      prints that section (default "none"). TemplateRenderer::render runs the
      layout on the same object, so the layout shows the body's section. */
  lemma RendererLayoutSeesBodySections(cfg: Config, fs: FileSystem)
    requires Runs(cfg, fs, "titled", TitledBody)
    requires Runs(cfg, fs, "page", PageBody)
    ensures RendererRender(cfg, fs, Start0, "titled", map[], 2).result == Ok("T")
  {
    TitledPartial(cfg, fs, 2);
    var seeded := SetLayout(FreshPage.(sections := map["title" := "T"]), "page", map[]).(sections := map["title" := "T", ContentSection := ""]);
    PartialOfPassive(cfg, fs, State(seeded, NoBuffers), "page", map[], 2);
    assert PageBody[1..] == [];
    assert Section(seeded, "title", "none") == "T";
    assert Printed(seeded, PageBody) == "T" + "" == "T";
    assert fs.body(Resolve(cfg, fs.fileExists, "page").value, map[]) == PageBody;
  }

  /** The same templates under Template::render: the layout gets a new page
      holding only `content`, so it falls back to the default. */
  lemma TemplateLayoutMissesBodySections(cfg: Config, fs: FileSystem)
    requires Runs(cfg, fs, "titled", TitledBody)
    requires Runs(cfg, fs, "page", PageBody)
    ensures TemplateRender(cfg, fs, Start0, "titled", map[], 2).result == Ok("none")
  {
    TitledPartial(cfg, fs, 2);
    PageRendersDefault(cfg, fs);
    TemplateLayoutStep(cfg, fs, Start0, "titled", map[], 2);
  }

  /** The layout on a page holding only an empty `content` prints "none". */
  lemma PageRendersDefault(cfg: Config, fs: FileSystem)
    requires Runs(cfg, fs, "page", PageBody)
    ensures TemplateRender(cfg, fs, State(FreshPage.(sections := map[ContentSection := ""]), NoBuffers), "page", map[], 1).result == Ok("none")
  {
    var layoutPage := FreshPage.(sections := map[ContentSection := ""]);
    PartialOfPassive(cfg, fs, State(layoutPage, NoBuffers), "page", map[], 1);
    assert PageBody[1..] == [];
    assert Section(layoutPage, "title", "none") == "none";
    assert Printed(layoutPage, PageBody) == "none" + "" == "none";
    assert Layouts(layoutPage, PageBody) == layoutPage;
    assert fs.body(Resolve(cfg, fs.fileExists, "page").value, map[]) == PageBody;
  }

  /** The sequence start s, "A", stop, append s, "B", stop run inside a
      buffer that already holds "P": the section ends up as "AP", not "AB".
      The text captured by the append is dropped and the enclosing buffer is
      drained into the section instead. */
  lemma AppendExampleAsWritten(cfg: Config, fs: FileSystem, p: string, fuel: nat)
    ensures var st := State(FreshPage, Buffers([p], ""));
            var r := Run(cfg, fs, st, [Start("s"), Echo("A"), Stop, Append("s"), Echo("B"), Stop], fuel);
            && r.result.Ok?
            && r.state.page.sections == map["s" := "A" + p]
            && r.state.out == NoBuffers
  {
    var st := State(FreshPage, Buffers([p], ""));
    var first := [Start("s")] + [Echo("A")] + [Stop];
    var second := [Append("s"), Echo("B"), Stop];
    assert [Start("s"), Echo("A"), Stop, Append("s"), Echo("B"), Stop] == first + second;
    RunConcat(cfg, fs, st, first, second, fuel);
    assert PassiveScript([Echo("A")]);
    CaptureScript(cfg, fs, st, "s", [Echo("A")], fuel);
    assert Printed(st.page, [Echo("A")]) == "A" + "" == "A";
    var mid := Run(cfg, fs, st, first, fuel).state;
    assert mid.page.sections == map["s" := "A"] && mid.out == st.out;
    assert Capture.Append(mid, "s").result.Ok?;
    var appended := Capture.Append(mid, "s").state;
    var written := State(appended.page, Write(appended.out, "B"));
    assert second[1..] == [Echo("B"), Stop] && second[1..][1..] == [Stop] && second[1..][1..][1..] == [];
    assert Run(cfg, fs, mid, second, fuel) == Run(cfg, fs, appended, second[1..], fuel);
    assert Run(cfg, fs, appended, second[1..], fuel) == Run(cfg, fs, written, second[1..][1..], fuel);
    assert Run(cfg, fs, written, second[1..][1..], fuel) == Capture.Stop(written);
    AppendRoundTrip(mid, "s", "B");
    assert Pop(mid.out) == (p, NoBuffers);
  }
}
