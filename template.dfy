/** Template: the per-render object. It keeps its own sections, capture and
    layout, and reads the path settings of the manager it was built with.
    Its render hands the layout to a new Template whose only section is
    `content`, so layouts chain and the body's other sections stay behind. */
module Templates {
  import opened Base
  import opened OutputBuffering
  import opened Paths
  import opened Capture
  import opened Engine
  import opened Manager

  class Template {
    /** The manager whose settings resolve template names. */
    const manager: TemplateManager

    var sections: map<string, string>
    var layout: Option<string>
    var layoutData: Data

    var sectionName: Option<string>
    var appendSection: bool
    var prependSection: bool

    /** The manager's path settings. */
    function Settings(): Config
      reads manager
    {
      manager.Settings()
    }

    /** The capture and layout fields as a value. */
    function Page(): Page
      reads this
    {
      Capture.Page(sections, sectionName, appendSection, prependSection, layout, layoutData)
    }

    /** This object together with the output buffers it prints into. */
    function Snapshot(ob: OutputBuffer): State
      reads this, ob
    {
      State(Page(), ob.Contents())
    }

    constructor (manager: TemplateManager)
      ensures this.manager == manager && Page() == FreshPage
    {
      this.manager := manager;
      sections := map[];
      layout := None;
      layoutData := map[];
      sectionName := None;
      appendSection := false;
      prependSection := false;
    }

    // -------------------------------------------------------------------
    // Sections and layout

    /** section($name, $default) */
    function Section(name: string, default: string): (r: string)
      reads this
      ensures name in sections ==> r == sections[name]
      ensures name !in sections ==> r == default
    {
      Capture.Section(Page(), name, default)
    }

    /** layout($name, $data) */
    method Layout(name: string, data: Data)
      modifies this
      ensures Page() == SetLayout(old(Page()), name, data)
    {
      layout := Some(name);
      layoutData := data;
    }

    method Start(ob: OutputBuffer, name: string) returns (res: Result<()>)
      modifies this, ob
      ensures Step(Snapshot(ob), res) == Capture.Start(old(Snapshot(ob)), name)
    {
      if name == ContentSection {
        return Err(ReservedSectionName);
      }
      if TruthyOpt(sectionName) {
        return Err(NestedSection);
      }
      sectionName := Some(name);
      ob.Start();
      return Ok(());
    }

    method Append(ob: OutputBuffer, name: string) returns (res: Result<()>)
      modifies this, ob
      ensures Step(Snapshot(ob), res) == Capture.Append(old(Snapshot(ob)), name)
    {
      appendSection := true;
      res := Start(ob, name);
    }

    method Prepend(ob: OutputBuffer, name: string) returns (res: Result<()>)
      modifies this, ob
      ensures Step(Snapshot(ob), res) == Capture.Prepend(old(Snapshot(ob)), name)
    {
      prependSection := true;
      res := Start(ob, name);
    }

    method Stop(ob: OutputBuffer) returns (res: Result<()>)
      modifies this, ob
      ensures Step(Snapshot(ob), res) == Capture.Stop(old(Snapshot(ob)))
    {
      if sectionName.None? {
        return Err(NoActiveSection);
      }
      var name := sectionName.value;
      var content := ob.GetClean();
      if appendSection && name in sections {
        var more := ob.GetClean();
        sections := sections[name := sections[name] + more];
      } else if prependSection && name in sections {
        var more := ob.GetClean();
        sections := sections[name := more + sections[name]];
      } else {
        sections := sections[name := content];
      }
      sectionName := None;
      appendSection := false;
      prependSection := false;
      return Ok(());
    }

    // -------------------------------------------------------------------
    // Rendering

    /** One call made by a running template body. */
    method Perform(ob: OutputBuffer, fs: FileSystem, a: Action, fuel: nat) returns (res: Result<()>)
      modifies this, ob
      decreases fuel, 1, 0
      ensures Step(Snapshot(ob), res) == Act(Settings(), fs, old(Snapshot(ob)), a, fuel)
    {
      match a {
        case Echo(text) =>
          ob.Echo(text);
          res := Ok(());
        case EchoSection(name, default) =>
          ob.Echo(Section(name, default));
          res := Ok(());
        case Start(name) =>
          res := this.Start(ob, name);
        case Append(name) =>
          res := this.Append(ob, name);
        case Prepend(name) =>
          res := this.Prepend(ob, name);
        case Stop =>
          res := this.Stop(ob);
        case Layout(name, data) =>
          this.Layout(name, data);
          res := Ok(());
        case Insert(name, data) =>
          res := this.Insert(ob, fs, name, data, fuel);
      }
    }

    /** The body of a required template file, call by call; the first
        exception ends it. */
    method RunScript(ob: OutputBuffer, fs: FileSystem, script: Script, fuel: nat) returns (res: Result<()>)
      modifies this, ob
      decreases fuel, 2, 0
      ensures Step(Snapshot(ob), res) == Run(Settings(), fs, old(Snapshot(ob)), script, fuel)
    {
      var i := 0;
      while i < |script|
        invariant 0 <= i <= |script|
        invariant Run(Settings(), fs, Snapshot(ob), script[i..], fuel) == Run(Settings(), fs, old(Snapshot(ob)), script, fuel)
      {
        assert script[i..][0] == script[i] && script[i..][1..] == script[i + 1..];
        res := Perform(ob, fs, script[i], fuel);
        if res.Err? {
          return;
        }
        i := i + 1;
      }
      return Ok(());
    }

    /** partial: resolve through the manager, open a buffer, run the body,
        return the buffer's text. */
    method Partial(ob: OutputBuffer, fs: FileSystem, name: string, data: Data, fuel: nat) returns (r: Result<string>)
      modifies this, ob
      decreases fuel, 0, 0
      ensures Step(Snapshot(ob), r) == Engine.Partial(Settings(), fs, old(Snapshot(ob)), name, data, fuel)
    {
      if fuel == 0 {
        return Err(OutOfFuel);
      }
      var path := manager.PathByName(fs.fileExists, name);
      if path.Err? {
        return Err(path.error);
      }
      ob.Start();
      var ran := RunScript(ob, fs, fs.body(path.value, data), fuel - 1);
      if ran.Err? {
        return Err(ran.error);
      }
      var text := ob.GetClean();
      return Ok(text);
    }

    /** insert: echo a template rendered without layout. */
    method Insert(ob: OutputBuffer, fs: FileSystem, name: string, data: Data, fuel: nat) returns (res: Result<()>)
      modifies this, ob
      decreases fuel, 0, 1
      ensures Step(Snapshot(ob), res) == Act(Settings(), fs, old(Snapshot(ob)), Action.Insert(name, data), fuel)
    {
      ActInsert(Settings(), fs, Snapshot(ob), name, data, fuel);
      var r := Partial(ob, fs, name, data, fuel);
      if r.Err? {
        return Err(r.error);
      }
      ob.Echo(r.value);
      return Ok(());
    }

    /** render: the body; then, if it set a layout, the layout rendered by a
        new Template seeded with the body's output as `content`. */
    method Render(ob: OutputBuffer, fs: FileSystem, name: string, data: Data, fuel: nat) returns (r: Result<string>)
      modifies this, ob
      decreases fuel, 3, 0
      ensures Step(Snapshot(ob), r) == TemplateRender(Settings(), fs, old(Snapshot(ob)), name, data, fuel)
    {
      if fuel == 0 {
        return Err(OutOfFuel);
      }
      ghost var before := Snapshot(ob);
      r := Partial(ob, fs, name, data, fuel);
      if r.Err? || layout.None? {
        TemplateRenderWithoutLayout(Settings(), fs, before, name, data, fuel);
        return;
      }
      TemplateLayoutStep(Settings(), fs, before, name, data, fuel);
      r := RenderLayout(ob, fs, r.value, layout.value, layoutData, fuel - 1);
    }

    /** The layout step of render: a new Template on the same manager, whose
        only section is `content`, renders the layout. This object is left
        alone. */
    method RenderLayout(ob: OutputBuffer, fs: FileSystem, content: string, name: string, data: Data, fuel: nat)
      returns (r: Result<string>)
      modifies ob
      decreases fuel, 4, 0
      ensures var outer := TemplateRender(Settings(), fs, State(FreshPage.(sections := map[ContentSection := content]), old(ob.Contents())), name, data, fuel);
              ob.Contents() == outer.state.out && r == outer.result
    {
      var template := new Template(manager);
      template.sections := template.sections[ContentSection := content];
      assert template.Snapshot(ob) == State(FreshPage.(sections := map[ContentSection := content]), ob.Contents());
      r := template.Render(ob, fs, name, data, fuel);
    }
  }
}
