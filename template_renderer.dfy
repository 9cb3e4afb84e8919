/** TemplateRenderer: the all-in-one renderer. One object holds the path
    settings, the sections captured so far, the capture in progress and the
    registered layout; template bodies run against it and call its methods.
    Every method is proved to do what the specification functions of
    Capture and Engine say, on the object's fields and the output buffers. */
module Renderer {
  import opened Base
  import opened OutputBuffering
  import opened Paths
  import opened Capture
  import opened Engine
  import opened Options

  class TemplateRenderer {
    var filesExtension: string
    var defaultDirectory: string
    var namespaces: map<string, string>

    var sections: map<string, string>
    var layout: Option<string>
    var layoutData: Data

    var sectionName: Option<string>
    var appendSection: bool
    var prependSection: bool

    /** The path settings as a value. */
    function Settings(): Config
      reads this
    {
      Config(filesExtension, defaultDirectory, namespaces)
    }

    /** The capture and layout fields as a value. */
    function Page(): Page
      reads this
    {
      Capture.Page(sections, sectionName, appendSection, prependSection, layout, layoutData)
    }

    /** This object together with the output buffers it prints into. */
    function Snapshot(ob: OutputBuffer): State
      reads this, ob
    {
      State(Page(), ob.Contents())
    }

    /** The property defaults; the options array of the PHP constructor is
        the same as a call to SetOptions afterwards. */
    constructor ()
      ensures Settings() == DefaultConfig && Page() == FreshPage
    {
      filesExtension := ".php";
      defaultDirectory := "templates";
      namespaces := map[];
      sections := map[];
      layout := None;
      layoutData := map[];
      sectionName := None;
      appendSection := false;
      prependSection := false;
    }

    // -------------------------------------------------------------------
    // Settings

    method SetFilesExtension(ext: string)
      modifies this
      ensures Settings() == old(Settings()).(filesExtension := ext) && Page() == old(Page())
    {
      filesExtension := ext;
    }

    method SetDefaultDirectory(dir: string)
      modifies this
      ensures Settings() == old(Settings()).(defaultDirectory := dir) && Page() == old(Page())
    {
      defaultDirectory := dir;
    }

    method SetNamespaces(m: map<string, string>)
      modifies this
      ensures Settings() == old(Settings()).(namespaces := m) && Page() == old(Page())
    {
      namespaces := m;
    }

    /** setOptions: calls the setter of each key in order; a key without a
        setter, or a value of the wrong type, throws and ends the loop. */
    method SetOptions(entries: Entries) returns (res: Result<()>)
      modifies this
      ensures Applied(Settings(), res) == SetOptionsOf(RendererOwner, old(Settings()), entries)
      ensures Page() == old(Page())
    {
      var i := 0;
      while i < |entries|
        invariant 0 <= i <= |entries|
        invariant Page() == old(Page())
        invariant SetOptionsOf(RendererOwner, Settings(), entries[i..]) ==
                  SetOptionsOf(RendererOwner, old(Settings()), entries)
      {
        var (key, value) := entries[i];
        assert entries[i..][0] == (key, value) && entries[i..][1..] == entries[i + 1..];
        match SetterFor(RendererOwner, key) {
          case None =>
            return Err(UnknownOption(key));
          case Some(SetFilesExtension) =>
            if value.Table? {
              return Err(OptionTypeMismatch(key));
            }
            SetFilesExtension(value.text);
          case Some(SetDefaultDirectory) =>
            if value.Table? {
              return Err(OptionTypeMismatch(key));
            }
            SetDefaultDirectory(value.text);
          case Some(SetNamespaces) =>
            if value.Text? {
              return Err(OptionTypeMismatch(key));
            }
            SetNamespaces(value.table);
          case Some(SetUsePackageDirs) =>
            assert false;
        }
        i := i + 1;
      }
      return Ok(());
    }

    // -------------------------------------------------------------------
    // Paths

    /** getTemplatePath: the candidate path, returned only if it exists. */
    function GetTemplatePath(fileExists: string -> bool, name: string): (r: Result<string>)
      reads this
      ensures r.Ok? <==> Candidate(Settings(), name).Ok? && fileExists(Candidate(Settings(), name).value)
      ensures r.Ok? ==> r.value == Candidate(Settings(), name).value
      ensures Candidate(Settings(), name).Err? ==> r == Candidate(Settings(), name)
      ensures Candidate(Settings(), name).Ok? && r.Err? ==> r.error == TemplateNotFound(Candidate(Settings(), name).value)
    {
      Resolve(Settings(), fileExists, name)
    }

    // -------------------------------------------------------------------
    // Sections and layout

    /** section($name, $default) */
    function Section(name: string, default: string): (r: string)
      reads this
      ensures name in sections ==> r == sections[name]
      ensures name !in sections ==> r == default
    {
      Capture.Section(Page(), name, default)
    }

    /** layout($name, $data) */
    method Layout(name: string, data: Data)
      modifies this
      ensures Page() == SetLayout(old(Page()), name, data) && Settings() == old(Settings())
    {
      layout := Some(name);
      layoutData := data;
    }

    method Start(ob: OutputBuffer, name: string) returns (res: Result<()>)
      modifies this, ob
      ensures Step(Snapshot(ob), res) == Capture.Start(old(Snapshot(ob)), name)
      ensures Settings() == old(Settings())
    {
      if name == ContentSection {
        return Err(ReservedSectionName);
      }
      if TruthyOpt(sectionName) {
        return Err(NestedSection);
      }
      sectionName := Some(name);
      ob.Start();
      return Ok(());
    }

    method Append(ob: OutputBuffer, name: string) returns (res: Result<()>)
      modifies this, ob
      ensures Step(Snapshot(ob), res) == Capture.Append(old(Snapshot(ob)), name)
      ensures Settings() == old(Settings())
    {
      appendSection := true;
      res := Start(ob, name);
    }

    method Prepend(ob: OutputBuffer, name: string) returns (res: Result<()>)
      modifies this, ob
      ensures Step(Snapshot(ob), res) == Capture.Prepend(old(Snapshot(ob)), name)
      ensures Settings() == old(Settings())
    {
      prependSection := true;
      res := Start(ob, name);
    }

    method Stop(ob: OutputBuffer) returns (res: Result<()>)
      modifies this, ob
      ensures Step(Snapshot(ob), res) == Capture.Stop(old(Snapshot(ob)))
      ensures Settings() == old(Settings())
    {
      if sectionName.None? {
        return Err(NoActiveSection);
      }
      var name := sectionName.value;
      var content := ob.GetClean();
      if appendSection && name in sections {
        var more := ob.GetClean();
        sections := sections[name := sections[name] + more];
      } else if prependSection && name in sections {
        var more := ob.GetClean();
        sections := sections[name := more + sections[name]];
      } else {
        sections := sections[name := content];
      }
      sectionName := None;
      appendSection := false;
      prependSection := false;
      return Ok(());
    }

    // -------------------------------------------------------------------
    // Rendering

    /** One call made by a running template body. */
    method Perform(ob: OutputBuffer, fs: FileSystem, a: Action, fuel: nat) returns (res: Result<()>)
      modifies this, ob
      decreases fuel, 1, 0
      ensures Step(Snapshot(ob), res) == Act(Settings(), fs, old(Snapshot(ob)), a, fuel)
      ensures Settings() == old(Settings())
    {
      match a {
        case Echo(text) =>
          ob.Echo(text);
          res := Ok(());
        case EchoSection(name, default) =>
          ob.Echo(Section(name, default));
          res := Ok(());
        case Start(name) =>
          res := this.Start(ob, name);
        case Append(name) =>
          res := this.Append(ob, name);
        case Prepend(name) =>
          res := this.Prepend(ob, name);
        case Stop =>
          res := this.Stop(ob);
        case Layout(name, data) =>
          this.Layout(name, data);
          res := Ok(());
        case Insert(name, data) =>
          res := this.Insert(ob, fs, name, data, fuel);
      }
    }

    /** The body of a required template file, call by call; the first
        exception ends it. */
    method RunScript(ob: OutputBuffer, fs: FileSystem, script: Script, fuel: nat) returns (res: Result<()>)
      modifies this, ob
      decreases fuel, 2, 0
      ensures Step(Snapshot(ob), res) == Run(Settings(), fs, old(Snapshot(ob)), script, fuel)
      ensures Settings() == old(Settings())
    {
      var i := 0;
      while i < |script|
        invariant 0 <= i <= |script|
        invariant Settings() == old(Settings())
        invariant Run(Settings(), fs, Snapshot(ob), script[i..], fuel) == Run(Settings(), fs, old(Snapshot(ob)), script, fuel)
      {
        assert script[i..][0] == script[i] && script[i..][1..] == script[i + 1..];
        res := Perform(ob, fs, script[i], fuel);
        if res.Err? {
          return;
        }
        i := i + 1;
      }
      return Ok(());
    }

    /** renderPartial: resolve, open a buffer, run the body, return the
        buffer's text. */
    method RenderPartial(ob: OutputBuffer, fs: FileSystem, name: string, data: Data, fuel: nat) returns (r: Result<string>)
      modifies this, ob
      decreases fuel, 0, 0
      ensures Step(Snapshot(ob), r) == Partial(Settings(), fs, old(Snapshot(ob)), name, data, fuel)
      ensures Settings() == old(Settings())
    {
      if fuel == 0 {
        return Err(OutOfFuel);
      }
      var path := GetTemplatePath(fs.fileExists, name);
      if path.Err? {
        return Err(path.error);
      }
      ob.Start();
      var ran := RunScript(ob, fs, fs.body(path.value, data), fuel - 1);
      if ran.Err? {
        return Err(ran.error);
      }
      var text := ob.GetClean();
      return Ok(text);
    }

    /** insert: echo a template rendered without layout. */
    method Insert(ob: OutputBuffer, fs: FileSystem, name: string, data: Data, fuel: nat) returns (res: Result<()>)
      modifies this, ob
      decreases fuel, 0, 1
      ensures Step(Snapshot(ob), res) == Act(Settings(), fs, old(Snapshot(ob)), Action.Insert(name, data), fuel)
      ensures Settings() == old(Settings())
    {
      ActInsert(Settings(), fs, Snapshot(ob), name, data, fuel);
      var r := RenderPartial(ob, fs, name, data, fuel);
      if r.Err? {
        return Err(r.error);
      }
      ob.Echo(r.value);
      return Ok(());
    }

    /** render: the body, then its layout (one level) on this same object,
        with the body's output stored as the `content` section. */
    method Render(ob: OutputBuffer, fs: FileSystem, name: string, data: Data, fuel: nat) returns (r: Result<string>)
      modifies this, ob
      ensures Step(Snapshot(ob), r) == RendererRender(Settings(), fs, old(Snapshot(ob)), name, data, fuel)
      ensures Settings() == old(Settings())
    {
      r := RenderPartial(ob, fs, name, data, fuel);
      if r.Err? || layout.None? {
        return;
      }
      sections := sections[ContentSection := r.value];
      r := RenderPartial(ob, fs, layout.value, layoutData, fuel);
    }
  }
}
