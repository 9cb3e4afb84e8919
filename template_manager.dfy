/** TemplateManager: holds the path settings, resolves template names to
    paths, and picks the engine that renders a template. */
module Manager {
  import opened Base
  import opened PhpStrings
  import opened Paths
  import opened Options

  /** The engine `render` hands a template to. */
  datatype EngineKind = PhpEngine | TwigEngine

  /** The substring that makes `render` choose the PHP engine. */
  const PhpMarker := ".php"

  /** render's dispatch: the PHP engine exactly when `.php` occurs anywhere
      in the name, Twig otherwise. Both branches return, so the exception
      after them is never reached. */
  function SelectEngine(name: string): (r: EngineKind)
    ensures r == PhpEngine <==> exists j :: Occurs(name, PhpMarker, j)
    ensures r == TwigEngine <==> !exists j :: Occurs(name, PhpMarker, j)
  {
    ContainsIff(name, PhpMarker);
    if Contains(name, PhpMarker) then PhpEngine else TwigEngine
  }

  /** Where `.php` is written does not matter: a name ending in it, holding
      it in a directory part, or holding it inside a namespace all choose
      the PHP engine. */
  lemma SelectEngineAnywhere(prefix: string, suffix: string)
    ensures SelectEngine(prefix + PhpMarker + suffix) == PhpEngine
  {
    var name := prefix + PhpMarker + suffix;
    assert name[|prefix|..|prefix| + |PhpMarker|] == PhpMarker;
    assert Occurs(name, PhpMarker, |prefix|);
  }

  class TemplateManager {
    var filesExtension: string
    var defaultDirectory: string
    var namespaces: map<string, string>

    /** The path settings as a value. */
    function Settings(): Config
      reads this
    {
      Config(filesExtension, defaultDirectory, namespaces)
    }

    /** The property defaults; the options array of the PHP constructor is
        the same as a call to SetOptions afterwards. */
    constructor ()
      ensures Settings() == DefaultConfig
    {
      filesExtension := ".php";
      defaultDirectory := "templates";
      namespaces := map[];
    }

    /** setUsePackageDirs: writes the files extension, like setFilesExtension. */
    method SetUsePackageDirs(ext: string)
      modifies this
      ensures Settings() == old(Settings()).(filesExtension := ext)
    {
      filesExtension := ext;
    }

    method SetFilesExtension(ext: string)
      modifies this
      ensures Settings() == old(Settings()).(filesExtension := ext)
    {
      filesExtension := ext;
    }

    function GetFilesExtension(): (r: string)
      reads this
      ensures r == Settings().filesExtension
    {
      filesExtension
    }

    method SetDefaultDirectory(dir: string)
      modifies this
      ensures Settings() == old(Settings()).(defaultDirectory := dir)
    {
      defaultDirectory := dir;
    }

    function GetDefaultDirectory(): (r: string)
      reads this
      ensures r == Settings().defaultDirectory
    {
      defaultDirectory
    }

    method SetNamespaces(m: map<string, string>)
      modifies this
      ensures Settings() == old(Settings()).(namespaces := m)
    {
      namespaces := m;
    }

    function GetNamespaces(): (r: map<string, string>)
      reads this
      ensures r == Settings().namespaces
    {
      namespaces
    }

    /** setOptions: calls the setter of each key in order; a key without a
        setter, or a value of the wrong type, throws and ends the loop. */
    method SetOptions(entries: Entries) returns (res: Result<()>)
      modifies this
      ensures Applied(Settings(), res) == SetOptionsOf(ManagerOwner, old(Settings()), entries)
    {
      var i := 0;
      while i < |entries|
        invariant 0 <= i <= |entries|
        invariant SetOptionsOf(ManagerOwner, Settings(), entries[i..]) ==
                  SetOptionsOf(ManagerOwner, old(Settings()), entries)
      {
        var (key, value) := entries[i];
        assert entries[i..][0] == (key, value) && entries[i..][1..] == entries[i + 1..];
        match SetterFor(ManagerOwner, key) {
          case None =>
            return Err(UnknownOption(key));
          case Some(SetFilesExtension) =>
            if value.Table? {
              return Err(OptionTypeMismatch(key));
            }
            SetFilesExtension(value.text);
          case Some(SetUsePackageDirs) =>
            if value.Table? {
              return Err(OptionTypeMismatch(key));
            }
            SetUsePackageDirs(value.text);
          case Some(SetDefaultDirectory) =>
            if value.Table? {
              return Err(OptionTypeMismatch(key));
            }
            SetDefaultDirectory(value.text);
          case Some(SetNamespaces) =>
            if value.Text? {
              return Err(OptionTypeMismatch(key));
            }
            SetNamespaces(value.table);
        }
        i := i + 1;
      }
      return Ok(());
    }

    /** pathByName: the same rules as the renderer's path lookup, with this
        manager's settings. An unregistered namespace throws whatever the
        file system holds; otherwise the candidate path is returned exactly
        when the file exists. */
    function PathByName(fileExists: string -> bool, name: string): (r: Result<string>)
      reads this
      ensures Candidate(Settings(), name).Err? ==> r == Candidate(Settings(), name)
      ensures Candidate(Settings(), name).Ok? ==>
                r == if fileExists(Candidate(Settings(), name).value) then Candidate(Settings(), name)
                     else Err(TemplateNotFound(Candidate(Settings(), name).value))
      ensures r.Ok? ==> fileExists(r.value)
    {
      Resolve(Settings(), fileExists, name)
    }
  }

  /** A setter call followed by the matching getter gives back the value
      written, and the other settings are left as they were. */
  method SettersThenGetters(m: TemplateManager, ext: string, dir: string, ns: map<string, string>)
    returns (e: string, d: string, n: map<string, string>)
    modifies m
    ensures e == ext && d == dir && n == ns
  {
    m.SetUsePackageDirs(".twig");
    m.SetFilesExtension(ext);
    var before := m.Settings();
    m.SetDefaultDirectory(dir);
    assert m.GetFilesExtension() == before.filesExtension;
    m.SetNamespaces(ns);
    e, d, n := m.GetFilesExtension(), m.GetDefaultDirectory(), m.GetNamespaces();
  }
}
