/** Template path resolution: `getTemplatePath` of the renderer and
    `pathByName` of the manager map a template name to a file path. */
module Paths {
  import opened Base
  import opened PhpStrings

  /** The long-lived renderer configuration the resolver reads. */
  datatype Config = Config(filesExtension: string, defaultDirectory: string, namespaces: map<string, string>)

  /** The property defaults of both the renderer and the manager. */
  const DefaultConfig := Config(".php", "templates", map[])

  const NamespaceDelimiter := "::"

  /** The path computed before the file system is consulted: a name holding
      `::` is split on it, its first piece names a namespace root and the other
      pieces are joined with `/`; any other name lies in the default directory.
      Only an unregistered namespace fails, and every path carries the files
      extension. */
  function Candidate(cfg: Config, name: string): (r: Result<string>)
    ensures r.Err? <==> Contains(name, NamespaceDelimiter) && Explode(name, NamespaceDelimiter)[0] !in cfg.namespaces
    ensures r.Err? ==> r.error == UndefinedNamespace(Explode(name, NamespaceDelimiter)[0])
                       && !Contains(r.error.ns, NamespaceDelimiter)
    ensures r.Ok? ==> |cfg.filesExtension| <= |r.value| &&
                      r.value[|r.value| - |cfg.filesExtension|..] == cfg.filesExtension
  {
    if Contains(name, NamespaceDelimiter) then
      var parts := Explode(name, NamespaceDelimiter);
      var ns := parts[0];
      if ns in cfg.namespaces then
        Ok(cfg.namespaces[ns] + "/" + Implode(parts[1..], "/") + cfg.filesExtension)
      else
        Err(UndefinedNamespace(ns))
    else
      Ok(cfg.defaultDirectory + "/" + name + cfg.filesExtension)
  }

  /** The path of template `name`: returned only if the file exists. */
  function Resolve(cfg: Config, fileExists: string -> bool, name: string): (r: Result<string>)
    ensures r.Ok? ==> fileExists(r.value)
    ensures r.Ok? <==> Candidate(cfg, name).Ok? && fileExists(Candidate(cfg, name).value)
    ensures r.Ok? ==> r.value == Candidate(cfg, name).value
    ensures r.Err? && r.error.TemplateNotFound? ==> !fileExists(r.error.path)
  {
    match Candidate(cfg, name)
    case Err(e) => Err(e)
    case Ok(path) => if fileExists(path) then Ok(path) else Err(TemplateNotFound(path))
  }

  /** A name without `::` is looked up as `defaultDirectory/name.ext`. */
  lemma ResolveDefault(cfg: Config, fileExists: string -> bool, name: string)
    requires !Contains(name, NamespaceDelimiter)
    ensures var path := cfg.defaultDirectory + "/" + name + cfg.filesExtension;
            Resolve(cfg, fileExists, name) == if fileExists(path) then Ok(path) else Err(TemplateNotFound(path))
  {
  }

  /** A name whose first `::` starts at index `i` names the namespace
      `name[..i]`; the rest of the name, split on every later `::` and joined
      with `/`, is the path below that namespace's root. An unregistered
      namespace fails whatever the file system holds. */
  lemma ResolveNamespaced(cfg: Config, fileExists: string -> bool, name: string, i: nat)
    requires IndexOf(name, NamespaceDelimiter) == Some(i)
    ensures i + 2 <= |name|
    ensures var ns := name[..i];
            var rest := Explode(name[i + 2..], NamespaceDelimiter);
            && (ns !in cfg.namespaces ==> Resolve(cfg, fileExists, name) == Err(UndefinedNamespace(ns)))
            && (ns in cfg.namespaces ==>
                  var path := cfg.namespaces[ns] + "/" + Implode(rest, "/") + cfg.filesExtension;
                  Resolve(cfg, fileExists, name) == if fileExists(path) then Ok(path) else Err(TemplateNotFound(path)))
  {
    assert Occurs(name, NamespaceDelimiter, i);
    var parts := Explode(name, NamespaceDelimiter);
    assert parts == [name[..i]] + Explode(name[i + 2..], NamespaceDelimiter);
    assert parts[1..] == Explode(name[i + 2..], NamespaceDelimiter);
  }

  /** Resolution never consults the file system for an unregistered
      namespace: the outcome is the same error for every file system. */
  lemma UndefinedNamespaceIgnoresFiles(cfg: Config, exists1: string -> bool, exists2: string -> bool, name: string)
    requires Candidate(cfg, name).Err?
    ensures Resolve(cfg, exists1, name) == Resolve(cfg, exists2, name)
    ensures Resolve(cfg, exists1, name).Err? && Resolve(cfg, exists1, name).error.UndefinedNamespace?
  {
  }

  /** The namespace key never contains `::`, and the name is that key, the
      delimiter and the remaining pieces joined back with `::`. */
  lemma NamespaceKeyHasNoDelimiter(name: string)
    requires Contains(name, NamespaceDelimiter)
    ensures !Contains(Explode(name, NamespaceDelimiter)[0], NamespaceDelimiter)
    ensures name == Explode(name, NamespaceDelimiter)[0] + NamespaceDelimiter
                    + Implode(Explode(name, NamespaceDelimiter)[1..], NamespaceDelimiter)
  {
    var parts := Explode(name, NamespaceDelimiter);
    assert |parts| >= 2;
    assert Implode(parts, NamespaceDelimiter) == name;
  }
}
