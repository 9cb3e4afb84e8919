/** setOptions of the renderer and of the manager: every key of the options
    array names a setter `set<Key>`, which is called with the value; a key
    without a setter throws. Both classes hold the same three settings. */
module Options {
  import opened Base
  import opened PhpStrings
  import opened Paths

  /** An option value: a string, or an array of strings (the namespace map). */
  datatype OptValue = Text(text: string) | Table(table: map<string, string>)

  /** The options array in its iteration order. */
  type Entries = seq<(string, OptValue)>

  /** The class whose setters are looked up: the manager has one more. */
  datatype Owner = RendererOwner | ManagerOwner

  datatype Setter = SetFilesExtension | SetDefaultDirectory | SetNamespaces | SetUsePackageDirs

  /** method_exists($this, 'set' . ucfirst($key)): method names compare
      without regard to case, so ucfirst does not change the outcome.
      `setUsePackageDirs` exists on the manager only. */
  function SetterFor(owner: Owner, key: string): (r: Option<Setter>)
    ensures SameIdentifier("set" + key, "setFilesExtension") <==> r == Some(SetFilesExtension)
    ensures SameIdentifier("set" + key, "setDefaultDirectory") <==> r == Some(SetDefaultDirectory)
    ensures SameIdentifier("set" + key, "setNamespaces") <==> r == Some(SetNamespaces)
    ensures owner == ManagerOwner && SameIdentifier("set" + key, "setUsePackageDirs") <==> r == Some(SetUsePackageDirs)
    ensures r.None? <==> && !SameIdentifier("set" + key, "setFilesExtension")
                         && !SameIdentifier("set" + key, "setDefaultDirectory")
                         && !SameIdentifier("set" + key, "setNamespaces")
                         && !(owner == ManagerOwner && SameIdentifier("set" + key, "setUsePackageDirs"))
  {
    SettersDistinct("set" + key);
    var name := "set" + key;
    if SameIdentifier(name, "setFilesExtension") then Some(SetFilesExtension)
    else if SameIdentifier(name, "setDefaultDirectory") then Some(SetDefaultDirectory)
    else if SameIdentifier(name, "setNamespaces") then Some(SetNamespaces)
    else if owner == ManagerOwner && SameIdentifier(name, "setUsePackageDirs") then Some(SetUsePackageDirs)
    else None
  }

  /** No method name matches two setters: the names differ in length, or,
      for setFilesExtension and setUsePackageDirs, in their fourth letter. */
  lemma SettersDistinct(name: string)
    ensures !(SameIdentifier(name, "setFilesExtension") && SameIdentifier(name, "setUsePackageDirs"))
  {
    if SameIdentifier(name, "setFilesExtension") {
      assert LowerChar(name[3]) == LowerChar("setFilesExtension"[3]) == 'f';
      assert LowerChar("setUsePackageDirs"[3]) == 'u';
    }
  }

  /** The setter bodies. The string setters refuse an array and setNamespaces
      refuses a string (a PHP TypeError). setUsePackageDirs, despite its name,
      writes the files extension. */
  function ApplySetter(cfg: Config, s: Setter, key: string, v: OptValue): (r: Result<Config>)
    ensures r.Ok? <==> (s == SetNamespaces <==> v.Table?)
    ensures r.Ok? && (s == SetFilesExtension || s == SetUsePackageDirs) ==>
              r.value == cfg.(filesExtension := v.text)
    ensures r.Ok? && s == SetDefaultDirectory ==> r.value == cfg.(defaultDirectory := v.text)
    ensures r.Ok? && s == SetNamespaces ==> r.value == cfg.(namespaces := v.table)
  {
    match (s, v)
    case (SetNamespaces, Table(m)) => Ok(cfg.(namespaces := m))
    case (SetNamespaces, Text(_)) => Err(OptionTypeMismatch(key))
    case (_, Table(_)) => Err(OptionTypeMismatch(key))
    case (SetFilesExtension, Text(t)) => Ok(cfg.(filesExtension := t))
    case (SetUsePackageDirs, Text(t)) => Ok(cfg.(filesExtension := t))
    case (SetDefaultDirectory, Text(t)) => Ok(cfg.(defaultDirectory := t))
  }

  /** One entry of the options array on its own. */
  function ApplyEntry(owner: Owner, cfg: Config, e: (string, OptValue)): Result<Config>
  {
    match SetterFor(owner, e.0)
    case None => Err(UnknownOption(e.0))
    case Some(s) => ApplySetter(cfg, s, e.0, e.1)
  }

  /** An entry is accepted when its key names a setter that takes its value. */
  predicate Accepted(owner: Owner, e: (string, OptValue))
  {
    ApplyEntry(owner, DefaultConfig, e).Ok?
  }

  /** The settings after a call, and whether it returned or threw. */
  datatype Applied = Applied(cfg: Config, result: Result<()>)

  /** setOptions: the entries in order; the first refused entry throws and
      the settings written before it stay written. */
  function SetOptionsOf(owner: Owner, cfg: Config, entries: Entries): (r: Applied)
    ensures r.result.Ok? <==> forall i :: 0 <= i < |entries| ==> Accepted(owner, entries[i])
    ensures r.result.Err? ==> exists i :: 0 <= i < |entries| && !Accepted(owner, entries[i])
                                         && (r.result.error == UnknownOption(entries[i].0) ||
                                             r.result.error == OptionTypeMismatch(entries[i].0))
    decreases |entries|
  {
    if entries == [] then Applied(cfg, Ok(()))
    else
      match ApplyEntry(owner, cfg, entries[0])
      case Err(e) => Applied(cfg, Err(e))
      case Ok(cfg') =>
        var r := SetOptionsOf(owner, cfg', entries[1..]);
        assert forall i :: 1 <= i < |entries| ==> entries[i] == entries[1..][i - 1];
        if r.result.Err? then
          var i :| 0 <= i < |entries[1..]| && !Accepted(owner, entries[1..][i])
                   && (r.result.error == UnknownOption(entries[1..][i].0) ||
                       r.result.error == OptionTypeMismatch(entries[1..][i].0));
          assert entries[1..][i] == entries[i + 1];
          r
        else r
  }

  /** Whether a setter accepts a value does not depend on the settings. */
  lemma AcceptedAnywhere(owner: Owner, cfg: Config, e: (string, OptValue))
    ensures ApplyEntry(owner, cfg, e).Ok? <==> Accepted(owner, e)
  {
  }

  /** Setting options in two calls is setting them in one: setOptions
      composes over concatenation of the options arrays. */
  lemma {:induction false} SetOptionsConcat(owner: Owner, cfg: Config, a: Entries, b: Entries)
    ensures var first := SetOptionsOf(owner, cfg, a);
            SetOptionsOf(owner, cfg, a + b) ==
              if first.result.Ok? then SetOptionsOf(owner, first.cfg, b) else first
    decreases |a|
  {
    if a == [] {
      assert a + b == b;
    } else {
      assert (a + b)[0] == a[0] && (a + b)[1..] == a[1..] + b;
      match ApplyEntry(owner, cfg, a[0])
      case Err(_) =>
      case Ok(cfg') => SetOptionsConcat(owner, cfg', a[1..], b);
    }
  }

  /** Keys are applied in order, so the last key that writes a setting
      decides its value. */
  lemma LastKeyWins(owner: Owner, cfg: Config, entries: Entries, key: string, v: string)
    requires SetterFor(owner, key) == Some(SetFilesExtension)
    requires SetOptionsOf(owner, cfg, entries + [(key, Text(v))]).result.Ok?
    ensures SetOptionsOf(owner, cfg, entries + [(key, Text(v))]).cfg.filesExtension == v
  {
    SetOptionsConcat(owner, cfg, entries, [(key, Text(v))]);
    var mid := SetOptionsOf(owner, cfg, entries);
    assert |entries + [(key, Text(v))]| == |entries| + 1;
    assert (entries + [(key, Text(v))])[|entries|] == (key, Text(v));
    assert mid.result.Ok?;
    var last := SetOptionsOf(owner, mid.cfg, [(key, Text(v))]);
    assert [(key, Text(v))][1..] == [];
  }

  /** A key without a setter throws at once; the settings the earlier keys
      wrote are kept. */
  lemma UnknownKeyThrows(owner: Owner, cfg: Config, entries: Entries, key: string, v: OptValue, rest: Entries)
    requires SetterFor(owner, key).None?
    requires SetOptionsOf(owner, cfg, entries).result.Ok?
    ensures SetOptionsOf(owner, cfg, entries + [(key, v)] + rest) ==
            Applied(SetOptionsOf(owner, cfg, entries).cfg, Err(UnknownOption(key)))
  {
    assert entries + [(key, v)] + rest == entries + ([(key, v)] + rest);
    SetOptionsConcat(owner, cfg, entries, [(key, v)] + rest);
    assert ([(key, v)] + rest)[0] == (key, v);
  }

  /** The key `usePackageDirs` names a setter of the manager only. */
  lemma UsePackageDirsSetter()
    ensures SetterFor(ManagerOwner, "usePackageDirs") == Some(SetUsePackageDirs)
    ensures SetterFor(RendererOwner, "usePackageDirs").None?
  {
    var name := "set" + "usePackageDirs";
    assert LowerChar(name[3]) != LowerChar("setFilesExtension"[3]);
    assert |name| != |"setDefaultDirectory"| && |name| != |"setNamespaces"|;
    assert name == "setusePackageDirs";
    assert forall i :: 0 <= i < |name| ==> LowerChar(name[i]) == LowerChar("setUsePackageDirs"[i]);
  }

  /** The manager accepts `usePackageDirs` and writes the extension with it;
      the renderer throws. */
  lemma UsePackageDirsOnlyOnManager(cfg: Config, v: string)
    ensures SetOptionsOf(ManagerOwner, cfg, [("usePackageDirs", Text(v))]) ==
            Applied(cfg.(filesExtension := v), Ok(()))
    ensures SetOptionsOf(RendererOwner, cfg, [("usePackageDirs", Text(v))]) ==
            Applied(cfg, Err(UnknownOption("usePackageDirs")))
  {
    UsePackageDirsSetter();
    var e := [("usePackageDirs", Text(v))];
    assert e[0] == ("usePackageDirs", Text(v));
    assert e[1..] == [];
  }
}
