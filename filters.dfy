/** The filter pipeline of templates: `batch` runs a `|`-separated chain of
    functions over a value, `escape` (alias `e`) optionally runs such a chain
    and then HTML-escapes the result the way `htmlspecialchars` does with
    ENT_QUOTES. The chain's global functions come from an explicit registry. */
module Filters {
  import opened Base
  import opened PhpStrings

  // ---------------------------------------------------------------------
  // htmlspecialchars(…, ENT_QUOTES | ENT_SUBSTITUTE, 'UTF-8')

  /** The characters that must never appear unescaped in the output. */
  predicate Raw(c: char)
  {
    c == '<' || c == '>' || c == '"' || c == '\''
  }

  /** The characters `htmlspecialchars` leaves alone. */
  predicate Plain(c: char)
  {
    !Raw(c) && c != '&'
  }

  /** The replacement of one character under ENT_QUOTES. */
  function EscapeChar(c: char): (r: string)
    ensures |r| >= 1
    ensures forall i :: 0 <= i < |r| ==> !Raw(r[i])
    ensures Plain(c) <==> r == [c]
  {
    match c
    case '&' => "&amp;"
    case '"' => "&quot;"
    case '\'' => "&#039;"
    case '<' => "&lt;"
    case '>' => "&gt;"
    case _ => [c]
  }

  /** htmlspecialchars: every character replaced by its escape. */
  function HtmlSpecialChars(s: string): (r: string)
    ensures |r| >= |s|
    ensures forall i :: 0 <= i < |r| ==> !Raw(r[i])
    ensures (forall i :: 0 <= i < |s| ==> Plain(s[i])) ==> r == s
  {
    if s == [] then []
    else
      var head := EscapeChar(s[0]);
      var tail := HtmlSpecialChars(s[1..]);
      ConcatNoRaw(head, tail);
      assert (forall i :: 0 <= i < |s| ==> Plain(s[i])) ==> head == [s[0]] && tail == s[1..];
      head + tail
  }

  lemma ConcatNoRaw(a: string, b: string)
    requires forall i :: 0 <= i < |a| ==> !Raw(a[i])
    requires forall i :: 0 <= i < |b| ==> !Raw(b[i])
    ensures forall i :: 0 <= i < |a + b| ==> !Raw((a + b)[i])
  {
    forall i | 0 <= i < |a + b| ensures !Raw((a + b)[i]) {
      if i >= |a| { assert (a + b)[i] == b[i - |a|]; }
    }
  }

  /** The inverse of htmlspecialchars: the five entities it produces are
      turned back into their characters (the job `htmlspecialchars_decode`
      does with ENT_QUOTES). */
  function DecodeEntities(s: string): string
    decreases |s|
  {
    if s == [] then []
    else if |s| >= 5 && s[..5] == "&amp;" then "&" + DecodeEntities(s[5..])
    else if |s| >= 6 && s[..6] == "&quot;" then "\"" + DecodeEntities(s[6..])
    else if |s| >= 6 && s[..6] == "&#039;" then "'" + DecodeEntities(s[6..])
    else if |s| >= 4 && s[..4] == "&lt;" then "<" + DecodeEntities(s[4..])
    else if |s| >= 4 && s[..4] == "&gt;" then ">" + DecodeEntities(s[4..])
    else [s[0]] + DecodeEntities(s[1..])
  }

  /** Decoding undoes the escape of one character in front of any text. */
  lemma DecodeEscapeChar(c: char, t: string)
    ensures DecodeEntities(EscapeChar(c) + t) == [c] + DecodeEntities(t)
  {
    var e := EscapeChar(c);
    var s := e + t;
    assert s[|e|..] == t;
    assert forall i :: 0 <= i < |e| ==> s[i] == e[i];
    if Plain(c) {
      assert s[0] == c && s[1..] == t;
      assert |s| >= 4 ==> s[..4][0] == c;
      assert |s| >= 5 ==> s[..5][0] == c;
      assert |s| >= 6 ==> s[..6][0] == c;
    } else {
      assert s[..|e|] == e;
      assert s[..4][1] == s[1] && s[..4][1] == e[1];
      assert |s| >= 5 ==> s[..5][1] == e[1];
      assert |s| >= 6 ==> s[..6][1] == e[1] && s[..6][2] == e[2];
    }
  }

  /** Escaping loses nothing: decoding its output gives the input back. */
  lemma {:induction false} DecodeEscape(s: string)
    ensures DecodeEntities(HtmlSpecialChars(s)) == s
  {
    if s != [] {
      DecodeEscapeChar(s[0], HtmlSpecialChars(s[1..]));
      DecodeEscape(s[1..]);
      assert [s[0]] + s[1..] == s;
    }
  }

  /** Hence two different strings never escape to the same text. */
  lemma EscapeInjective(s: string, t: string)
    requires HtmlSpecialChars(s) == HtmlSpecialChars(t)
    ensures s == t
  {
    DecodeEscape(s);
    DecodeEscape(t);
  }

  // ---------------------------------------------------------------------
  // batch

  /** The global functions a chain may name, by name. */
  type Registry = map<string, string -> string>

  /** The `|` that separates the functions of a chain. */
  const FilterDelimiter := "|"

  /** A chain name resolves first against the object's own methods (method
      names are case-insensitive; of them only `e` and `escape`, which then
      run without a chain, are modelled) and then against the registry. */
  function Lookup(reg: Registry, name: string): (r: Option<string -> string>)
    ensures (SameIdentifier(name, "e") || SameIdentifier(name, "escape")) ==> r == Some(HtmlSpecialChars)
    ensures r.None? <==> !SameIdentifier(name, "e") && !SameIdentifier(name, "escape") && name !in reg
    ensures !SameIdentifier(name, "e") && !SameIdentifier(name, "escape") && name in reg ==> r == Some(reg[name])
  {
    if SameIdentifier(name, "e") || SameIdentifier(name, "escape") then Some(HtmlSpecialChars)
    else if name in reg then Some(reg[name])
    else None
  }

  /** Apply the named functions left to right, each to the previous output;
      the first name that does not resolve throws and ends the chain. */
  function Chain(reg: Registry, names: seq<string>, v: string): (r: Result<string>)
    ensures r.Err? <==> exists k :: 0 <= k < |names| && Lookup(reg, names[k]).None?
    ensures r.Err? ==> exists k :: 0 <= k < |names| && r.error == UnknownFunction(names[k])
                                   && Lookup(reg, names[k]).None?
                                   && forall j :: 0 <= j < k ==> Lookup(reg, names[j]).Some?
  {
    if names == [] then Ok(v)
    else
      match Lookup(reg, names[0])
      case None => Err(UnknownFunction(names[0]))
      case Some(f) =>
        var r := Chain(reg, names[1..], f(v));
        FirstUnknownShift(reg, names, r);
        r
  }

  /** The first unresolvable name of `names[1..]` is, one place further on,
      the first unresolvable name of `names` when `names[0]` resolves. */
  lemma FirstUnknownShift(reg: Registry, names: seq<string>, r: Result<string>)
    requires names != [] && Lookup(reg, names[0]).Some?
    requires r.Err? ==> exists k :: 0 <= k < |names[1..]| && r.error == UnknownFunction(names[1..][k])
                                    && Lookup(reg, names[1..][k]).None?
                                    && forall j :: 0 <= j < k ==> Lookup(reg, names[1..][j]).Some?
    ensures r.Err? ==> exists k :: 0 <= k < |names| && r.error == UnknownFunction(names[k])
                                   && Lookup(reg, names[k]).None?
                                   && forall j :: 0 <= j < k ==> Lookup(reg, names[j]).Some?
  {
    if r.Err? {
      var k :| 0 <= k < |names[1..]| && r.error == UnknownFunction(names[1..][k])
               && Lookup(reg, names[1..][k]).None?
               && forall j :: 0 <= j < k ==> Lookup(reg, names[1..][j]).Some?;
      assert names[1..][k] == names[k + 1];
      assert forall j :: 1 <= j < k + 1 ==> names[j] == names[1..][j - 1];
    }
  }

  /** batch($var, $functions): the chain of the pieces between the pipes; a
      string without a pipe names a single function. */
  function BatchOf(reg: Registry, v: string, functions: string): (r: Result<string>)
    ensures !Contains(functions, FilterDelimiter) ==> r == Chain(reg, [functions], v)
  {
    var names := Explode(functions, FilterDelimiter);
    Chain(reg, names, v)
  }

  /** Running a chain in two pieces is running the whole chain. */
  lemma {:induction false} ChainConcat(reg: Registry, a: seq<string>, b: seq<string>, v: string)
    ensures Chain(reg, a + b, v) ==
            match Chain(reg, a, v)
            case Ok(w) => Chain(reg, b, w)
            case Err(e) => Err(e)
  {
    if a != [] {
      assert (a + b)[0] == a[0] && (a + b)[1..] == a[1..] + b;
      match Lookup(reg, a[0])
      case None =>
      case Some(f) => ChainConcat(reg, a[1..], b, f(v));
    } else {
      assert a + b == b;
    }
  }

  /** A chain of one resolvable name applies that function once. */
  lemma BatchSingle(reg: Registry, v: string, name: string)
    requires !Contains(name, FilterDelimiter)
    ensures BatchOf(reg, v, name) ==
            match Lookup(reg, name)
            case Some(f) => Ok(f(v))
            case None => Err(UnknownFunction(name))
  {
    var names := Explode(name, FilterDelimiter);
    assert names == [name];
    assert names[1..] == [];
    match Lookup(reg, name)
    case Some(f) => assert Chain(reg, [], f(v)) == Ok(f(v));
    case None =>
  }

  /** `a|b` is `b` applied to the result of `a`. */
  lemma BatchPair(reg: Registry, v: string, a: string, b: string, f: string -> string, g: string -> string)
    requires !Contains(a, FilterDelimiter) && !Contains(b, FilterDelimiter)
    requires Lookup(reg, a) == Some(f) && Lookup(reg, b) == Some(g)
    ensures BatchOf(reg, v, a + FilterDelimiter + b) == Ok(g(f(v)))
  {
    var s := a + FilterDelimiter + b;
    var names := Explode(s, FilterDelimiter);
    assert Implode(names, FilterDelimiter) == s;
    NoOccurrenceSplit(a, b);
    assert names == [a, b];
    assert names[1..] == [b] && names[1..][1..] == [];
    assert Chain(reg, names, v) == Chain(reg, [b], f(v));
    assert Chain(reg, [b], f(v)) == Chain(reg, [], g(f(v)));
  }

  /** Splitting `a|b` on `|`, where neither side holds a `|`, gives [a, b]. */
  lemma NoOccurrenceSplit(a: string, b: string)
    requires !Contains(a, FilterDelimiter) && !Contains(b, FilterDelimiter)
    ensures Explode(a + FilterDelimiter + b, FilterDelimiter) == [a, b]
  {
    var s := a + FilterDelimiter + b;
    ContainsIff(a, FilterDelimiter);
    ContainsIff(b, FilterDelimiter);
    assert s[|a|..|a| + 1] == FilterDelimiter;
    assert IndexOf(s, FilterDelimiter) == Some(|a|) by {
      assert Occurs(s, FilterDelimiter, |a|);
      var r := IndexOf(s, FilterDelimiter);
      assert r.Some?;
      if r.value < |a| {
        assert s[r.value..r.value + 1] == a[r.value..r.value + 1];
        assert Occurs(a, FilterDelimiter, r.value);
      }
    }
    var parts := Explode(s, FilterDelimiter);
    assert s[|a| + 1..] == b;
    assert parts[0] == a;
    assert parts == [a] + Explode(b, FilterDelimiter);
    assert Explode(b, FilterDelimiter) == [b];
  }

  /** The loop of batch: walks the chain, reassigning the value. */
  method Batch(reg: Registry, v: string, functions: string) returns (r: Result<string>)
    ensures r == BatchOf(reg, v, functions)
  {
    var names := Explode(functions, FilterDelimiter);
    var acc := v;
    var i := 0;
    while i < |names|
      invariant 0 <= i <= |names|
      invariant Chain(reg, names[i..], acc) == Chain(reg, names, v)
    {
      match Lookup(reg, names[i]) {
        case None =>
          return Err(UnknownFunction(names[i]));
        case Some(f) =>
          assert names[i..][1..] == names[i + 1..];
          acc := f(acc);
      }
      i := i + 1;
    }
    return Ok(acc);
  }

  // ---------------------------------------------------------------------
  // escape, e

  /** escape($string, $functions): the chain runs only when `functions` is
      truthy (given, and neither "" nor "0"); its output is then escaped. */
  function Escaped(reg: Registry, s: string, functions: Option<string>): (r: Result<string>)
    ensures r.Ok? ==> forall i :: 0 <= i < |r.value| ==> !Raw(r.value[i])
    ensures !TruthyOpt(functions) ==> r == Ok(HtmlSpecialChars(s))
    ensures TruthyOpt(functions) ==>
              r == match BatchOf(reg, s, functions.value)
                   case Ok(w) => Ok(HtmlSpecialChars(w))
                   case Err(e) => Err(e)
  {
    if TruthyOpt(functions) then
      match BatchOf(reg, s, functions.value)
      case Ok(w) => Ok(HtmlSpecialChars(w))
      case Err(e) => Err(e)
    else Ok(HtmlSpecialChars(s))
  }

  /** A successful escape can be decoded to the chain's output. */
  lemma EscapedDecodes(reg: Registry, s: string, functions: Option<string>)
    ensures Escaped(reg, s, functions).Ok? ==>
              DecodeEntities(Escaped(reg, s, functions).value) ==
              if TruthyOpt(functions) then BatchOf(reg, s, functions.value).value else s
  {
    if TruthyOpt(functions) {
      var b := BatchOf(reg, s, functions.value);
      if b.Ok? { DecodeEscape(b.value); }
    } else {
      DecodeEscape(s);
    }
  }

  /** A chain that names `e` escapes twice: `&` becomes `&amp;amp;`. */
  lemma EscapeThroughE(reg: Registry)
    ensures Escaped(reg, "&", Some("e")) == Ok("&amp;amp;")
  {
    BatchE(reg, "&");
    AmpersandEscapes();
    assert Truthy("e");
  }

  /** The chain `e` escapes once. */
  lemma BatchE(reg: Registry, v: string)
    ensures BatchOf(reg, v, "e") == Ok(HtmlSpecialChars(v))
  {
    ContainsChar("e", '|');
    assert SameIdentifier("e", "e");
    BatchSingle(reg, v, "e");
  }

  lemma AmpersandEscapes()
    ensures HtmlSpecialChars("&") == "&amp;"
    ensures HtmlSpecialChars("&amp;") == "&amp;amp;"
  {
    assert "&"[1..] == [];
    var w := "&amp;";
    assert w[0] == '&' && w[1..] == "amp;";
    assert HtmlSpecialChars("amp;") == "amp;";
  }

  /** escape: runs batch (the loop) when the chain is truthy. */
  method Escape(reg: Registry, s: string, functions: Option<string>) returns (r: Result<string>)
    ensures r == Escaped(reg, s, functions)
  {
    var str := s;
    if TruthyOpt(functions) {
      var b := Batch(reg, str, functions.value);
      if b.Err? {
        return Err(b.error);
      }
      str := b.value;
    }
    return Ok(HtmlSpecialChars(str));
  }

  /** e: the alias of escape. */
  method E(reg: Registry, s: string, functions: Option<string>) returns (r: Result<string>)
    ensures r == Escaped(reg, s, functions)
  {
    r := Escape(reg, s, functions);
  }
}
