/** The section-capture state machine shared by `TemplateRenderer` and
    `Template`: start/append/prepend open a named capture on a fresh output
    buffer, stop closes it and stores the text, section reads it back. These
    functions are the specification the classes' methods are proved against. */
module Capture {
  import opened Base
  import opened OutputBuffering

  /** The per-object rendering state: `sections`, the capture in progress
      (`sectionName` with its two mode flags) and the registered layout. */
  datatype Page = Page(
    sections: map<string, string>,
    sectionName: Option<string>,
    appendSection: bool,
    prependSection: bool,
    layout: Option<string>,
    layoutData: Data)

  const FreshPage := Page(map[], None, false, false, None, map[])

  /** The reserved section that carries a body's output into its layout. */
  const ContentSection := "content"

  /** The object's page together with the process-wide output buffers. */
  datatype State = State(page: Page, out: Buffers)

  /** The state after an operation, and its value or the exception it threw.
      PHP does not roll back on a throw, so the state is kept in both cases. */
  datatype Step<+T> = Step(state: State, result: Result<T>)

  /** section($name, $default): the captured text, or the default for a
      section never stored. */
  function Section(p: Page, name: string, default: string): (r: string)
    ensures name in p.sections ==> r == p.sections[name]
    ensures name !in p.sections ==> r == default
  {
    if name in p.sections then p.sections[name] else default
  }

  /** start($name): refuses the reserved name, refuses to nest inside a capture
      whose name is truthy, and otherwise opens a buffer for `name`. */
  function Start(st: State, name: string): (r: Step<()>)
    ensures name == ContentSection ==> r.result == Err(ReservedSectionName)
    ensures r.result.Err? ==> r.state == st
    ensures r.result.Ok? ==> r.state.page == st.page.(sectionName := Some(name)) && r.state.out == Push(st.out)
  {
    if name == ContentSection then Step(st, Err(ReservedSectionName))
    else if TruthyOpt(st.page.sectionName) then Step(st, Err(NestedSection))
    else Step(State(st.page.(sectionName := Some(name)), Push(st.out)), Ok(()))
  }

  /** append($name): the flag is raised before start() runs, so it stays
      raised whether or not start() throws; otherwise it is start(). */
  function Append(st: State, name: string): (r: Step<()>)
    ensures r.result == Start(st, name).result && r.state.out == Start(st, name).state.out
    ensures r.state.page.appendSection
    ensures r.state.page.(appendSection := st.page.appendSection) == Start(st, name).state.page
  {
    Start(st.(page := st.page.(appendSection := true)), name)
  }

  /** prepend($name): the flag is raised before start() runs, so it stays
      raised whether or not start() throws; otherwise it is start(). */
  function Prepend(st: State, name: string): (r: Step<()>)
    ensures r.result == Start(st, name).result && r.state.out == Start(st, name).state.out
    ensures r.state.page.prependSection
    ensures r.state.page.(prependSection := st.page.prependSection) == Start(st, name).state.page
  {
    Start(st.(page := st.page.(prependSection := true)), name)
  }

  /** stop(): closes the capture. The buffer is drained once into `content`;
      when appending or prepending to an existing section the new text comes
      from a SECOND drain, of the enclosing buffer, and `content` is dropped. */
  function Stop(st: State): (r: Step<()>)
    ensures r.result.Err? <==> st.page.sectionName.None?
    ensures r.result.Err? ==> r == Step(st, Err(NoActiveSection))
    ensures r.result.Ok? ==> var name := st.page.sectionName.value;
              && r.state.page.sectionName.None? && !r.state.page.appendSection && !r.state.page.prependSection
              && name in r.state.page.sections
    ensures r.state.out.stdout == st.out.stdout
    ensures |r.state.out.stack| <= |st.out.stack| && r.state.out.stack == st.out.stack[..|r.state.out.stack|]
  {
    match st.page.sectionName
    case None => Step(st, Err(NoActiveSection))
    case Some(name) =>
      var p := st.page;
      var (content, out1) := Pop(st.out);
      var (stored, out2) :=
        if p.appendSection && name in p.sections then
          var (more, o) := Pop(out1); (p.sections[name] + more, o)
        else if p.prependSection && name in p.sections then
          var (more, o) := Pop(out1); (more + p.sections[name], o)
        else
          (content, out1);
      var page' := p.(sections := p.sections[name := stored], sectionName := None,
                      appendSection := false, prependSection := false);
      Step(State(page', out2), Ok(()))
  }

  /** layout($name, $data): records the layout and its data, nothing else. */
  function SetLayout(p: Page, name: string, data: Data): (r: Page)
    ensures r.layout == Some(name) && r.layoutData == data
    ensures r.(layout := p.layout, layoutData := p.layoutData) == p
  {
    p.(layout := Some(name), layoutData := data)
  }

  // ---------------------------------------------------------------------
  // start, append, prepend

  /** start("content") always throws and changes nothing. */
  lemma StartReserved(st: State)
    ensures Start(st, ContentSection) == Step(st, Err(ReservedSectionName))
  {
  }

  /** start succeeds exactly when the name is not reserved and no capture
      with a truthy name is active; a failed start changes nothing, a
      successful one records the name and opens exactly one buffer. */
  lemma StartOutcome(st: State, name: string)
    ensures Start(st, name).result.Ok? <==> name != ContentSection && !TruthyOpt(st.page.sectionName)
    ensures name != ContentSection && TruthyOpt(st.page.sectionName) ==> Start(st, name).result == Err(NestedSection)
    ensures Start(st, name).result.Err? ==> Start(st, name).state == st
    ensures Start(st, name).result.Ok? ==>
              Start(st, name).state == State(st.page.(sectionName := Some(name)), Push(st.out))
  {
  }

  /** A capture named "" or "0" is falsy in PHP, so it does not block a
      second start: the second capture replaces its name and stacks another
      buffer on top of the first one's. */
  lemma FalsyNameDoesNotBlockNesting(st: State, name: string)
    requires st.page.sectionName == Some("") || st.page.sectionName == Some("0")
    requires name != ContentSection
    ensures Start(st, name).result.Ok?
    ensures Start(st, name).state.page.sectionName == Some(name)
    ensures |Start(st, name).state.out.stack| == |st.out.stack| + 1
  {
  }

  /** append/prepend raise their flag before start() can throw, so a failed
      append leaves appendSection set (and a failed prepend prependSection). */
  lemma FailedAppendKeepsFlag(st: State, name: string)
    requires name == ContentSection || TruthyOpt(st.page.sectionName)
    ensures Append(st, name).result.Err?
    ensures Append(st, name).state == st.(page := st.page.(appendSection := true))
    ensures Prepend(st, name).result.Err?
    ensures Prepend(st, name).state == st.(page := st.page.(prependSection := true))
  {
  }

  // ---------------------------------------------------------------------
  // stop

  /** stop() without an active capture throws and changes nothing. */
  lemma StopIdle(st: State)
    requires st.page.sectionName.None?
    ensures Stop(st) == Step(st, Err(NoActiveSection))
  {
  }

  /** A successful stop clears the capture and both flags, keeps the layout,
      and changes `sections` only at the stopped name. */
  lemma StopResets(st: State)
    requires st.page.sectionName.Some?
    ensures var st' := Stop(st).state;
            var name := st.page.sectionName.value;
            && Stop(st).result.Ok?
            && st'.page.sectionName.None?
            && !st'.page.appendSection && !st'.page.prependSection
            && st'.page.layout == st.page.layout && st'.page.layoutData == st.page.layoutData
            && st'.page.sections.Keys == st.page.sections.Keys + {name}
            && forall k :: k in st.page.sections && k != name ==> st'.page.sections[k] == st.page.sections[k]
  {
  }

  /** In replace mode, or when the section has no content yet, stop stores
      the innermost buffer's text and closes exactly that one buffer. */
  lemma StopReplace(st: State)
    requires st.page.sectionName.Some?
    requires var name := st.page.sectionName.value;
             name !in st.page.sections || (!st.page.appendSection && !st.page.prependSection)
    ensures var name := st.page.sectionName.value;
            && Stop(st).state.page.sections == st.page.sections[name := Pop(st.out).0]
            && Stop(st).state.out == Pop(st.out).1
  {
  }

  /** Appending to an existing section drains two buffers: the capture's own
      text is discarded and the section grows by the text of the buffer
      beneath it. The old value stays a prefix. Both flags set: append wins. */
  lemma StopAppendDrainsEnclosing(st: State)
    requires st.page.sectionName.Some? && st.page.appendSection
    requires st.page.sectionName.value in st.page.sections
    ensures var name := st.page.sectionName.value;
            var old_ := st.page.sections[name];
            var enclosing := Pop(Pop(st.out).1);
            && Stop(st).state.page.sections[name] == old_ + enclosing.0
            && Stop(st).state.out == enclosing.1
            && Stop(st).state.page.sections[name][..|old_|] == old_
  {
  }

  /** Prepending to an existing section (append flag clear) drains two
      buffers the same way; the old value stays a suffix. */
  lemma StopPrependDrainsEnclosing(st: State)
    requires st.page.sectionName.Some? && !st.page.appendSection && st.page.prependSection
    requires st.page.sectionName.value in st.page.sections
    ensures var name := st.page.sectionName.value;
            var old_ := st.page.sections[name];
            var enclosing := Pop(Pop(st.out).1);
            var stored := Stop(st).state.page.sections[name];
            && stored == enclosing.0 + old_
            && Stop(st).state.out == enclosing.1
            && stored[|stored| - |old_|..] == old_
  {
  }

  // ---------------------------------------------------------------------
  // stop as evidently intended

  /** stop() with one drain: the capture's own text is appended to, or
      prepended to, the existing section, and only the capture's buffer is
      closed. This is what append and prepend are evidently meant to do;
      `Stop` above is what the code does. */
  function StopIntended(st: State): (r: Step<()>)
    ensures r.result.Err? <==> st.page.sectionName.None?
    ensures r.result.Err? ==> r == Step(st, Err(NoActiveSection))
    ensures r.result.Ok? ==> r.state.out == Pop(st.out).1
  {
    match st.page.sectionName
    case None => Step(st, Err(NoActiveSection))
    case Some(name) =>
      var p := st.page;
      var (content, out1) := Pop(st.out);
      var stored :=
        if p.appendSection && name in p.sections then p.sections[name] + content
        else if p.prependSection && name in p.sections then content + p.sections[name]
        else content;
      var page' := p.(sections := p.sections[name := stored], sectionName := None,
                      appendSection := false, prependSection := false);
      Step(State(page', out1), Ok(()))
  }

  /** With one drain, append then prepend keep what the capture wrote: the
      section becomes old + text (append) or text + old (prepend), and the
      buffers are as they were before the capture started. */
  lemma {:induction false} IntendedCaptureRoundTrip(st: State, name: string, text: string)
    requires st.page.sectionName.None? && name != ContentSection && name in st.page.sections
    ensures var a := Append(st, name).state;
            var st' := StopIntended(State(a.page, Write(a.out, text))).state;
            && st'.page.sections[name] == st.page.sections[name] + text
            && st'.out == st.out
    ensures var p := Prepend(st, name).state;
            var st' := StopIntended(State(p.page, Write(p.out, text))).state;
            && (!st.page.appendSection ==> st'.page.sections[name] == text + st.page.sections[name])
            && st'.out == st.out
  {
    PushWritePop(st.out, text);
  }

  /** The example the append and prepend helpers are meant for: start s,
      "A", stop, then append s, "B", stop gives "AB"; with prepend, "BA". */
  lemma {:induction false} IntendedAppendPrependExample(st: State, name: string)
    requires st.page.sectionName.None? && !st.page.appendSection && !st.page.prependSection
    requires name != ContentSection
    ensures var s1 := Start(st, name).state;
            var s2 := StopIntended(State(s1.page, Write(s1.out, "A"))).state;
            var a := Append(s2, name).state;
            var s3 := StopIntended(State(a.page, Write(a.out, "B"))).state;
            var p := Prepend(s2, name).state;
            var s4 := StopIntended(State(p.page, Write(p.out, "B"))).state;
            && s3.page.sections[name] == "AB" && s3.out == st.out
            && s4.page.sections[name] == "BA" && s4.out == st.out
  {
    var s1 := Start(st, name).state;
    PushWritePop(st.out, "A");
    var s2 := StopIntended(State(s1.page, Write(s1.out, "A"))).state;
    assert s2.page.sections[name] == "A" && s2.out == st.out;
    assert !s2.page.appendSection && !s2.page.prependSection;
    IntendedCaptureRoundTrip(s2, name, "B");
  }

  // ---------------------------------------------------------------------
  // start ... stop as a whole

  /** A capture in replace mode (or on a section with no content) stores
      exactly the text written since its start, restores the buffers to what
      they were before the start, and `section` then reads that text back. */
  lemma {:induction false} CaptureRoundTrip(st: State, name: string, text: string, default: string)
    requires Start(st, name).result.Ok?
    requires name !in st.page.sections || (!st.page.appendSection && !st.page.prependSection)
    ensures var st' := Stop(State(Start(st, name).state.page, Write(Start(st, name).state.out, text))).state;
            && st'.page.sections == st.page.sections[name := text]
            && st'.out == st.out
            && st'.page.sectionName.None?
            && Section(st'.page, name, default) == text
  {
    var s1 := Start(st, name).state;
    PushWritePop(st.out, text);
    assert s1.out == Push(st.out);
    StopReplace(State(s1.page, Write(s1.out, text)));
  }

  /** Append to an existing section: the text written inside the capture is
      lost, and the section is extended by whatever the enclosing buffer held,
      which is consumed. */
  lemma {:induction false} AppendRoundTrip(st: State, name: string, text: string)
    requires Append(st, name).result.Ok?
    requires name in st.page.sections
    ensures var st' := Stop(State(Append(st, name).state.page, Write(Append(st, name).state.out, text))).state;
            && st'.page.sections[name] == st.page.sections[name] + Pop(st.out).0
            && st'.out == Pop(st.out).1
  {
    var s1 := Append(st, name).state;
    PushWritePop(st.out, text);
    assert s1.out == Push(st.out);
    StopAppendDrainsEnclosing(State(s1.page, Write(s1.out, text)));
  }

  /** The failed-append flag is not cleared until the next stop: after
      append("content") throws, a plain start/stop on an existing section
      takes the append branch. */
  lemma {:induction false} FailedAppendTurnsNextCaptureIntoAppend(st: State, name: string, text: string)
    requires st.page.sectionName.None?
    requires name != ContentSection && name in st.page.sections
    ensures var failed := Append(st, ContentSection);
            var started := Start(failed.state, name);
            var st' := Stop(State(started.state.page, Write(started.state.out, text))).state;
            && failed.result.Err? && started.result.Ok?
            && st'.page.sections[name] == st.page.sections[name] + Pop(st.out).0
  {
    var failed := Append(st, ContentSection);
    assert failed.state == st.(page := st.page.(appendSection := true));
    assert Append(st, name) == Start(failed.state, name);
    AppendRoundTrip(st, name, text);
  }
}
